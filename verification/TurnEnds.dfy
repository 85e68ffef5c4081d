/**
 What whole turns come to (crates/agent/src/agent_loop.rs): the figures their rows carry, what those figures
 count, why they end and what their history ends on. Stated on the script and the rows, for every script.
 */
module TurnEnds {
  import opened Common
  import opened Messages
  import opened Figures
  import opened TurnLoop
  import opened TurnRows
  import Dispatch
  import Steering

  // ------------------------------------------------------------- the figures on the rows

  /** The figures that rows carry, in order. */
  function StatsOf(rows: seq<ChatMessage>): seq<StepStats> {
    if rows == [] then []
    else (if rows[0].Assistant? && rows[0].stats.Some? then [rows[0].stats.value] else []) + StatsOf(rows[1..])
  }

  lemma {:induction false} StatsConcat(a: seq<ChatMessage>, b: seq<ChatMessage>)
    ensures StatsOf(a + b) == StatsOf(a) + StatsOf(b)
  {
    if a == [] {
      assert a + b == b;
    } else {
      assert (a + b)[1..] == a[1..] + b;
      StatsConcat(a[1..], b);
    }
  }

  lemma {:induction false} NoStats(rows: seq<ChatMessage>)
    requires forall i :: 0 <= i < |rows| ==> !rows[i].Assistant?
    ensures StatsOf(rows) == []
  {
    if rows != [] {
      NoStats(rows[1..]);
    }
  }

  /** What was stored carries exactly the figures that were counted. */
  ghost predicate Tallied(before: Turn, after: Turn) {
    && before.store <= after.store && before.totals.steps <= after.totals.steps
    && StatsOf(after.store[|before.store|..]) == after.totals.steps[|before.totals.steps|..]
  }

  lemma TallyOnward(a: Turn, b: Turn, c: Turn)
    requires Tallied(a, b) && Tallied(b, c)
    ensures Tallied(a, c)
  {
    StatsConcat(b.store[|a.store|..], c.store[|b.store|..]);
    assert c.store[|a.store|..] == b.store[|a.store|..] + c.store[|b.store|..];
  }

  lemma SameIsTallied(before: Turn, after: Turn)
    requires after.store == before.store && after.totals.steps == before.totals.steps
    ensures Tallied(before, after)
  {}

  lemma StepIsTallied(before: Turn, after: Turn, content: seq<ContentPart>, calls: seq<ToolCall>,
        tools: seq<ChatMessage>)
    requires StoredStep(before, after, content, calls, tools)
    requires forall i :: 0 <= i < |tools| ==> !tools[i].Assistant?
    ensures Tallied(before, after)
  {
    var row := Assistant(content, calls, Some(after.totals.steps[|before.totals.steps|]));
    NoStats(tools);
    StatsConcat([row], tools);
    assert StatsOf([row]) == [row.stats.value] + StatsOf([]);
    assert after.store[|before.store|..] == [row] + tools;
  }

  lemma DrainIsTallied(t: Turn, input: Input)
    ensures Tallied(t, Drained(t, input, 0).0)
  {
    DrainAppendsWhatItTakes(t, input, 0);
    DrainCountsNothing(t, input, 0);
    var after := Drained(t, input, 0).0;
    NoStats(SteerRows(after.steered[|t.steered|..]));
    assert after.store[|t.store|..] == SteerRows(after.steered[|t.steered|..]);
  }

  lemma {:induction false} DrainCountsNothing(t: Turn, input: Input, k: nat)
    ensures var after := Drained(t, input, k).0;
      after.totals == t.totals && after.stop == t.stop && after.iteration == t.iteration
    decreases Left(input, k), |t.queue|
  {
    var now := BeforeLook(t, input, k);
    if now.queue != [] && input.appendFails != Some(k) {
      DrainCountsNothing(WriteSteer(now), input, k + 1);
    }
  }

  lemma IterationIsTallied(config: Config, input: Input, t: Turn)
    ensures Tallied(t, Iterated(config, input, t).0)
  {
    ResultIsStored(config, input, t);
    var (after, flow) := Iterated(config, input, t);
    if StoredNothing(t, after) {
      SameIsTallied(t, after);
    } else {
      var result := input.streamed.result;
      var calls := WholeCalls(config, result, result.toolCalls);
      if calls == [] {
        StepIsTallied(t, after, result.content, [], []);
      } else {
        var batch := BatchOf(config, input, t.world, calls);
        StepIsTallied(t, after, result.content, calls, ToolRows(calls, batch.batch.answers));
      }
    }
  }

  lemma NextIsTallied(config: Config, input: Input, t: Turn)
    ensures Tallied(t, Iterated(config, input, t.(iteration := t.iteration + 1)).0)
  {
    var ready := t.(iteration := t.iteration + 1);
    IterationIsTallied(config, input, ready);
    SameIsTallied(t, ready);
    TallyOnward(t, ready, Iterated(config, input, ready).0);
  }

  lemma PassIsTallied(config: Config, input: Input, t: Turn)
    ensures Tallied(t, Pass(config, input, t).0)
  {
    var (drained, ok) := Drained(t, input, 0);
    DrainIsTallied(t, input);
    if ok {
      NextIsTallied(config, input, drained);
      assert Pass(config, input, t) == Iterated(config, input, drained.(iteration := drained.iteration + 1));
      TallyOnward(t, drained, Pass(config, input, t).0);
    }
  }

  lemma {:induction false} LoopIsTallied(config: Config, script: nat -> Input, t: Turn)
    ensures Tallied(t, Looped(config, script, t).0)
    decreases config.maxToolIterations - t.iteration
  {
    var input := script(t.iteration);
    if t.iteration >= config.maxToolIterations || input.cancelled || input.timedOut {
      SameIsTallied(t, Looped(config, script, t).0);
    } else {
      var (after, flow) := Pass(config, input, t);
      PassCounts(config, input, t);
      PassIsTallied(config, input, t);
      if flow == Continue {
        LoopIsTallied(config, script, after);
        TallyOnward(t, after, Looped(config, script, after).0);
      }
    }
  }

  /** What a cap adds, when it can: a row that says so, with whatever figures were pending. */
  ghost predicate LimitRow(before: Turn, after: Turn) {
    && |after.store| == |before.store| + 1 && before.store <= after.store
    && var row := after.store[|before.store|];
       row.Assistant? && row.content == [Text("I stopped before finishing.")] && row.toolCalls == []
  }

  lemma LimitIsTallied(t: Turn)
    ensures var after := StepWrite(t, [Assistant([Text(LIMIT_TEXT)], [], None)], true).0;
      LimitRow(t, after) && Tallied(t, after)
  {
    var after := StepWrite(t, [Assistant([Text(LIMIT_TEXT)], [], None)], true).0;
    var row := Assistant([Text(LIMIT_TEXT)], [], StepTaken(t.totals.pending));
    assert after.store == t.store + [row];
    assert after.store[|t.store|..] == [row];
    assert StatsOf([row]) == (if row.stats.Some? then [row.stats.value] else []) + StatsOf([]);
  }

  lemma CloseIsTallied(t: Turn, closing: Closing)
    ensures Tallied(t, Closed(t, closing).0)
  {
    var ended := t.(stop := Some(if t.stop.None? then MaxIterations else t.stop.value));
    SameIsTallied(t, ended);
    if closing.listening && closing.written {
      LimitIsTallied(ended);
    }
  }

  /**
   The rows a turn stores carry its steps: read in order, the figures on the rows stored since it opened are
   exactly those of the steps it counted, however it ends. None is stored twice, dropped or out of order.
   */
  lemma StepsAreOnTheRows(config: Config, script: nat -> Input, t: Turn, closing: Closing)
    requires Opening(t)
    ensures var after := RunTurn(config, script, t, closing).0;
      t.store <= after.store && StatsOf(after.store[|t.store|..]) == after.totals.steps
  {
    LoopIsTallied(config, script, t);
    var (looped, flow) := Looped(config, script, t);
    if flow != Fail {
      CloseIsTallied(looped, closing);
      TallyOnward(t, looped, Closed(looped, closing).0);
    }
  }

  // ------------------------------------------------------------- what the figures count

  function Least(a: nat, b: nat): nat {
    if a < b then a else b
  }

  function LeastOptional(a: Option<nat>, top: nat): Option<nat> {
    if a.None? then None else Some(Least(a.value, top))
  }

  /** Each figure, or `top` where it is more. */
  function Capped(s: StepStats, top: nat): StepStats {
    StepStats(
      Usage(Least(s.usage.promptTokens, top), Least(s.usage.completionTokens, top), Least(s.usage.totalTokens, top),
            LeastOptional(s.usage.cachedTokens, top), LeastOptional(s.usage.reasoningTokens, top)),
      LeastOptional(s.generationTokens, top))
  }

  /** What a provider reported of a result: its tokens count as generated when it timed them. */
  function Spent(result: ChatResult): StepStats {
    StepStats(result.usage, if result.timed then Some(result.usage.completionTokens) else None)
  }

  /** All that was reported in the first `n` iterations. */
  function Reported(script: nat -> Input, n: nat): StepStats {
    if n == 0 then NOTHING
    else
      var input := script(n - 1);
      if input.built && input.streamed.Result? then Plus(Reported(script, n - 1), Spent(input.streamed.result))
      else Reported(script, n - 1)
  }

  /** No figure is more than a 64-bit count can hold. */
  predicate Counts(s: StepStats) {
    s == Capped(s, 0xFFFF_FFFF_FFFF_FFFF)
  }

  /** A provider reports 64-bit counts. */
  ghost predicate ReportsCounts(script: nat -> Input) {
    forall n: nat :: script(n).streamed.Result? ==> Counts(Spent(script(n).streamed.result))
  }

  /** The turn's figures, as a step's. */
  function Total(t: Totals): StepStats {
    StepStats(t.usage, Some(t.generationTokens))
  }

  /** The turn's figures are those of `all`, as far as a 64-bit count goes. */
  predicate Totals64(t: Totals, all: StepStats) {
    && t.usage == Capped(all, 0xFFFF_FFFF_FFFF_FFFF).usage
    && t.generationTokens == Least(OrZero(all.generationTokens), 0xFFFF_FFFF_FFFF_FFFF)
  }

  lemma NotedTotals(t: Totals, all: StepStats, result: ChatResult)
    requires Totals64(t, all) && Counts(Spent(result))
    ensures Totals64(Noted(t, result.usage, result.timed), Plus(all, Spent(result)))
  {}

  /** Nothing after a result is counted changes the turn's figures. */
  predicate SameFigures(t: Turn, r: Turn) {
    r.totals.usage == t.totals.usage && r.totals.generationTokens == t.totals.generationTokens
  }

  lemma ToolsCountNothing(config: Config, input: Input, t: Turn, result: ChatResult, calls: seq<ToolCall>)
    ensures SameFigures(t, ToolsRun(config, input, t, result, calls).0)
  {}

  lemma RecoveryCountsNothing(config: Config, input: Input, t: Turn, result: ChatResult)
    ensures SameFigures(t, Recovered(config, input, t, result).0)
  {
    ToolsCountNothing(config, input, Corrected(config, t, result), result, Kept(config, result.toolCalls));
  }

  lemma ResultIsCounted(config: Config, input: Input, t: Turn, result: ChatResult)
    ensures SameFigures(t.(totals := Noted(t.totals, result.usage, result.timed)),
        AfterResult(config, input, t, result).0)
  {
    var noted := t.(totals := Noted(t.totals, result.usage, result.timed));
    if result.finish == Length && Cut(config, result.toolCalls) != [] {
      RecoveryCountsNothing(config, input, noted, result);
    } else if result.toolCalls != [] {
      ToolsCountNothing(config, input, noted, result, result.toolCalls);
    }
  }

  /** What was reported once an iteration is done. */
  function ReportedAfter(all: StepStats, input: Input): StepStats {
    if input.built && input.streamed.Result? then Plus(all, Spent(input.streamed.result)) else all
  }

  lemma IterationIsCounted(config: Config, input: Input, t: Turn, all: StepStats)
    requires input.streamed.Result? ==> Counts(Spent(input.streamed.result))
    requires Totals64(t.totals, all)
    ensures Totals64(Iterated(config, input, t).0.totals, ReportedAfter(all, input))
  {
    if input.built && input.streamed.Result? {
      var result := input.streamed.result;
      ResultIsCounted(config, input, Sent(input, t), result);
      NotedTotals(t.totals, all, result);
    }
  }

  lemma PassIsCounted(config: Config, script: nat -> Input, t: Turn)
    requires ReportsCounts(script) && Totals64(t.totals, Reported(script, t.iteration))
    ensures var after := Pass(config, script(t.iteration), t).0;
      Totals64(after.totals, Reported(script, after.iteration))
  {
    var input := script(t.iteration);
    DrainCountsNothing(t, input, 0);
    var (drained, ok) := Drained(t, input, 0);
    if ok {
      var ready := drained.(iteration := drained.iteration + 1);
      IterationIsCounted(config, input, ready, Reported(script, t.iteration));
      assert Pass(config, input, t) == Iterated(config, input, ready);
      assert Reported(script, t.iteration + 1) == ReportedAfter(Reported(script, t.iteration), input);
    }
  }

  lemma {:induction false} LoopIsCounted(config: Config, script: nat -> Input, t: Turn)
    requires ReportsCounts(script) && Totals64(t.totals, Reported(script, t.iteration))
    ensures var after := Looped(config, script, t).0; Totals64(after.totals, Reported(script, after.iteration))
    decreases config.maxToolIterations - t.iteration
  {
    var input := script(t.iteration);
    if t.iteration < config.maxToolIterations && !input.cancelled && !input.timedOut {
      var (after, flow) := Pass(config, input, t);
      PassCounts(config, input, t);
      PassIsCounted(config, script, t);
      if flow == Continue {
        LoopIsCounted(config, script, after);
      }
    }
  }

  /**
   The turn's figures are what the provider reported in it: every result of every iteration once, whether its
   rows were written or not, as far as a 64-bit count goes.
   */
  lemma EveryResultIsCounted(config: Config, script: nat -> Input, t: Turn, closing: Closing)
    requires Opening(t) && ReportsCounts(script)
    ensures var after := RunTurn(config, script, t, closing).0;
      Totals64(after.totals, Reported(script, after.iteration))
  {
    LoopIsCounted(config, script, t);
  }

  lemma ToolsTakeTheStep(config: Config, input: Input, t: Turn, result: ChatResult, calls: seq<ToolCall>)
    ensures var (after, flow) := ToolsRun(config, input, t, result, calls);
      flow != Fail ==> after.totals == Recorded(t.totals)
  {}

  lemma FoldedIsCapped(pending: Option<StepStats>, call: StepStats)
    requires Counts(call) && (pending.Some? ==> Counts(pending.value))
    ensures var before := if pending.None? then NOTHING else pending.value;
      Folded(pending, call) == Capped(Plus(before, call), 0xFFFF_FFFF_FFFF_FFFF)
  {}

  lemma SafeIsCapped(pending: Option<StepStats>, call: StepStats)
    ensures var before := if pending.None? then NOTHING else pending.value;
      SafeStats(Folded(pending, call)) == Capped(Plus(before, call), 0x1F_FFFF_FFFF_FFFF)
  {}

  /** The figures of a result that was dealt with: taken with its step, or kept when it stored nothing. */
  ghost predicate TakesTheStep(config: Config, t: Turn, result: ChatResult, after: Turn, flow: Flow) {
    var noted := Noted(t.totals, result.usage, result.timed);
    if NothingWhole(config, result) then after.totals == noted else flow != Fail ==> after.totals == Recorded(noted)
  }

  lemma RecoveryTakesTheStep(config: Config, input: Input, t: Turn, result: ChatResult)
    requires result.finish == Length && Cut(config, result.toolCalls) != []
    ensures var (after, flow) := Recovered(config, input, t, result);
      if NothingWhole(config, result) then after.totals == t.totals
      else flow != Fail ==> after.totals == Recorded(t.totals)
  {
    WholeCallsAre(config, result, result.toolCalls);
    CutNamesAre(config, result, result.toolCalls);
    ToolsTakeTheStep(config, input, Corrected(config, t, result), result, Kept(config, result.toolCalls));
  }

  lemma ResultTakesTheStep(config: Config, input: Input, t: Turn, result: ChatResult)
    ensures var (after, flow) := AfterResult(config, input, t, result); TakesTheStep(config, t, result, after, flow)
  {
    var noted := t.(totals := Noted(t.totals, result.usage, result.timed));
    CutNamesAre(config, result, result.toolCalls);
    if result.finish == Length && Cut(config, result.toolCalls) != [] {
      RecoveryTakesTheStep(config, input, noted, result);
    } else if result.toolCalls != [] {
      ToolsTakeTheStep(config, input, noted, result, result.toolCalls);
    }
  }

  /**
   What a step's figures count: what its result reported, and before it whatever results stored nothing, each
   figure cut at the largest integer a reader of JSON keeps exact. A result that stores nothing is kept for the
   next step.
   */
  lemma AStepCountsItsResults(config: Config, input: Input, t: Turn)
    requires input.built && input.streamed.Result?
    ensures var result, (after, flow) := input.streamed.result, Iterated(config, input, t);
      var all := Plus(PendingOf(t.totals), Spent(result));
      if NothingWhole(config, result) then
        Counts(Spent(result)) && (t.totals.pending.Some? ==> Counts(t.totals.pending.value)) ==>
          after.totals.pending == Some(Capped(all, 0xFFFF_FFFF_FFFF_FFFF))
      else flow != Fail ==> after.totals.steps == t.totals.steps + [Capped(all, 0x1F_FFFF_FFFF_FFFF)]
  {
    var result := input.streamed.result;
    ResultTakesTheStep(config, input, Sent(input, t), result);
    SafeIsCapped(t.totals.pending, Spent(result));
    if Counts(Spent(result)) && (t.totals.pending.Some? ==> Counts(t.totals.pending.value)) {
      FoldedIsCapped(t.totals.pending, Spent(result));
    }
  }

  // ------------------------------------------------------------- why a turn ends, and on what

  /** The batch of an iteration was stopped, or its agent went. */
  ghost predicate ToolsStopped(config: Config, input: Input, result: ChatResult) {
    exists w :: var batch := BatchOf(config, input, w, WholeCalls(config, result, result.toolCalls));
      batch.Done? && (batch.batch.cancelled || batch.agentGone)
  }

  /** A delegation of the batch of an iteration failed. */
  ghost predicate ToolsLost(config: Config, input: Input, result: ChatResult) {
    exists w :: BatchOf(config, input, w, WholeCalls(config, result, result.toolCalls)).Failed?
  }

  /** History ends on the answer a result gave, with its step's figures. */
  ghost predicate EndsOnAnswer(t: Turn, result: ChatResult) {
    && t.store != [] && t.totals.steps != []
    && t.store[|t.store| - 1] == Assistant(result.content, [], Some(t.totals.steps[|t.totals.steps| - 1]))
  }

  /** Why an iteration ended the turn. */
  ghost predicate Ended(config: Config, input: Input, after: Turn) {
    && input.built && after.stop.Some?
    && match input.streamed
       case StreamAborted => after.stop.value == Aborted
       case StreamFailed => after.stop.value == Error
       case Result(result) =>
         || (after.stop.value == Aborted && result.toolCalls != [] && ToolsStopped(config, input, result))
         || (after.stop.value == Complete && result.toolCalls == [] && EndsOnAnswer(after, result))
  }

  /** Why an iteration lost the turn. */
  ghost predicate Lost(config: Config, input: Input) {
    !input.built || (input.streamed.Result? && (!input.written || ToolsLost(config, input, input.streamed.result)))
  }

  lemma WhyIterationEnds(config: Config, input: Input, t: Turn)
    ensures var (after, flow) := Iterated(config, input, t);
      && (flow == Halt ==> Ended(config, input, after))
      && (flow == Fail ==> Lost(config, input))
  {
    HowATurnGoesOn(config, input, t);
    ResultIsStored(config, input, t);
    if input.built && input.streamed.Result? {
      var result := input.streamed.result;
      WholeCallsAre(config, result, result.toolCalls);
      CutNamesAre(config, result, result.toolCalls);
      StorableCases(config, result);
    }
  }

  /** Why the loop stopped where it did: a cap, a stop seen between iterations, or its last iteration. */
  ghost predicate LoopEnded(config: Config, script: nat -> Input, after: Turn) {
    if after.stop.None? then after.iteration >= config.maxToolIterations
    else
      || (after.stop.value == Aborted && after.iteration < config.maxToolIterations
          && script(after.iteration).cancelled)
      || (after.stop.value == WallTimeout && after.iteration < config.maxToolIterations
          && !script(after.iteration).cancelled && script(after.iteration).timedOut)
      || (after.iteration > 0 && Ended(config, script(after.iteration - 1), after))
  }

  ghost predicate LoopLost(config: Config, script: nat -> Input, after: Turn) {
    || (after.iteration < config.maxToolIterations && script(after.iteration).appendFails.Some?)
    || (after.iteration > 0 && Lost(config, script(after.iteration - 1)))
  }

  /** No iteration begins once the turn is stopped or out of time. */
  ghost predicate NoneStopped(script: nat -> Input, from: nat, to: nat) {
    forall i: nat :: from <= i < to ==> !script(i).cancelled && !script(i).timedOut
  }

  lemma {:induction false} DrainFailsOnAppend(t: Turn, input: Input, k: nat)
    ensures !Drained(t, input, k).1 ==> input.appendFails.Some?
    decreases Left(input, k), |t.queue|
  {
    var now := BeforeLook(t, input, k);
    if now.queue != [] && input.appendFails != Some(k) {
      DrainFailsOnAppend(WriteSteer(now), input, k + 1);
    }
  }

  lemma WhyPassEnds(config: Config, input: Input, t: Turn)
    ensures var (after, flow) := Pass(config, input, t);
      && (flow == Halt ==> Ended(config, input, after))
      && (flow == Fail ==> if after.iteration == t.iteration then input.appendFails.Some? else Lost(config, input))
      && (flow == Continue ==> after.stop == t.stop)
  {
    DrainFailsOnAppend(t, input, 0);
    DrainCountsNothing(t, input, 0);
    var (drained, ok) := Drained(t, input, 0);
    if ok {
      var ready := drained.(iteration := drained.iteration + 1);
      WhyIterationEnds(config, input, ready);
      HowATurnGoesOn(config, input, ready);
      assert Pass(config, input, t) == Iterated(config, input, ready);
    }
  }

  lemma {:induction false} WhyLoopEnds(config: Config, script: nat -> Input, t: Turn)
    requires t.stop.None?
    ensures var (after, flow) := Looped(config, script, t);
      && flow != Continue && NoneStopped(script, t.iteration, after.iteration)
      && (flow == Halt ==> LoopEnded(config, script, after))
      && (flow == Fail ==> LoopLost(config, script, after))
    decreases config.maxToolIterations - t.iteration
  {
    var input := script(t.iteration);
    if t.iteration < config.maxToolIterations && !input.cancelled && !input.timedOut {
      var (after, flow) := Pass(config, input, t);
      PassCounts(config, input, t);
      WhyPassEnds(config, input, t);
      if flow == Continue {
        WhyLoopEnds(config, script, after);
      }
    }
  }

  /** The turn ended by a cap, and its history on the row that says so. */
  ghost predicate EndsOnLimit(before: Turn, after: Turn) {
    LimitRow(before, after) && after.stop in {Some(MaxIterations), Some(WallTimeout)}
  }

  /** How the turn's end follows from its loop's. */
  ghost predicate ClosedAs(looped: Turn, closing: Closing, after: Turn, flow: Flow) {
    && after.iteration == looped.iteration
    && after.stop == (if looped.stop.None? then Some(MaxIterations) else looped.stop)
    && var capped := after.stop in {Some(MaxIterations), Some(WallTimeout)};
       && flow == (if closing.listening && (capped ==> closing.written) then Halt else Fail)
       && (flow == Halt ==> if capped then LimitRow(looped, after) else after == looped)
  }

  lemma CloseIs(t: Turn, closing: Closing)
    ensures var (after, flow) := Closed(t, closing); ClosedAs(t, closing, after, flow)
  {
    if closing.listening && closing.written {
      LimitIsTallied(t.(stop := Some(if t.stop.None? then MaxIterations else t.stop.value)));
    }
  }

  /** How a turn ends, from how its loop did. */
  ghost predicate TurnEnded(config: Config, script: nat -> Input, closing: Closing, loop: (Turn, Flow),
        turn: (Turn, Flow)) {
    && NoneStopped(script, 0, turn.0.iteration)
    && if loop.1 == Fail then turn.1 == Fail && LoopLost(config, script, loop.0)
       else LoopEnded(config, script, loop.0) && ClosedAs(loop.0, closing, turn.0, turn.1)
  }

  /**
   Why a turn ends, and what its history ends on. No iteration begins once the turn was stopped or is out of
   time. A turn that answered ends on its answer; one that met a cap, of time or of iterations, on the row that
   says so; one that was stopped or failed adds nothing more. It is lost only where something failed, and always
   when nobody listens any more.
   */
  lemma WhyATurnEnds(config: Config, script: nat -> Input, t: Turn, closing: Closing)
    requires Opening(t)
    ensures TurnEnded(config, script, closing, Looped(config, script, t), RunTurn(config, script, t, closing))
  {
    var loop := Looped(config, script, t);
    WhyLoopEnds(config, script, t);
    CloseIs(loop.0, closing);
    assert RunTurn(config, script, t, closing) == if loop.1 == Fail then loop else Closed(loop.0, closing);
  }
}
