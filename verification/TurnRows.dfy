/**
 What an iteration of a turn stores, and how it goes on (crates/agent/src/agent_loop.rs): stated on the rows,
 the figures and the script, for every iteration, and then for whole turns.
 */
module TurnRows {
  import opened Common
  import opened Messages
  import opened Figures
  import opened TurnLoop
  import Dispatch
  import Steering

  // ------------------------------------------------------------- the calls of a result

  /** A completion that ended at the token limit may have stopped inside a call: then its arguments do not parse. */
  predicate IsCut(config: Config, result: ChatResult, call: ToolCall) {
    result.finish == Length && !config.complete(call)
  }

  function WholeCalls(config: Config, result: ChatResult, calls: seq<ToolCall>): seq<ToolCall> {
    if calls == [] then []
    else (if IsCut(config, result, calls[0]) then [] else [calls[0]]) + WholeCalls(config, result, calls[1..])
  }

  function CutNames(config: Config, result: ChatResult, calls: seq<ToolCall>): seq<string> {
    if calls == [] then []
    else (if IsCut(config, result, calls[0]) then [calls[0].name] else []) + CutNames(config, result, calls[1..])
  }

  lemma {:induction false} WholeCallsAre(config: Config, result: ChatResult, calls: seq<ToolCall>)
    ensures WholeCalls(config, result, calls) == if result.finish == Length then Kept(config, calls) else calls
  {
    if calls != [] {
      WholeCallsAre(config, result, calls[1..]);
      assert calls == [calls[0]] + calls[1..];
    }
  }

  lemma {:induction false} CutNamesAre(config: Config, result: ChatResult, calls: seq<ToolCall>)
    ensures CutNames(config, result, calls) == if result.finish == Length then Names(Cut(config, calls)) else []
  {
    if calls != [] {
      CutNamesAre(config, result, calls[1..]);
      var rest := Cut(config, calls[1..]);
      assert Names([calls[0]] + rest) == [calls[0].name] + Names(rest);
      assert Names([] + rest) == Names(rest);
    }
  }

  // ------------------------------------------------------------- what a result leaves in history

  function BatchOf(config: Config, input: Input, world: Dispatch.World, calls: seq<ToolCall>): Dispatch.Outcome {
    Dispatch.DispatchFrom(config.agent, input.tools, calls, 0, config.scope, Dispatch.Start(world, input.stopped))
  }

  /** One row for each call, in asked order, with its id and what it was answered with. */
  function ToolRows(calls: seq<ToolCall>, answers: seq<Dispatch.Answer>): (r: seq<ChatMessage>)
    requires |answers| == |calls|
    ensures |r| == |calls|
  {
    seq(|calls|, i requires 0 <= i < |calls| =>
      Tool(calls[i].id, calls[i].name, answers[i].execution.content, answers[i].execution.failure.Some?))
  }

  /** The figures of one more step, and nothing pending. */
  ghost predicate OneStepMore(before: Totals, after: Totals) {
    |after.steps| == |before.steps| + 1 && before.steps <= after.steps && after.pending.None?
  }

  /** History with an assistant row that carries the last step's figures, and the rows of its tools. */
  ghost predicate StoredStep(before: Turn, after: Turn, content: seq<ContentPart>, calls: seq<ToolCall>,
        tools: seq<ChatMessage>) {
    && OneStepMore(before.totals, after.totals)
    && after.store ==
        before.store + ([Assistant(content, calls, Some(after.totals.steps[|before.totals.steps|]))] + tools)
  }

  /** Nothing stored, and no step counted. */
  ghost predicate StoredNothing(before: Turn, after: Turn) {
    after.store == before.store && after.totals.steps == before.totals.steps
  }

  /** The turn with a result counted and not yet written. */
  ghost predicate Counted(before: Turn, t: Turn) {
    t.store == before.store && t.totals.steps == before.totals.steps && t.totals.pending.Some?
  }

  lemma WriteStores(before: Turn, t: Turn, content: seq<ContentPart>, calls: seq<ToolCall>, tools: seq<ChatMessage>,
        ok: bool)
    requires Counted(before, t)
    ensures var (after, flow) := StepWrite(t, [Assistant(content, calls, None)] + tools, ok);
      if ok then flow == Continue && StoredStep(before, after, content, calls, tools)
      else flow == Fail && StoredNothing(before, after) && after.totals.pending.None?
  {
    var rows := [Assistant(content, calls, None)] + tools;
    assert rows[1..] == tools;
  }

  /** How a batch of calls that was not lost is written. */
  ghost predicate BatchStored(before: Turn, after: Turn, result: ChatResult, calls: seq<ToolCall>,
        batch: Dispatch.Outcome) {
    batch.Done? && |batch.batch.answers| == |calls|
    && StoredStep(before, after, result.content, calls, ToolRows(calls, batch.batch.answers))
    && after.world == batch.batch.world
  }

  lemma ToolsStore(before: Turn, config: Config, input: Input, t: Turn, result: ChatResult, calls: seq<ToolCall>)
    requires Counted(before, t)
    ensures var (after, flow) := ToolsRun(config, input, t, result, calls);
      var batch := BatchOf(config, input, t.world, calls);
      if batch.Failed? then flow == Fail && StoredNothing(before, after)
      else if !input.written then flow == Fail && StoredNothing(before, after) && after.totals.pending.None?
      else
        && BatchStored(before, after, result, calls, batch)
        && flow == (if batch.batch.cancelled || batch.agentGone then Halt else Continue)
        && after.stop == (if batch.batch.cancelled || batch.agentGone then Some(Aborted) else t.stop)
  {
    var batch := BatchOf(config, input, t.world, calls);
    if batch.Done? {
      var rows := Dispatch.Rows(calls, batch.batch.answers, 0);
      assert rows == ToolRows(calls, batch.batch.answers);
      WriteStores(before, t.(world := batch.batch.world), result.content, calls, rows, input.written);
    }
  }

  /** A cut answer with no whole call and no text leaves nothing to store. */
  predicate NothingWhole(config: Config, result: ChatResult) {
    && CutNames(config, result, result.toolCalls) != [] && WholeCalls(config, result, result.toolCalls) == []
    && JoinText(result.content) == ""
  }

  /** What a result leaves: a row with its content, its whole calls and the step's figures, then its tools' rows. */
  ghost predicate ResultStored(config: Config, input: Input, before: Turn, result: ChatResult, after: Turn,
        flow: Flow) {
    var calls := WholeCalls(config, result, result.toolCalls);
    var batch := BatchOf(config, input, before.world, calls);
    if NothingWhole(config, result) then flow == Continue && StoredNothing(before, after)
    else if calls != [] && batch.Failed? then flow == Fail && StoredNothing(before, after)
    else if !input.written then flow == Fail && StoredNothing(before, after) && after.totals.pending.None?
    else if calls == [] then flow != Fail && StoredStep(before, after, result.content, [], [])
    else flow != Fail && BatchStored(before, after, result, calls, batch)
  }

  lemma AnswerStores(before: Turn, config: Config, input: Input, t: Turn, result: ChatResult)
    requires Counted(before, t)
    ensures var (after, flow) := Answered(config, input, t, result);
      if input.written then flow != Fail && StoredStep(before, after, result.content, [], [])
      else flow == Fail && StoredNothing(before, after) && after.totals.pending.None?
  {
    WriteStores(before, t, result.content, [], [], input.written);
    assert [AssistantRow(result, [])] + [] == [AssistantRow(result, [])];
  }

  lemma RecoveryStores(before: Turn, config: Config, input: Input, t: Turn, result: ChatResult)
    requires Counted(before, t) && t.world == before.world && result.finish == Length
    requires Cut(config, result.toolCalls) != []
    ensures var (after, flow) := Recovered(config, input, t, result);
      ResultStored(config, input, before, result, after, flow)
  {
    var corrected := Corrected(config, t, result);
    WholeCallsAre(config, result, result.toolCalls);
    CutNamesAre(config, result, result.toolCalls);
    var kept := Kept(config, result.toolCalls);
    if kept != [] {
      ToolsStore(before, config, input, corrected, result, kept);
    } else if JoinText(result.content) != "" {
      WriteStores(before, corrected, result.content, [], [], input.written);
      assert [AssistantRow(result, [])] + [] == [AssistantRow(result, [])];
    }
  }

  lemma AfterResultStores(before: Turn, config: Config, input: Input, t: Turn, result: ChatResult)
    requires t.store == before.store && t.totals.steps == before.totals.steps && t.world == before.world
    ensures var (after, flow) := AfterResult(config, input, t, result);
      ResultStored(config, input, before, result, after, flow)
  {
    var noted := t.(totals := Noted(t.totals, result.usage, result.timed));
    WholeCallsAre(config, result, result.toolCalls);
    CutNamesAre(config, result, result.toolCalls);
    if result.finish == Length && Cut(config, result.toolCalls) != [] {
      RecoveryStores(before, config, input, noted, result);
    } else {
      StorableCases(config, result);
      if result.toolCalls == [] {
        AnswerStores(before, config, input, noted, result);
      } else {
        ToolsStore(before, config, input, noted, result, result.toolCalls);
      }
    }
  }

  /**
   What an iteration stores. A result is stored with its content, the calls that were not cut and the figures of
   its step, followed by one row for each of those calls, in order; the one result that stores nothing was cut,
   with no call whole and no text. Nothing is stored of a request that failed or was stopped, or when the write
   fails, and figures are never left over.
   */
  lemma ResultIsStored(config: Config, input: Input, t: Turn)
    ensures var (after, flow) := Iterated(config, input, t);
      if input.built && input.streamed.Result?
      then ResultStored(config, input, t, input.streamed.result, after, flow)
      else StoredNothing(t, after)
  {
    if input.built && input.streamed.Result? {
      AfterResultStores(t, config, input, Sent(input, t), input.streamed.result);
    }
  }

  // ------------------------------------------------------------- how a turn goes on

  /** An answer that reads as a written-out call is corrected, once in a turn. */
  predicate IsCorrected(input: Input, before: Turn) {
    !before.correctedOnce && input.attempted
  }

  /** A steer is waiting, and there is an iteration left to answer it in. */
  predicate MustGoOn(config: Config, input: Input, before: Turn) {
    (before.queue != [] || input.composing != []) && before.iteration < config.maxToolIterations
  }

  /** What the next request has to say: which calls were cut, or that a call was written out. */
  function NextCorrection(config: Config, input: Input, before: Turn, result: ChatResult): Option<Correction> {
    var cut := CutNames(config, result, result.toolCalls);
    if cut != [] then Some(CutCalls(cut))
    else if result.toolCalls == [] && IsCorrected(input, before) then Some(TextCall)
    else None
  }

  /** How the turn goes on from a result that was dealt with. */
  ghost predicate GoesOn(config: Config, input: Input, before: Turn, result: ChatResult, after: Turn, flow: Flow) {
    var calls := WholeCalls(config, result, result.toolCalls);
    var batch := BatchOf(config, input, before.world, calls);
    && after.correction == NextCorrection(config, input, before, result)
    && after.correctedOnce == (before.correctedOnce || after.correction == Some(TextCall))
    && if calls != [] then
         if batch.Done? && (batch.batch.cancelled || batch.agentGone) then flow == Halt && after.stop == Some(Aborted)
         else flow == Continue && after.stop == before.stop
       else if after.correction != None || MustGoOn(config, input, before)
       then flow == Continue && after.stop == before.stop
       else flow == Halt && after.stop == Some(Complete)
  }

  lemma AnswerGoesOn(config: Config, input: Input, t: Turn, result: ChatResult)
    requires t.correction == None
    ensures var (after, flow) := Answered(config, input, t, result);
      flow != Fail ==>
        && after.correction == (if !t.correctedOnce && input.attempted then Some(TextCall) else None)
        && after.correctedOnce == (t.correctedOnce || after.correction == Some(TextCall))
        && (if after.correction != None || (t.queue != [] && t.iteration < config.maxToolIterations)
            then flow == Continue && after.stop == t.stop else flow == Halt && after.stop == Some(Complete))
  {}

  lemma ToolsGoOn(config: Config, input: Input, t: Turn, result: ChatResult, calls: seq<ToolCall>)
    ensures var (after, flow) := ToolsRun(config, input, t, result, calls);
      && after.correction == t.correction && after.correctedOnce == t.correctedOnce
      && (flow == Continue ==> after.stop == t.stop)
  {}

  lemma RecoveryGoesOn(before: Turn, config: Config, input: Input, t: Turn, result: ChatResult)
    requires result.finish == Length && Cut(config, result.toolCalls) != [] && t.correctedOnce == before.correctedOnce
    requires t.world == before.world && t.stop == before.stop && Counted(before, t)
    ensures var (after, flow) := Recovered(config, input, t, result);
      flow != Fail ==> GoesOn(config, input, before, result, after, flow)
  {
    var corrected := Corrected(config, t, result);
    var kept := Kept(config, result.toolCalls);
    WholeCallsAre(config, result, result.toolCalls);
    CutNamesAre(config, result, result.toolCalls);
    assert |Names(Cut(config, result.toolCalls))| > 0;
    if kept != [] {
      ToolsGoOn(config, input, corrected, result, kept);
      ToolsStore(before, config, input, corrected, result, kept);
    }
  }

  lemma AfterResultGoesOn(before: Turn, config: Config, input: Input, t: Turn, result: ChatResult)
    requires t.store == before.store && t.totals.steps == before.totals.steps && t.world == before.world
    requires t.stop == before.stop && t.correction == None && t.correctedOnce == before.correctedOnce
    requires t.queue == before.queue + input.composing && t.iteration == before.iteration
    ensures var (after, flow) := AfterResult(config, input, t, result);
      flow != Fail ==> GoesOn(config, input, before, result, after, flow)
  {
    var noted := t.(totals := Noted(t.totals, result.usage, result.timed));
    WholeCallsAre(config, result, result.toolCalls);
    CutNamesAre(config, result, result.toolCalls);
    if result.finish == Length && Cut(config, result.toolCalls) != [] {
      RecoveryGoesOn(before, config, input, noted, result);
    } else {
      StorableCases(config, result);
      if result.toolCalls == [] {
        AnswerGoesOn(config, input, noted, result);
      } else {
        ToolsGoOn(config, input, noted, result, result.toolCalls);
        ToolsStore(before, config, input, noted, result, result.toolCalls);
      }
    }
  }

  /**
   How a turn goes on. A request that was stopped ends it as aborted, one that failed as an error. An answer ends
   it as complete, unless it was cut, reads as a call and has not been corrected before, or a steer waits and an
   iteration is left; tools end it, as aborted, exactly when their batch was stopped or the agent is gone. What
   the next request has to correct is said in it, and nothing else is.
   */
  lemma HowATurnGoesOn(config: Config, input: Input, t: Turn)
    ensures var (after, flow) := Iterated(config, input, t);
      if !input.built then flow == Fail
      else match input.streamed
        case StreamAborted => flow == Halt && after.stop == Some(Aborted)
        case StreamFailed => flow == Halt && after.stop == Some(Error)
        case Result(result) => flow != Fail ==> GoesOn(config, input, t, result, after, flow)
    ensures input.built ==> t.log + [RequestBuilt(t.correction)] <= Iterated(config, input, t).0.log
  {
    if input.built && input.streamed.Result? {
      AfterResultGoesOn(t, config, input, Sent(input, t), input.streamed.result);
      LogIsKept(config, input, Sent(input, t), input.streamed.result);
    }
  }

  /** Nothing logged is taken back. */
  lemma LogIsKept(config: Config, input: Input, t: Turn, result: ChatResult)
    ensures t.log <= AfterResult(config, input, t, result).0.log
  {
    var noted := t.(totals := Noted(t.totals, result.usage, result.timed));
    if result.finish == Length && Cut(config, result.toolCalls) != [] {
      RecoveryKeepsLog(config, input, noted, result);
    } else if result.toolCalls != [] {
      ToolsKeepLog(config, input, noted, result, result.toolCalls);
    }
  }

  lemma RecoveryKeepsLog(config: Config, input: Input, t: Turn, result: ChatResult)
    ensures t.log <= Recovered(config, input, t, result).0.log
  {
    ToolsKeepLog(config, input, Corrected(config, t, result), result, Kept(config, result.toolCalls));
  }

  lemma ToolsKeepLog(config: Config, input: Input, t: Turn, result: ChatResult, calls: seq<ToolCall>)
    ensures t.log <= ToolsRun(config, input, t, result, calls).0.log
  {}
}
