/**
 One turn (crates/agent/src/agent_loop.rs): drain steering, build and send a request, then write
 its rows, until an answer stands or a cap is reached.

 Whatever the loop cannot decide is read from a script, one `Input` per iteration: stops, timeouts,
 arriving steers, failing appends, what the provider streams and what the tools do. Nothing is
 assumed of it.
 */
module TurnLoop {
  import opened Common
  import opened Messages
  import opened Figures
  import Steering
  import Dispatch
  import History

  datatype StopReason = Complete | Aborted | Error | MaxIterations | WallTimeout

  datatype FinishReason = Stop | ToolCalls | Length | ContentFilter

  /** `timed` when the provider reported a window to generate tokens in. */
  datatype ChatResult = ChatResult(
    content: seq<ContentPart>, toolCalls: seq<ToolCall>, finish: FinishReason, usage: Usage, timed: bool)

  datatype Streamed = StreamAborted | StreamFailed | Result(result: ChatResult)

  datatype Correction = CutCalls(names: seq<string>) | TextCall

  /**
   What one iteration meets. `arrivals[k]` is pushed just before the k-th look at the queue,
   `composing` while the request and its tools run; `appendFails` names the steer whose write fails.
   */
  datatype Input = Input(
    cancelled: bool, timedOut: bool,
    arrivals: seq<seq<Steering.SteeringMessage>>, appendFails: Option<nat>, composing: seq<Steering.SteeringMessage>,
    built: bool, streamed: Streamed, attempted: bool, stopped: bool, tools: Dispatch.Oracle, written: bool)

  /** `complete` says whether a call's arguments parse, or are empty. */
  datatype Config = Config(
    maxToolIterations: nat, complete: ToolCall -> bool, agent: Dispatch.Agent, scope: Option<Dispatch.Live>)

  datatype LogEvent = SteerWritten | RequestBuilt(correction: Option<Correction>) | StepWritten

  datatype Turn = Turn(
    iteration: nat, stop: Option<StopReason>, correction: Option<Correction>, correctedOnce: bool,
    totals: Totals, store: seq<ChatMessage>, world: Dispatch.World,
    queue: seq<Steering.SteeringMessage>, accepted: seq<Steering.SteeringMessage>,
    steered: seq<Steering.SteeringMessage>,
    log: seq<LogEvent>)

  /** What the loop does after an iteration: go round again, stop, or return the error. */
  datatype Flow = Continue | Halt | Fail

  // ------------------------------------------------------------- one iteration

  function Arrive(t: Turn, steers: seq<Steering.SteeringMessage>): Turn {
    t.(queue := t.queue + steers, accepted := t.accepted + steers)
  }

  /** Writes the oldest steer, then takes it off the queue. */
  function WriteSteer(t: Turn): Turn
    requires t.queue != []
  {
    t.(store := t.store + [Steering.SteerRow(t.queue[0])],
       queue := t.queue[1..],
       steered := t.steered + [t.queue[0]],
       log := t.log + [SteerWritten])
  }

  function BeforeLook(t: Turn, input: Input, k: nat): Turn {
    if k < |input.arrivals| then Arrive(t, input.arrivals[k]) else t
  }

  function Left(input: Input, k: nat): nat {
    if k < |input.arrivals| then |input.arrivals| - k else 0
  }

  /** Appends whatever was steered; `false` when a write failed, which leaves its steer queued. */
  function Drained(t: Turn, input: Input, k: nat): (Turn, bool)
    decreases Left(input, k), |t.queue|
  {
    var now := BeforeLook(t, input, k);
    if now.queue == [] then (now, true)
    else if input.appendFails == Some(k) then (now, false)
    else Drained(WriteSteer(now), input, k + 1)
  }

  function Stamped(rows: seq<ChatMessage>, figures: Option<StepStats>): (r: seq<ChatMessage>)
    ensures |r| == |rows|
  {
    if rows != [] && rows[0].Assistant? && figures.Some? then [rows[0].(stats := figures)] + rows[1..] else rows
  }

  /** One step's rows, appended in one transaction with the pending figures on the first. */
  function StepWrite(t: Turn, rows: seq<ChatMessage>, ok: bool): (r: (Turn, Flow))
    ensures r.0.iteration == t.iteration
  {
    if !ok then (t.(totals := t.totals.(pending := None)), Fail)
    else
      (t.(totals := Recorded(t.totals),
          store := t.store + Stamped(rows, StepTaken(t.totals.pending)),
          log := t.log + [StepWritten]), Continue)
  }

  function AssistantRow(result: ChatResult, toolCalls: seq<ToolCall>): ChatMessage {
    Assistant(result.content, toolCalls, None)
  }

  function Dispatched(config: Config, input: Input, calls: seq<ToolCall>, world: Dispatch.World): Dispatch.Outcome {
    Dispatch.DispatchFrom(config.agent, input.tools, calls, 0, config.scope, Dispatch.Start(world, input.stopped))
  }

  /** Appends what a batch of tools came to, and stops the turn if the batch was stopped. */
  function ToolsWritten(t: Turn, outcome: Dispatch.ToolCallOutcome, ok: bool): (r: (Turn, Flow))
    ensures r.0.iteration == t.iteration
  {
    match outcome
    case Lost => (t, Fail)
    case Ran(cancelled, gone, pending, world, _) =>
      var (after, flow) := StepWrite(t.(world := world), pending, ok);
      if flow == Fail then (after, Fail)
      else if cancelled || gone then (after.(stop := Some(Aborted)), Halt)
      else (after, Continue)
  }

  /** The model asked for tools. */
  function ToolsRun(config: Config, input: Input, t: Turn, result: ChatResult, calls: seq<ToolCall>): (r: (Turn, Flow))
    ensures r.0.iteration == t.iteration
  {
    ToolsWritten(t, Dispatch.Reported(AssistantRow(result, calls), Dispatched(config, input, calls, t.world)),
        input.written)
  }

  /** A result with no calls in it: written, corrected once, continued or complete. */
  function Answered(config: Config, input: Input, t: Turn, result: ChatResult): (r: (Turn, Flow))
    ensures r.0.iteration == t.iteration
  {
    var (after, flow) := StepWrite(t, [AssistantRow(result, [])], input.written);
    if flow == Fail then (after, Fail)
    else if !after.correctedOnce && input.attempted then
      (after.(correctedOnce := true, correction := Some(TextCall)), Continue)
    else if after.queue != [] && after.iteration < config.maxToolIterations then (after, Continue)
    else (after.(stop := Some(Complete)), Halt)
  }

  function Names(calls: seq<ToolCall>): (r: seq<string>)
    ensures |r| == |calls|
  {
    seq(|calls|, i requires 0 <= i < |calls| => calls[i].name)
  }

  function Kept(config: Config, calls: seq<ToolCall>): seq<ToolCall> {
    Filter(calls, config.complete)
  }

  function Cut(config: Config, calls: seq<ToolCall>): seq<ToolCall> {
    Filter(calls, call => !config.complete(call))
  }

  /** The completion stopped inside a call: the calls that parse run, the rest are asked for again. */
  function Recovered(config: Config, input: Input, t: Turn, result: ChatResult): (r: (Turn, Flow))
    ensures r.0.iteration == t.iteration
  {
    var kept := Kept(config, result.toolCalls);
    var corrected := t.(correction := Some(CutCalls(Names(Cut(config, result.toolCalls)))));
    if kept != [] then ToolsRun(config, input, corrected, result, kept)
    else if JoinText(result.content) != "" then StepWrite(corrected, [AssistantRow(result, [])], input.written)
    else (corrected, Continue)
  }

  function AfterResult(config: Config, input: Input, t: Turn, result: ChatResult): (r: (Turn, Flow))
    ensures r.0.iteration == t.iteration
  {
    var noted := t.(totals := Noted(t.totals, result.usage, result.timed));
    if result.finish == Length && Cut(config, result.toolCalls) != [] then Recovered(config, input, noted, result)
    else if result.toolCalls == [] then Answered(config, input, noted, result)
    else ToolsRun(config, input, noted, result, result.toolCalls)
  }

  /** An iteration of the loop's body: from the request to the flow it ends in. */
  function Iterated(config: Config, input: Input, t: Turn): (r: (Turn, Flow))
    ensures r.0.iteration == t.iteration
  {
    if !input.built then (t.(correction := None), Fail)
    else
      var sent := Arrive(t.(correction := None, log := t.log + [RequestBuilt(t.correction)]), input.composing);
      match input.streamed
      case StreamAborted => (sent.(stop := Some(Aborted)), Halt)
      case StreamFailed => (sent.(stop := Some(Error)), Halt)
      case Result(result) => AfterResult(config, input, sent, result)
  }

  // ------------------------------------------------------------- the whole turn

  /** One pass of the loop past its stop checks. */
  function Pass(config: Config, input: Input, t: Turn): (Turn, Flow) {
    var (drained, ok) := Drained(t, input, 0);
    if !ok then (drained, Fail) else Iterated(config, input, drained.(iteration := drained.iteration + 1))
  }

  /** The loop, from where `t` stands; `Fail` when an append, a build or a delegation failed the turn. */
  function Looped(config: Config, script: nat -> Input, t: Turn): (Turn, Flow)
    decreases config.maxToolIterations - t.iteration
  {
    if t.iteration >= config.maxToolIterations then (t, Halt)
    else
      var input := script(t.iteration);
      if input.cancelled then (t.(stop := Some(Aborted)), Halt)
      else if input.timedOut then (t.(stop := Some(WallTimeout)), Halt)
      else
        var (after, flow) := Pass(config, input, t);
        PassCounts(config, input, t);
        if flow == Continue then Looped(config, script, after) else (after, flow)
  }

  lemma PassCounts(config: Config, input: Input, t: Turn)
    ensures var (after, flow) := Pass(config, input, t);
      t.iteration <= after.iteration <= t.iteration + 1 && (flow != Fail ==> after.iteration == t.iteration + 1)
  {
    DrainKeepsCount(t, input, 0);
  }

  lemma {:induction false} DrainKeepsCount(t: Turn, input: Input, k: nat)
    ensures Drained(t, input, k).0.iteration == t.iteration
    decreases Left(input, k), |t.queue|
  {
    var now := BeforeLook(t, input, k);
    if now.queue != [] && input.appendFails != Some(k) {
      DrainKeepsCount(WriteSteer(now), input, k + 1);
    }
  }

  const LIMIT_TEXT := "I stopped before finishing."

  /** How the end finds things: whether anyone still listens to the turn, and whether its last row can be written. */
  datatype Closing = Closing(listening: bool, written: bool)

  /** A turn ended by a cap says so in history, unless nobody listens any more: then it is lost. */
  function Closed(t: Turn, closing: Closing): (Turn, Flow) {
    var reason := if t.stop.None? then MaxIterations else t.stop.value;
    var ended := t.(stop := Some(reason));
    if !closing.listening then (ended, Fail)
    else if reason == MaxIterations || reason == WallTimeout then
      var (after, flow) := StepWrite(ended, [Assistant([Text(LIMIT_TEXT)], [], None)], closing.written);
      (after, if flow == Fail then Fail else Halt)
    else (ended, Halt)
  }

  /** A whole turn, from the opening row on. `Halt` is a turn that ended, `Fail` one that was lost. */
  function RunTurn(config: Config, script: nat -> Input, t: Turn, closing: Closing): (Turn, Flow) {
    var (after, flow) := Looped(config, script, t);
    if flow == Fail then (after, Fail) else Closed(after, closing)
  }

  // ------------------------------------------------------------- what an iteration appends

  /** An assistant row and exactly its tool rows. */
  ghost predicate StepRows(rows: seq<ChatMessage>, calls: seq<ToolCall>) {
    rows != [] && rows[0].Assistant? && rows[0].toolCalls == calls && History.Answers(rows[1..], calls)
  }

  /** The calls of a result that may be stored: a completion cut at the token limit keeps those that parse. */
  function Storable(config: Config, result: ChatResult): seq<ToolCall> {
    if result.finish == Length then Kept(config, result.toolCalls) else result.toolCalls
  }

  ghost predicate AppendsOneStep(before: Turn, after: Turn, calls: seq<ToolCall>) {
    before.store <= after.store &&
    (after.store == before.store || StepRows(after.store[|before.store|..], calls))
  }

  lemma {:induction false} FilterAll(calls: seq<ToolCall>, keep: ToolCall -> bool)
    requires forall call :: call in calls ==> keep(call)
    ensures Filter(calls, keep) == calls
  {
    if calls != [] {
      FilterAll(calls[1..], keep);
    }
  }

  /** Nothing in, nothing kept. */
  lemma StorableCases(config: Config, result: ChatResult)
    ensures result.toolCalls == [] ==> Storable(config, result) == []
    ensures Cut(config, result.toolCalls) == [] ==> Storable(config, result) == result.toolCalls
  {
    if Cut(config, result.toolCalls) == [] {
      forall call | call in result.toolCalls ensures config.complete(call) {
        assert call !in Cut(config, result.toolCalls);
      }
      FilterAll(result.toolCalls, config.complete);
    }
  }

  lemma StepWriteAppends(t: Turn, rows: seq<ChatMessage>, ok: bool, calls: seq<ToolCall>)
    requires StepRows(rows, calls)
    ensures AppendsOneStep(t, StepWrite(t, rows, ok).0, calls)
  {
    var stamped := Stamped(rows, StepTaken(t.totals.pending));
    assert stamped[1..] == rows[1..];
    if ok {
      assert (t.store + stamped)[|t.store|..] == stamped;
    }
  }

  lemma ToolsRunAppends(config: Config, input: Input, t: Turn, result: ChatResult, calls: seq<ToolCall>)
    ensures AppendsOneStep(t, ToolsRun(config, input, t, result, calls).0, calls)
  {
    var outcome := Dispatched(config, input, calls, t.world);
    if outcome.Done? {
      var pending := [AssistantRow(result, calls)] + Dispatch.Rows(calls, outcome.batch.answers, 0);
      forall i | 0 <= i < |calls|
        ensures pending[1..][i].Tool? && pending[1..][i].callId == calls[i].id && pending[1..][i].name == calls[i].name
      {
        Dispatch.RowsAnswerTheirCalls(calls, outcome.batch.answers, i);
      }
      StepWriteAppends(t.(world := outcome.batch.world), pending, input.written, calls);
    }
  }

  /**
   What one iteration adds to history: nothing when the request was aborted or failed, and otherwise
   at most one assistant row with exactly the tool rows of its calls, none of them a call cut short.
   */
  lemma IterationAppends(config: Config, input: Input, t: Turn)
    ensures var after := Iterated(config, input, t).0;
      match input.streamed
      case Result(result) => AppendsOneStep(t, after, Storable(config, result))
      case _ => after.store == t.store
  {
    if input.built && input.streamed.Result? {
      var result := input.streamed.result;
      StorableCases(config, result);
      var sent := Arrive(t.(correction := None, log := t.log + [RequestBuilt(t.correction)]), input.composing);
      var noted := sent.(totals := Noted(sent.totals, result.usage, result.timed));
      StepWriteAppends(noted, [AssistantRow(result, [])], input.written, []);
      ToolsRunAppends(config, input, noted, result, result.toolCalls);
      if result.finish == Length && Cut(config, result.toolCalls) != [] {
        RecoveredAppends(config, input, noted, result);
      }
    }
  }

  lemma RecoveredAppends(config: Config, input: Input, t: Turn, result: ChatResult)
    ensures AppendsOneStep(t, Recovered(config, input, t, result).0, Kept(config, result.toolCalls))
  {
    var kept := Kept(config, result.toolCalls);
    var corrected := t.(correction := Some(CutCalls(Names(Cut(config, result.toolCalls)))));
    ToolsRunAppends(config, input, corrected, result, kept);
    StepWriteAppends(corrected, [AssistantRow(result, [])], input.written, []);
  }

  // ------------------------------------------------------------- what every turn keeps

  function Requests(log: seq<LogEvent>): nat {
    if log == [] then 0
    else Requests(log[..|log| - 1]) + (if log[|log| - 1].RequestBuilt? then 1 else 0)
  }

  function TextCorrections(log: seq<LogEvent>): nat {
    if log == [] then 0
    else TextCorrections(log[..|log| - 1]) + (if log[|log| - 1] == RequestBuilt(Some(TextCall)) then 1 else 0)
  }

  /** Every steer written, but for the last event, is followed by another steer or by a request. */
  ghost predicate SteersLeadToRequests(log: seq<LogEvent>) {
    forall i :: 0 <= i < |log| - 1 && log[i].SteerWritten? ==> !log[i + 1].StepWritten?
  }

  ghost predicate EndsOnSteer(log: seq<LogEvent>) {
    log != [] && log[|log| - 1].SteerWritten?
  }

  /** The corrections of written-out calls: at most one, said at most once. */
  ghost predicate OneTextCorrection(t: Turn) {
    TextCorrections(t.log) + (if t.correction == Some(TextCall) then 1 else 0) <= (if t.correctedOnce then 1 else 0)
  }

  ghost predicate Steady(t: Turn) {
    && t.accepted == t.steered + t.queue
    && AddsUp(t.totals)
    && SteersLeadToRequests(t.log)
    && Requests(t.log) <= t.iteration
    && OneTextCorrection(t)
  }

  ghost predicate Sound(t: Turn) {
    History.Answered(t.store) && Steady(t)
  }

  lemma LogGrows(log: seq<LogEvent>, event: LogEvent)
    ensures Requests(log + [event]) == Requests(log) + (if event.RequestBuilt? then 1 else 0)
    ensures TextCorrections(log + [event]) ==
        TextCorrections(log) + (if event == RequestBuilt(Some(TextCall)) then 1 else 0)
    ensures SteersLeadToRequests(log) && (event.StepWritten? ==> !EndsOnSteer(log)) ==>
      SteersLeadToRequests(log + [event])
  {
    assert (log + [event])[..|log|] == log;
  }

  lemma StepRowsAreAnswered(store: seq<ChatMessage>, after: seq<ChatMessage>, calls: seq<ToolCall>)
    requires History.Answered(store) && store <= after
    requires after == store || StepRows(after[|store|..], calls)
    ensures History.Answered(after)
  {
    if after != store {
      OneStepIsAnswered(after[|store|..], calls);
      History.AnsweredConcat(store, after[|store|..]);
      assert after == store + after[|store|..];
    }
  }

  lemma OneStepIsAnswered(rows: seq<ChatMessage>, calls: seq<ToolCall>)
    requires StepRows(rows, calls)
    ensures History.Answered(rows)
  {
    assert rows[1..1 + |calls|] == rows[1..];
    assert rows[1 + |calls|..] == [];
  }

  lemma WriteSteerStays(t: Turn)
    requires History.Answered(t.store) && t.queue != []
    ensures History.Answered(WriteSteer(t).store)
  {
    var row := Steering.SteerRow(t.queue[0]);
    assert [row][1..] == [];
    assert History.Answered([row]);
    History.AnsweredConcat(t.store, [row]);
  }

  lemma WriteSteerSteady(t: Turn)
    requires Steady(t) && t.queue != []
    ensures Steady(WriteSteer(t))
  {
    LogGrows(t.log, SteerWritten);
    assert t.queue == [t.queue[0]] + t.queue[1..];
  }

  /** A drain leaves no steer behind unless a write failed, and touches no figure. */
  lemma {:induction false} DrainKeeps(t: Turn, input: Input, k: nat)
    requires Sound(t)
    ensures var (after, ok) := Drained(t, input, k);
      && Sound(after)
      && (ok ==> after.queue == [])
      && after.totals == t.totals && after.stop == t.stop
    decreases Left(input, k), |t.queue|
  {
    var now := BeforeLook(t, input, k);
    assert Sound(now) by {
      if k < |input.arrivals| {
        assert t.steered + (t.queue + input.arrivals[k]) == t.accepted + input.arrivals[k];
      }
    }
    if now.queue != [] && input.appendFails != Some(k) {
      WriteSteerStays(now);
      WriteSteerSteady(now);
      DrainKeeps(WriteSteer(now), input, k + 1);
    }
  }

  function SteerRows(steers: seq<Steering.SteeringMessage>): (r: seq<ChatMessage>)
    ensures |r| == |steers|
  {
    seq(|steers|, i requires 0 <= i < |steers| => Steering.SteerRow(steers[i]))
  }

  /** What a drain appends to history is exactly the steers it took, in their order. */
  lemma SteerRowsFrom(before: seq<Steering.SteeringMessage>, next: Steering.SteeringMessage,
        after: seq<Steering.SteeringMessage>)
    requires before + [next] <= after
    ensures SteerRows(after[|before|..]) == [Steering.SteerRow(next)] + SteerRows(after[|before| + 1..])
  {
    assert after[|before|..] == [next] + after[|before| + 1..];
  }

  lemma {:induction false} DrainAppendsWhatItTakes(t: Turn, input: Input, k: nat)
    ensures var after := Drained(t, input, k).0;
      t.steered <= after.steered && after.store == t.store + SteerRows(after.steered[|t.steered|..])
    decreases Left(input, k), |t.queue|
  {
    var now := BeforeLook(t, input, k);
    if now.queue != [] && input.appendFails != Some(k) {
      var wrote := WriteSteer(now);
      DrainAppendsWhatItTakes(wrote, input, k + 1);
      var after := Drained(wrote, input, k + 1).0;
      SteerRowsFrom(t.steered, now.queue[0], after.steered);
    } else {
      assert SteerRows(t.steered[|t.steered|..]) == [];
    }
  }

  /** What a turn that stopped owes: a complete one leaves no figures behind and no steer it could have answered. */
  ghost predicate StopIsHonest(config: Config, t: Turn) {
    t.stop == Some(Complete) ==>
      t.totals.pending.None? && (t.queue == [] || t.iteration >= config.maxToolIterations)
  }

  /** How an iteration leaves the turn. */
  ghost predicate InOrder(config: Config, after: Turn, flow: Flow) {
    && (flow != Fail ==> Steady(after) && !EndsOnSteer(after.log))
    && after.accepted == after.steered + after.queue
    && Requests(after.log) <= after.iteration
    && (flow == Halt ==>
          after.stop.Some? && after.stop.value !in {MaxIterations, WallTimeout} && StopIsHonest(config, after))
  }

  /** What one iteration keeps, however it went. */
  ghost predicate Settled(config: Config, before: Turn, r: (Turn, Flow)) {
    && InOrder(config, r.0, r.1)
    && r.0.iteration == before.iteration
    && (r.1 == Continue ==> r.0.stop == before.stop)
  }

  /** A turn between its drain and its write. */
  ghost predicate Composing(t: Turn) {
    Steady(t) && !EndsOnSteer(t.log)
  }

  lemma StepWriteKeeps(config: Config, t: Turn, rows: seq<ChatMessage>, ok: bool)
    requires Composing(t)
    ensures Settled(config, t, StepWrite(t, rows, ok))
    ensures var (after, flow) := StepWrite(t, rows, ok);
      flow == Continue ==>
        after.totals.pending.None? && after.queue == t.queue && after.correctedOnce == t.correctedOnce
                           && after.correction == t.correction
  {
    LogGrows(t.log, StepWritten);
    RecordedAddsUp(t.totals);
  }

  lemma ToolsWrittenKeeps(config: Config, t: Turn, outcome: Dispatch.ToolCallOutcome, ok: bool)
    requires Composing(t)
    ensures Settled(config, t, ToolsWritten(t, outcome, ok))
  {
    if outcome.Ran? {
      StepWriteKeeps(config, t.(world := outcome.world), outcome.pending, ok);
    }
  }

  lemma ToolsRunKeeps(config: Config, input: Input, t: Turn, result: ChatResult, calls: seq<ToolCall>)
    requires Composing(t)
    ensures Settled(config, t, ToolsRun(config, input, t, result, calls))
  {
    ToolsWrittenKeeps(config, t,
      Dispatch.Reported(AssistantRow(result, calls), Dispatched(config, input, calls, t.world)), input.written);
  }

  lemma AnsweredKeeps(config: Config, input: Input, t: Turn, result: ChatResult)
    requires Composing(t) && t.correction == None
    ensures Settled(config, t, Answered(config, input, t, result))
  {
    StepWriteKeeps(config, t, [AssistantRow(result, [])], input.written);
  }

  /** What a correction of cut calls starts from: nothing but the correction differs. */
  function Corrected(config: Config, t: Turn, result: ChatResult): Turn {
    t.(correction := Some(CutCalls(Names(Cut(config, result.toolCalls)))))
  }

  lemma CorrectedIsComposing(config: Config, t: Turn, result: ChatResult)
    requires Composing(t) && t.correction == None
    ensures Composing(Corrected(config, t, result))
  {}

  lemma SettledFrom(config: Config, before: Turn, from: Turn, r: (Turn, Flow))
    requires Settled(config, from, r) && from.iteration == before.iteration && from.stop == before.stop
    ensures Settled(config, before, r)
  {}

  lemma RecoveredKeeps(config: Config, input: Input, t: Turn, result: ChatResult)
    requires Composing(t) && t.correction == None
    ensures Settled(config, t, Recovered(config, input, t, result))
  {
    var corrected := Corrected(config, t, result);
    var kept := Kept(config, result.toolCalls);
    CorrectedIsComposing(config, t, result);
    if kept != [] {
      ToolsRunKeeps(config, input, corrected, result, kept);
      SettledFrom(config, t, corrected, ToolsRun(config, input, corrected, result, kept));
      assert Recovered(config, input, t, result) == ToolsRun(config, input, corrected, result, kept);
    } else if JoinText(result.content) != "" {
      StepWriteKeeps(config, corrected, [AssistantRow(result, [])], input.written);
      SettledFrom(config, t, corrected, StepWrite(corrected, [AssistantRow(result, [])], input.written));
      assert Recovered(config, input, t, result) == StepWrite(corrected, [AssistantRow(result, [])], input.written);
    } else {
      assert Recovered(config, input, t, result) == (corrected, Continue);
    }
  }

  lemma NotedIsComposing(t: Turn, result: ChatResult)
    requires Composing(t)
    ensures Composing(t.(totals := Noted(t.totals, result.usage, result.timed)))
  {
    NotedAddsUp(t.totals, result.usage, result.timed);
  }

  lemma AfterResultKeeps(config: Config, input: Input, t: Turn, result: ChatResult)
    requires Composing(t) && t.correction == None
    ensures Settled(config, t, AfterResult(config, input, t, result))
  {
    NotedIsComposing(t, result);
    var noted := t.(totals := Noted(t.totals, result.usage, result.timed));
    if result.finish == Length && Cut(config, result.toolCalls) != [] {
      RecoveredKeeps(config, input, noted, result);
      assert AfterResult(config, input, t, result) == Recovered(config, input, noted, result);
    } else if result.toolCalls == [] {
      AnsweredKeeps(config, input, noted, result);
      assert AfterResult(config, input, t, result) == Answered(config, input, noted, result);
    } else {
      ToolsRunKeeps(config, input, noted, result, result.toolCalls);
      assert AfterResult(config, input, t, result) == ToolsRun(config, input, noted, result, result.toolCalls);
    }
    SettledFrom(config, t, noted, AfterResult(config, input, t, result));
  }

  /** The turn once its request is out: the correction is spent, and what was typed meanwhile waits. */
  function Sent(input: Input, t: Turn): Turn {
    Arrive(t.(correction := None, log := t.log + [RequestBuilt(t.correction)]), input.composing)
  }

  lemma SentIsComposing(input: Input, t: Turn)
    requires Steady(t) && Requests(t.log) < t.iteration
    ensures Composing(Sent(input, t))
  {
    LogGrows(t.log, RequestBuilt(t.correction));
    assert t.steered + (t.queue + input.composing) == t.accepted + input.composing;
  }

  lemma IterationKeeps(config: Config, input: Input, t: Turn)
    requires Steady(t) && Requests(t.log) < t.iteration
    ensures Settled(config, t, Iterated(config, input, t))
  {
    if input.built {
      var sent := Sent(input, t);
      SentIsComposing(input, t);
      if input.streamed.Result? {
        AfterResultKeeps(config, input, sent, input.streamed.result);
        SettledFrom(config, t, sent, AfterResult(config, input, sent, input.streamed.result));
        assert Iterated(config, input, t) == AfterResult(config, input, sent, input.streamed.result);
      }
    }
  }

  // ------------------------------------------------------------- what every turn satisfies

  /** How a turn can end: lost, or halted with everything in order. */
  ghost predicate Outcome(config: Config, after: Turn, flow: Flow) {
    && History.Answered(after.store)
    && after.accepted == after.steered + after.queue
    && Requests(after.log) <= after.iteration <= config.maxToolIterations
    && (flow != Fail ==> Steady(after) && StopIsHonest(config, after))
    && flow != Continue
  }

  /** What one pass of the loop leaves. */
  ghost predicate Passed(config: Config, r: (Turn, Flow)) {
    History.Answered(r.0.store) && InOrder(config, r.0, r.1) && (r.1 == Continue ==> r.0.stop.None?)
  }

  lemma NextIterationKeeps(config: Config, input: Input, t: Turn)
    requires Sound(t) && t.stop.None?
    ensures Passed(config, Iterated(config, input, t.(iteration := t.iteration + 1)))
  {
    var ready := t.(iteration := t.iteration + 1);
    assert Steady(ready) && Requests(ready.log) < ready.iteration;
    IterationKeeps(config, input, ready);
    IterationStaysAnswered(config, input, ready);
  }

  lemma LostIsPassed(config: Config, t: Turn)
    requires Sound(t)
    ensures Passed(config, (t, Fail))
  {}

  lemma PassKeeps(config: Config, input: Input, t: Turn)
    requires Sound(t) && t.stop.None?
    ensures Passed(config, Pass(config, input, t))
  {
    DrainKeeps(t, input, 0);
    var (drained, ok) := Drained(t, input, 0);
    if ok {
      NextIterationKeeps(config, input, drained);
      assert Pass(config, input, t) == Iterated(config, input, drained.(iteration := drained.iteration + 1));
    } else {
      LostIsPassed(config, drained);
      assert Pass(config, input, t) == (drained, Fail);
    }
  }

  lemma {:induction false} LoopKeeps(config: Config, script: nat -> Input, t: Turn)
    requires Sound(t) && t.iteration <= config.maxToolIterations && t.stop.None? && !EndsOnSteer(t.log)
    ensures var (after, flow) := Looped(config, script, t);
      && Outcome(config, after, flow)
      && (flow == Halt ==> !EndsOnSteer(after.log) && after.stop != Some(MaxIterations))
    decreases config.maxToolIterations - t.iteration
  {
    if t.iteration < config.maxToolIterations {
      var input := script(t.iteration);
      if !input.cancelled && !input.timedOut {
        PassCounts(config, input, t);
        PassKeeps(config, input, t);
        var (after, flow) := Pass(config, input, t);
        if flow == Continue {
          LoopKeeps(config, script, after);
        }
      }
    }
  }

  lemma IterationStaysAnswered(config: Config, input: Input, t: Turn)
    requires History.Answered(t.store)
    ensures History.Answered(Iterated(config, input, t).0.store)
  {
    IterationAppends(config, input, t);
    var after := Iterated(config, input, t).0;
    if input.streamed.Result? {
      StepRowsAreAnswered(t.store, after.store, Storable(config, input.streamed.result));
    }
  }

  lemma CloseKeeps(config: Config, t: Turn, closing: Closing)
    requires Outcome(config, t, Halt) && !EndsOnSteer(t.log) && t.stop != Some(MaxIterations)
    ensures var (after, flow) := Closed(t, closing);
      && Outcome(config, after, flow)
      && (flow == Halt ==>
            && !EndsOnSteer(after.log) && after.stop.Some?
            && (after.stop.value in {Complete, MaxIterations, WallTimeout} ==> after.totals.pending.None?))
  {
    var reason := if t.stop.None? then MaxIterations else t.stop.value;
    var ended := t.(stop := Some(reason));
    if closing.listening && (reason == MaxIterations || reason == WallTimeout) {
      var rows := [Assistant([Text(LIMIT_TEXT)], [], None)];
      StepWriteKeeps(config, ended, rows, closing.written);
      StepWriteAppends(ended, rows, closing.written, []);
      StepRowsAreAnswered(ended.store, StepWrite(ended, rows, closing.written).0.store, []);
    }
  }

  /** A turn about to run: its opening row is stored, nothing is counted and nothing is owed. */
  ghost predicate Opening(t: Turn) {
    && History.Answered(t.store) && t.accepted == t.steered + t.queue && t.totals == NO_FIGURES
    && t.stop.None? && t.correction.None? && !t.correctedOnce && t.iteration == 0 && t.log == []
  }

  /**
   Every turn, for every script. History stays answerable even when the turn is lost: each assistant
   row with calls is followed at once by exactly its tool rows, so nothing is orphaned or unanswered.
   No more requests are sent than the cap allows. Each accepted steer is written once or still queued,
   in order, and one that is written leads to a request. At most one written-out call is corrected.
   A turn that halts adds up below the wire's clamp, and one that completes, or meets a cap, leaves no
   figures behind; it completes only with no steer waiting, or with no iteration left to answer it.
   */
  lemma EveryTurn(config: Config, script: nat -> Input, t: Turn, closing: Closing)
    requires Opening(t)
    ensures var (after, flow) := RunTurn(config, script, t, closing);
      && History.Answered(after.store)
      && !History.HasOrphan(after.store, {}) && History.Unanswered(after.store, {}) == {}
      && Requests(after.log) <= after.iteration <= config.maxToolIterations
      && after.accepted == after.steered + after.queue
      && (flow == Halt ==>
            && SteersLeadToRequests(after.log) && !EndsOnSteer(after.log)
            && TextCorrections(after.log) <= 1
            && AddsUp(after.totals)
            && after.stop.Some?
            && (after.stop.value in {Complete, MaxIterations, WallTimeout} ==> after.totals.pending.None?)
            && (after.stop.value == Complete ==> after.queue == [] || after.iteration == config.maxToolIterations))
  {
    LoopKeeps(config, script, t);
    var (looped, flow) := Looped(config, script, t);
    if flow != Fail {
      CloseKeeps(config, looped, closing);
    }
    History.AnsweredIsLegal(RunTurn(config, script, t, closing).0.store, {}, {});
  }

  // ------------------------------------------------------------- the turn is its lane's one reader

  function Pushes(steers: seq<Steering.SteeringMessage>): (r: seq<Steering.Event>)
    ensures |r| == |steers|
  {
    seq(|steers|, i requires 0 <= i < |steers| => Steering.Push(steers[i]))
  }

  /** What a drain and those who type meanwhile do to the session's lane. */
  function DrainEvents(t: Turn, input: Input, k: nat): seq<Steering.Event>
    decreases Left(input, k), |t.queue|
  {
    var now := BeforeLook(t, input, k);
    var typed := if k < |input.arrivals| then Pushes(input.arrivals[k]) else [];
    if now.queue == [] then typed + [Steering.Peek]
    else if input.appendFails == Some(k) then typed + [Steering.Peek, Steering.Append(false)]
    else typed + ([Steering.Peek, Steering.Append(true), Steering.Pop] + DrainEvents(WriteSteer(now), input, k + 1))
  }

  function LoopEvents(config: Config, script: nat -> Input, t: Turn): seq<Steering.Event>
    decreases config.maxToolIterations - t.iteration
  {
    if t.iteration >= config.maxToolIterations || script(t.iteration).cancelled || script(t.iteration).timedOut then []
    else
      var input := script(t.iteration);
      var (after, flow) := Pass(config, input, t);
      PassCounts(config, input, t);
      PassEvents(input, t) + if flow == Continue then LoopEvents(config, script, after) else []
  }

  function PassEvents(input: Input, t: Turn): seq<Steering.Event> {
    DrainEvents(t, input, 0) + if Drained(t, input, 0).1 && input.built then Pushes(input.composing) else []
  }

  /** The lane and the turn agree: what was accepted, what was written, what waits, and nothing half read. */
  ghost predicate Carries(lane: Steering.Lane, t: Turn) {
    && lane.open && lane.reader == Steering.Idle
    && lane.queue == t.queue && lane.accepted == t.accepted && Steering.MessagesOf(lane.settled) == t.steered
  }

  lemma {:induction false} PushesArrive(lane: Steering.Lane, steers: seq<Steering.SteeringMessage>)
    requires lane.open
    ensures Steering.After(lane, Pushes(steers)) ==
        lane.(queue := lane.queue + steers, accepted := lane.accepted + steers)
    ensures Steering.EachInTime(lane, Pushes(steers))
    decreases |steers|
  {
    if steers == [] {
      assert lane.queue + [] == lane.queue && lane.accepted + [] == lane.accepted;
    } else {
      var next := Steering.Step(lane, Steering.Push(steers[0]));
      PushesArrive(next, steers[1..]);
      assert Pushes(steers)[1..] == Pushes(steers[1..]);
      assert lane.queue + [steers[0]] + steers[1..] == lane.queue + steers;
      assert lane.accepted + [steers[0]] + steers[1..] == lane.accepted + steers;
    }
  }

  lemma TypedIsCarried(lane: Steering.Lane, t: Turn, input: Input, k: nat)
    requires Carries(lane, t)
    ensures var typed := if k < |input.arrivals| then Pushes(input.arrivals[k]) else [];
      Carries(Steering.After(lane, typed), BeforeLook(t, input, k)) && Steering.EachInTime(lane, typed)
  {
    if k < |input.arrivals| {
      PushesArrive(lane, input.arrivals[k]);
    }
  }

  /** One steer peeked, written and popped. */
  lemma WriteIsCarried(lane: Steering.Lane, t: Turn)
    requires Carries(lane, t) && t.queue != []
    ensures var written := [Steering.Peek, Steering.Append(true), Steering.Pop];
      Carries(Steering.After(lane, written), WriteSteer(t)) && Steering.EachInTime(lane, written)
  {
    var peeked := Steering.Step(lane, Steering.Peek);
    var wrote := Steering.Step(peeked, Steering.Append(true));
    assert Steering.MessagesOf(wrote.settled) == t.steered + [t.queue[0]];
    assert [Steering.Peek, Steering.Append(true), Steering.Pop][1..] == [Steering.Append(true), Steering.Pop];
    assert [Steering.Append(true), Steering.Pop][1..] == [Steering.Pop] && [Steering.Pop][1..] == [];
  }

  lemma LookIsCarried(lane: Steering.Lane, t: Turn)
    requires Carries(lane, t)
    ensures t.queue == [] ==>
        Steering.After(lane, [Steering.Peek]) == lane && Steering.EachInTime(lane, [Steering.Peek])
    ensures var failed := [Steering.Peek, Steering.Append(false)];
      t.queue != [] ==> Steering.After(lane, failed) == lane && Steering.EachInTime(lane, failed)
  {
    assert [Steering.Peek][1..] == [] && [Steering.Append(false)][1..] == [];
    assert [Steering.Peek, Steering.Append(false)][1..] == [Steering.Append(false)];
  }

  lemma {:induction false} DrainIsCarried(lane: Steering.Lane, t: Turn, input: Input, k: nat)
    requires Carries(lane, t)
    ensures var events := DrainEvents(t, input, k);
      Carries(Steering.After(lane, events), Drained(t, input, k).0) && Steering.EachInTime(lane, events)
    decreases Left(input, k), |t.queue|
  {
    var now := BeforeLook(t, input, k);
    var typed := if k < |input.arrivals| then Pushes(input.arrivals[k]) else [];
    TypedIsCarried(lane, t, input, k);
    var met := Steering.After(lane, typed);
    LookIsCarried(met, now);
    if now.queue == [] {
      Steering.AfterConcat(lane, typed, [Steering.Peek]);
    } else if input.appendFails == Some(k) {
      Steering.AfterConcat(lane, typed, [Steering.Peek, Steering.Append(false)]);
    } else {
      var written := [Steering.Peek, Steering.Append(true), Steering.Pop];
      var rest := DrainEvents(WriteSteer(now), input, k + 1);
      WriteIsCarried(met, now);
      DrainIsCarried(Steering.After(met, written), WriteSteer(now), input, k + 1);
      Steering.AfterConcat(met, written, rest);
      Steering.AfterConcat(lane, typed, written + rest);
    }
  }

  /** Between drains a turn leaves its steering alone, but for what is typed while it is busy. */
  predicate SameSteers(t: Turn, r: Turn) {
    r.queue == t.queue && r.accepted == t.accepted && r.steered == t.steered
  }

  lemma ToolsSteerNothing(config: Config, input: Input, t: Turn, result: ChatResult, calls: seq<ToolCall>)
    ensures SameSteers(t, ToolsRun(config, input, t, result, calls).0)
  {}

  lemma AnswersSteerNothing(config: Config, input: Input, t: Turn, result: ChatResult)
    ensures SameSteers(t, Answered(config, input, t, result).0)
  {}

  lemma RecoverySteersNothing(config: Config, input: Input, t: Turn, result: ChatResult)
    ensures SameSteers(t, Recovered(config, input, t, result).0)
  {
    var corrected := t.(correction := Some(CutCalls(Names(Cut(config, result.toolCalls)))));
    ToolsSteerNothing(config, input, corrected, result, Kept(config, result.toolCalls));
  }

  lemma AfterResultSteersNothing(config: Config, input: Input, t: Turn, result: ChatResult)
    ensures SameSteers(t, AfterResult(config, input, t, result).0)
  {
    var noted := t.(totals := Noted(t.totals, result.usage, result.timed));
    if result.finish == Length && Cut(config, result.toolCalls) != [] {
      RecoverySteersNothing(config, input, noted, result);
    } else if result.toolCalls == [] {
      AnswersSteerNothing(config, input, noted, result);
    } else {
      ToolsSteerNothing(config, input, noted, result, result.toolCalls);
    }
  }

  lemma IterationSteersNothing(config: Config, input: Input, t: Turn)
    ensures SameSteers(if input.built then Arrive(t, input.composing) else t, Iterated(config, input, t).0)
  {
    if input.built && input.streamed.Result? {
      AfterResultSteersNothing(config, input, Sent(input, t), input.streamed.result);
    }
  }

  lemma IterationIsCarried(config: Config, input: Input, t: Turn, lane: Steering.Lane)
    requires Carries(lane, t)
    ensures var typed := if input.built then Pushes(input.composing) else [];
      Carries(Steering.After(lane, typed), Iterated(config, input, t).0) && Steering.EachInTime(lane, typed)
  {
    PushesArrive(lane, input.composing);
    IterationSteersNothing(config, input, t);
  }

  lemma PassIsCarried(config: Config, input: Input, t: Turn, lane: Steering.Lane)
    requires Carries(lane, t)
    ensures Carries(Steering.After(lane, PassEvents(input, t)), Pass(config, input, t).0)
    ensures Steering.EachInTime(lane, PassEvents(input, t))
  {
    var (drained, ok) := Drained(t, input, 0);
    var events := DrainEvents(t, input, 0);
    var typed := if input.built then Pushes(input.composing) else [];
    DrainIsCarried(lane, t, input, 0);
    if ok {
      var ready := drained.(iteration := drained.iteration + 1);
      assert Carries(Steering.After(lane, events), ready);
      IterationIsCarried(config, input, ready, Steering.After(lane, events));
      Steering.AfterConcat(lane, events, typed);
      assert PassEvents(input, t) == events + typed && Pass(config, input, t) == Iterated(config, input, ready);
    } else {
      Steering.AfterConcat(lane, events, []);
      assert PassEvents(input, t) == events + [] && Pass(config, input, t) == (drained, Fail);
    }
  }

  lemma {:induction false} LoopIsCarried(config: Config, script: nat -> Input, t: Turn, lane: Steering.Lane)
    requires Carries(lane, t)
    ensures var events := LoopEvents(config, script, t);
      Carries(Steering.After(lane, events), Looped(config, script, t).0) && Steering.EachInTime(lane, events)
    decreases config.maxToolIterations - t.iteration
  {
    if t.iteration < config.maxToolIterations && !script(t.iteration).cancelled && !script(t.iteration).timedOut {
      var input := script(t.iteration);
      var (after, flow) := Pass(config, input, t);
      PassCounts(config, input, t);
      PassIsCarried(config, input, t, lane);
      var rest := if flow == Continue then LoopEvents(config, script, after) else [];
      Steering.AfterConcat(lane, PassEvents(input, t), rest);
      if flow == Continue {
        LoopIsCarried(config, script, after, Steering.After(lane, PassEvents(input, t)));
      }
    }
  }

  lemma ClosingSteersNothing(config: Config, script: nat -> Input, t: Turn, closing: Closing)
    ensures SameSteers(Looped(config, script, t).0, RunTurn(config, script, t, closing).0)
  {}

  /** A close while nothing is being read hands back what waits, and settles everything. */
  lemma CloseSettles(lane: Steering.Lane)
    requires Steering.Sound(lane) && lane.reader == Steering.Idle
    ensures var shut := Steering.Step(lane, Steering.Close);
      !shut.open && shut.accepted == Steering.MessagesOf(shut.settled) == Steering.MessagesOf(lane.settled) + lane.queue
  {
    Steering.StepKeeps(lane, Steering.Close);
    assert Steering.MessagesOf(lane.settled + Steering.AllHandedBack(lane.queue))
        == Steering.MessagesOf(lane.settled) + lane.queue;
  }

  /**
   The loop is the reader steering asks for. Whatever the script, its looks, writes and pops come in time
   on its session's lane and leave nothing half read, so the close after the turn does too: every steer
   accepted was written by the turn or is handed back by that close, once and in order. A turn that
   failed is no exception.
   */
  lemma TurnsCloseInTime(config: Config, script: nat -> Input, t: Turn, closing: Closing, lane: Steering.Lane)
    requires Carries(lane, t) && Steering.Sound(lane)
    ensures var events := LoopEvents(config, script, t);
      var end := Steering.After(lane, events);
      && Steering.EachInTime(lane, events) && Steering.InTime(end, Steering.Close)
      && Carries(end, RunTurn(config, script, t, closing).0)
      && !Steering.Step(end, Steering.Close).open
      && end.accepted == Steering.MessagesOf(Steering.Step(end, Steering.Close).settled)
  {
    var events := LoopEvents(config, script, t);
    LoopIsCarried(config, script, t, lane);
    ClosingSteersNothing(config, script, t, closing);
    Steering.AfterKeeps(lane, events);
    CloseSettles(Steering.After(lane, events));
  }

  // ------------------------------------------------------------- the loop itself

  /** A live agent reads its settings before every group, so the ones it started from decide nothing. */
  lemma RefreshedAnyway(agent: Dispatch.Agent, oracle: Dispatch.Oracle, calls: seq<ToolCall>,
        a: Option<Dispatch.Live>, b: Option<Dispatch.Live>, start: Dispatch.Batch)
    requires agent.live && start.answers == []
    ensures Dispatch.DispatchFrom(agent, oracle, calls, 0, a, start) ==
        Dispatch.DispatchFrom(agent, oracle, calls, 0, b, start)
  {}

  class LiveTurn {
    const config: Config
    const scope: Dispatch.TurnScope
    var iteration: nat
    var stop: Option<StopReason>
    var correction: Option<Correction>
    var correctedOnce: bool
    var usage: Usage
    var generationTokens: nat
    var pendingStep: Option<StepStats>
    var store: seq<ChatMessage>
    var world: Dispatch.World
    var queue: seq<Steering.SteeringMessage>
    ghost var steps: seq<StepStats>
    ghost var accepted: seq<Steering.SteeringMessage>
    ghost var steered: seq<Steering.SteeringMessage>
    ghost var log: seq<LogEvent>

    ghost function Contents(): Turn
      reads this
    {
      Turn(iteration, stop, correction, correctedOnce, Totals(usage, generationTokens, pendingStep, steps),
           store, world, queue, accepted, steered, log)
    }

    ghost predicate Valid()
      reads this, scope
    {
      config.agent.live || scope.permissions == config.scope
    }

    constructor (config: Config, store: seq<ChatMessage>, world: Dispatch.World, queue: seq<Steering.SteeringMessage>)
      ensures Valid() && fresh(scope) && this.config == config
      ensures Contents() == Turn(0, None, None, false, NO_FIGURES, store, world, queue, queue, [], [])
    {
      this.config, this.store, this.world, this.queue := config, store, world, queue;
      scope := new Dispatch.TurnScope(config.scope);
      iteration, stop, correction, correctedOnce := 0, None, None, false;
      usage, generationTokens, pendingStep := EMPTY_USAGE, 0, None;
      steps, accepted, steered, log := [], queue, [], [];
    }

    /** Steers typed while the turn is busy. */
    method Steer(steers: seq<Steering.SteeringMessage>)
      modifies this`queue, this`accepted
      ensures Contents() == Arrive(old(Contents()), steers)
    {
      queue, accepted := queue + steers, accepted + steers;
    }

    /** A result's usage, added to the turn's totals and to the pending step. */
    method NoteStep(next: Usage, timed: bool)
      modifies this`usage, this`generationTokens, this`pendingStep
      ensures Contents() == old(Contents()).(totals := Noted(old(Contents()).totals, next, timed))
    {
      usage := AccumulateUsage(usage, next);
      pendingStep := Some(Folded(pendingStep, StepStats(next, if timed then Some(next.completionTokens) else None)));
      if timed {
        generationTokens := SaturatingAdd(generationTokens, next.completionTokens);
      }
    }

    /** Takes the pending step, finished, and leaves nothing pending. */
    method TakeStep() returns (figures: Option<StepStats>)
      modifies this`pendingStep
      ensures figures == StepTaken(old(pendingStep)) && pendingStep.None?
    {
      figures := StepTaken(pendingStep);
      pendingStep := None;
    }

    method WriteStep(rows: seq<ChatMessage>, ok: bool) returns (flow: Flow)
      modifies this`pendingStep, this`store, this`steps, this`log
      ensures (Contents(), flow) == StepWrite(old(Contents()), rows, ok)
    {
      var figures := TakeStep();
      var stamped := rows;
      if figures.Some? && rows != [] && rows[0].Assistant? {
        stamped := [rows[0].(stats := figures)] + rows[1..];
      }
      if !ok {
        return Fail;
      }
      store := store + stamped;
      steps, log := if figures.Some? then steps + [figures.value] else steps, log + [StepWritten];
      return Continue;
    }

    /** Writes the oldest steer, then takes it off the queue. */
    method WriteOldest()
      requires queue != []
      modifies this`queue, this`store, this`steered, this`log
      ensures Contents() == WriteSteer(old(Contents()))
    {
      var message := queue[0];
      store := store + [Steering.SteerRow(message)];
      queue := queue[1..];
      steered, log := steered + [message], log + [SteerWritten];
    }

    /** What is typed before the k-th look at the queue. */
    method Await(input: Input, k: nat)
      modifies this`queue, this`accepted
      ensures Contents() == BeforeLook(old(Contents()), input, k)
    {
      if k < |input.arrivals| {
        Steer(input.arrivals[k]);
      }
    }

    /** A steer leaves the queue only after its row is stored, so a failed append loses none. */
    method DrainSteering(input: Input) returns (ok: bool)
      modifies this`queue, this`accepted, this`store, this`steered, this`log
      ensures (Contents(), ok) == Drained(old(Contents()), input, 0)
    {
      var k := 0;
      ghost var whole := Drained(Contents(), input, 0);
      while true
        invariant whole == Drained(Contents(), input, k)
        decreases Left(input, k), |queue|
      {
        Await(input, k);
        if queue == [] {
          return true;
        }
        if input.appendFails == Some(k) {
          return false;
        }
        WriteOldest();
        k := k + 1;
      }
    }

    method RunTools(input: Input, result: ChatResult, calls: seq<ToolCall>) returns (flow: Flow)
      requires Valid()
      modifies this, scope
      ensures Valid()
      ensures (Contents(), flow) == ToolsRun(config, input, old(Contents()), result, calls)
    {
      ghost var start := Dispatch.Start(world, input.stopped);
      if config.agent.live {
        RefreshedAnyway(config.agent, input.tools, calls, config.scope, scope.permissions, start);
      }
      var outcome := Dispatch.Dispatch(config.agent, input.tools, AssistantRow(result, calls), scope, world,
          input.stopped);
      assert outcome == Dispatch.Reported(AssistantRow(result, calls), Dispatched(config, input, calls, world));
      flow := Append(outcome, input.written);
    }

    /** The batch's rows, in one transaction, and whether it stopped the turn. */
    method Append(outcome: Dispatch.ToolCallOutcome, ok: bool) returns (flow: Flow)
      modifies this
      ensures (Contents(), flow) == ToolsWritten(old(Contents()), outcome, ok)
    {
      if outcome.Lost? {
        return Fail;
      }
      world := outcome.world;
      flow := WriteStep(outcome.pending, ok);
      if flow == Continue && (outcome.cancelled || outcome.agentGone) {
        stop := Some(Aborted);
        return Halt;
      }
    }

    method RecoverCutCalls(input: Input, result: ChatResult) returns (flow: Flow)
      requires Valid()
      modifies this, scope
      ensures Valid()
      ensures (Contents(), flow) == Recovered(config, input, old(Contents()), result)
    {
      var kept := Kept(config, result.toolCalls);
      correction := Some(CutCalls(Names(Cut(config, result.toolCalls))));
      if kept != [] {
        flow := RunTools(input, result, kept);
        return;
      }
      if JoinText(result.content) == "" {
        return Continue;
      }
      flow := WriteStep([AssistantRow(result, [])], input.written);
    }

    method FinishAnswer(input: Input, result: ChatResult) returns (flow: Flow)
      modifies this
      ensures (Contents(), flow) == Answered(config, input, old(Contents()), result)
    {
      flow := WriteStep([AssistantRow(result, [])], input.written);
      if flow == Fail {
        return;
      }
      if !correctedOnce && input.attempted {
        correctedOnce := true;
        correction := Some(TextCall);
        return;
      }
      if queue != [] && iteration < config.maxToolIterations {
        return;
      }
      stop := Some(Complete);
      return Halt;
    }

    /** The body of the loop, on the fields. */
    method OneIteration(input: Input) returns (flow: Flow)
      requires Valid()
      modifies this, scope
      ensures Valid()
      ensures (Contents(), flow) == Iterated(config, input, old(Contents()))
    {
      var taken := correction;
      correction := None;
      if !input.built {
        return Fail;
      }
      log := log + [RequestBuilt(taken)];
      Steer(input.composing);
      match input.streamed
      case StreamAborted =>
        stop := Some(Aborted);
        return Halt;
      case StreamFailed =>
        stop := Some(Error);
        return Halt;
      case Result(result) =>
        flow := Respond(input, result);
    }

    method Respond(input: Input, result: ChatResult) returns (flow: Flow)
      requires Valid()
      modifies this, scope
      ensures Valid()
      ensures (Contents(), flow) == AfterResult(config, input, old(Contents()), result)
    {
      NoteStep(result.usage, result.timed);
      if result.finish == Length && Cut(config, result.toolCalls) != [] {
        flow := RecoverCutCalls(input, result);
      } else if result.toolCalls == [] {
        flow := FinishAnswer(input, result);
      } else {
        flow := RunTools(input, result, result.toolCalls);
      }
    }

    method OnePass(input: Input) returns (flow: Flow)
      requires Valid()
      modifies this, scope
      ensures Valid()
      ensures (Contents(), flow) == Pass(config, input, old(Contents()))
    {
      var ok := DrainSteering(input);
      if !ok {
        return Fail;
      }
      iteration := iteration + 1;
      flow := OneIteration(input);
    }

    /** The whole turn: `script` is what it meets, `closing` how its end finds things. */
    method Run(script: nat -> Input, closing: Closing) returns (flow: Flow)
      requires Valid()
      modifies this, scope
      ensures (Contents(), flow) == RunTurn(config, script, old(Contents()), closing)
    {
      ghost var whole := Looped(config, script, Contents());
      while iteration < config.maxToolIterations
        invariant Valid()
        invariant whole == Looped(config, script, Contents())
        decreases config.maxToolIterations - iteration
      {
        PassCounts(config, script(iteration), Contents());
        var input := script(iteration);
        if input.cancelled {
          stop := Some(Aborted);
          break;
        }
        if input.timedOut {
          stop := Some(WallTimeout);
          break;
        }
        var next := OnePass(input);
        if next == Fail {
          return Fail;
        }
        if next == Halt {
          break;
        }
      }
      flow := CloseTurn(closing);
    }

    method CloseTurn(closing: Closing) returns (flow: Flow)
      modifies this
      ensures (Contents(), flow) == Closed(old(Contents()), closing)
    {
      if stop.None? {
        stop := Some(MaxIterations);
      }
      if !closing.listening {
        return Fail;
      }
      if stop.value == MaxIterations || stop.value == WallTimeout {
        flow := WriteStep([Assistant([Text(LIMIT_TEXT)], [], None)], closing.written);
        if flow == Fail {
          return;
        }
      }
      return Halt;
    }
  }
}
