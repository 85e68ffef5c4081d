/**
 What a channel is told (crates/channels/src/projection.rs), read off the events themselves: a reference that
 holds no state and looks back at what came before each event instead. The projection says exactly that.
 */
module ProjectionSays {
  import opened Common
  import opened Projection
  import Delivery
  import TurnLoop

  // ------------------------------------------------------------- what came before

  /** The turn that is running: the last one started, unless it ended. */
  function RunningTurn(events: seq<Event>): Option<string> {
    if events == [] then None
    else match events[|events| - 1]
      case TurnStart(turnId) => Some(turnId)
      case TurnEnd(_, _) => None
      case _ => RunningTurn(events[..|events| - 1])
  }

  /** The text streamed since the last message was whole. */
  function Written(events: seq<Event>): string {
    if events == [] then ""
    else match events[|events| - 1]
      case TurnStart(_) => ""
      case TurnEnd(_, _) => ""
      case StepEnd(_) => ""
      case AssistantDelta(text) => Written(events[..|events| - 1]) + text
      case _ => Written(events[..|events| - 1])
  }

  /** The turn has had a message of its own already. */
  predicate HasPosted(events: seq<Event>) {
    events != [] &&
    var before := events[..|events| - 1];
    match events[|events| - 1]
    case TurnStart(_) => false
    case TurnEnd(_, _) => false
    case StepEnd(_) => HasPosted(before) || Written(before) != ""
    case _ => HasPosted(before)
  }

  /** The tool a call of this turn is of. */
  function ToolOf(events: seq<Event>, callId: string): Option<string> {
    if events == [] then None
    else match events[|events| - 1]
      case TurnStart(_) => None
      case TurnEnd(_, _) => None
      case ToolCall(id, name) => if id == callId then Some(name) else ToolOf(events[..|events| - 1], callId)
      case _ => ToolOf(events[..|events| - 1], callId)
  }

  /** The calls of this turn, or of a subagent of its, that approval was asked for. */
  function AskedCalls(events: seq<Event>): set<string> {
    if events == [] then {}
    else
      var before := AskedCalls(events[..|events| - 1]);
      match events[|events| - 1]
      case TurnStart(_) => {}
      case TurnEnd(_, _) => {}
      case ApprovalRequest(request) => before + {request.callId}
      case Subagent(_, NestedApproval(request)) => before + {request.callId}
      case _ => before
  }

  predicate Denies(notice: Notice, callId: string) {
    notice.denied && notice.callId == Some(callId)
  }

  /** The call was denied, or went ahead. */
  predicate Decides(event: Event, callId: string) {
    match event
    case ToolProgress(id) => id == callId
    case ToolResult(id, _) => id == callId
    case Noticed(notice) => Denies(notice, callId)
    case Subagent(_, NestedNotice(notice)) => Denies(notice, callId)
    case Subagent(_, NestedProgress(id)) => id == callId
    case Subagent(_, NestedResult(id)) => id == callId
    case _ => false
  }

  /** Approval of the call was asked for in this turn, and it was not decided since. */
  predicate Waits(events: seq<Event>, callId: string) {
    events != [] &&
    var before, event := events[..|events| - 1], events[|events| - 1];
    !event.TurnStart? && !event.TurnEnd? &&
    (Asks(event, callId) || (Waits(before, callId) && !Decides(event, callId)))
  }

  /** The calls that still wait for an answer. */
  function WaitingCalls(events: seq<Event>): set<string> {
    set callId | callId in AskedCalls(events) && Waits(events, callId)
  }

  // ------------------------------------------------------------- what is said of an event

  /** A word about the running turn. */
  function Word(before: seq<Event>, text: string): Draft {
    Draft(Delivery.Notice, text, RunningTurn(before), Plain)
  }

  function Card(request: Request): Draft {
    Draft(Delivery.Notice, request.name + " needs approval before it can run.", Some(request.turnId),
      ApprovalCard(request.callId))
  }

  /** A notice, marked as the answer to the approval it denies. */
  function Told(before: seq<Event>, notice: Notice): Draft {
    var word := Word(before, notice.message);
    if notice.callId.Some? && notice.denied && Waits(before, notice.callId.value)
    then word.(detail := Settled(notice.callId.value)) else word
  }

  /** A call that goes ahead needs no answer any more. */
  function WentAhead(before: seq<Event>, callId: string): seq<Draft> {
    if Waits(before, callId)
    then [Draft(Delivery.Update, "No longer waiting for an answer.", RunningTurn(before), Settled(callId))] else []
  }

  /** Of a subagent's turn only its two ends are told, when asked for; its approvals are the turn's own. */
  function SaidOfNested(options: Options, before: seq<Event>, who: string, nested: Nested): seq<Draft> {
    match nested
    case NestedApproval(request) => [Card(request)]
    case NestedNotice(notice) =>
      if notice.callId.Some? && Told(before, notice).detail == Settled(notice.callId.value) then [Told(before, notice)]
      else []
    case NestedProgress(callId) => WentAhead(before, callId)
    case NestedResult(callId) => WentAhead(before, callId)
    case NestedTurnStart => if options.sendToolHints then [Word(before, "Asking " + who)] else []
    case NestedTurnEnd => if options.sendToolHints then [Word(before, who + " finished.")] else []
    case NestedOther => []
  }

  function SaidOfResult(options: Options, before: seq<Event>, callId: string, ok: bool): seq<Draft> {
    if Waits(before, callId) then WentAhead(before, callId)
    else if options.sendToolHints && !ok then
      var name := ToolOf(before, callId);
      [Word(before, (if name.Some? then name.value else "a tool") + " failed.")]
    else []
  }

  /** The message that is whole now, if there is any text to it. */
  function Whole(before: seq<Event>, turnId: string): seq<Draft> {
    if Written(before) == "" then [] else [Draft(Delivery.Reply, Written(before), Some(turnId), Plain)]
  }

  /** The word a turn ends on. */
  function LastWord(before: seq<Event>, turnId: string, stop: StopReason): seq<Draft> {
    var answered := HasPosted(before) || Written(before) != "";
    var word := (text: string) => [Draft(Delivery.Notice, text, Some(turnId), Plain)];
    match stop
    case Complete => if answered then [] else word("The turn finished without an answer.")
    case Aborted => word("Stopped.")
    case MaxIterations => word("Stopped: the turn reached its message limit.")
    case WallTimeout => word("Stopped: the turn reached its time limit.")
    case Error => []
  }

  function Unanswered(ids: seq<string>, turnId: string): seq<Draft> {
    if ids == [] then []
    else
      [Draft(Delivery.Update, "The turn ended before this was answered.", Some(turnId), Settled(ids[0]))]
      + Unanswered(ids[1..], turnId)
  }

  /** What is said of `event` when `before` is what came before it. */
  function SaidOf(options: Options, before: seq<Event>, event: Event): seq<Draft> {
    match event
    case ToolCall(_, name) =>
      (if options.sendToolHints then [Word(before, "Running " + name)] else [])
      + (if options.sendProgress && Written(before) != ""
         then [Draft(Delivery.Progress, Written(before), RunningTurn(before), Plain)] else [])
    case ToolProgress(callId) => WentAhead(before, callId)
    case ToolResult(callId, ok) => SaidOfResult(options, before, callId, ok)
    case ApprovalRequest(request) => [Card(request)]
    case SessionCompacted(key) =>
      [Word(before, "This session was summarised into a new one.").(detail := Continued(key))]
    case Noticed(notice) => [Told(before, notice)]
    case Subagent(who, nested) => SaidOfNested(options, before, who, nested)
    case MessageQueued => [Word(before, "Queued behind other messages.")]
    case Failed(message, ofTurn, ofCall) =>
      [Draft(Delivery.Error, message, if ofTurn.Some? then ofTurn else RunningTurn(before),
         if ofCall.Some? then ErrorFor(ofCall.value) else Plain)]
    case StepEnd(turnId) => Whole(before, turnId)
    case TurnEnd(turnId, stop) =>
      Unanswered(Sorted(WaitingCalls(before)), turnId) + Whole(before, turnId) + LastWord(before, turnId, stop)
    case _ => []
  }

  function Said(options: Options, events: seq<Event>): seq<Draft> {
    if events == [] then []
    else
      var before := events[..|events| - 1];
      Said(options, before) + SaidOf(options, before, events[|events| - 1])
  }

  // ------------------------------------------------------------- the projection says just that

  ghost predicate HoldsText(p: State, events: seq<Event>) {
    p.answer == Written(events) && p.replied == HasPosted(events) && p.turnId == RunningTurn(events)
  }

  ghost predicate HoldsOpen(open: set<string>, events: seq<Event>) {
    forall callId :: callId in open <==> Waits(events, callId)
  }

  ghost predicate HoldsTools(tools: map<string, string>, events: seq<Event>) {
    forall callId :: ToolOf(events, callId) == if callId in tools then Some(tools[callId]) else None
  }

  /** The state holds what came before. */
  ghost predicate Remembers(p: State, events: seq<Event>) {
    HoldsText(p, events) && HoldsOpen(p.open, events) && HoldsTools(p.tools, events)
  }

  lemma {:induction false} WaitingWereAsked(events: seq<Event>, callId: string)
    requires Waits(events, callId)
    ensures callId in AskedCalls(events)
  {
    if !Asks(events[|events| - 1], callId) {
      WaitingWereAsked(events[..|events| - 1], callId);
    }
  }

  lemma {:induction false} UnansweredIs(ids: seq<string>, turnId: string)
    ensures Unanswered(ids, turnId) == Expired(ids, turnId)
  {
    if ids != [] {
      UnansweredIs(ids[1..], turnId);
    }
  }

  lemma TextIsHeld(options: Options, p: State, before: seq<Event>, event: Event)
    requires HoldsText(p, before)
    ensures HoldsText(Project(options, p, event).0, before + [event])
  {
    assert (before + [event])[..|before|] == before;
  }

  lemma ToolsAreHeld(options: Options, p: State, before: seq<Event>, event: Event)
    requires HoldsTools(p.tools, before)
    ensures HoldsTools(Project(options, p, event).0.tools, before + [event])
  {
    var after := Project(options, p, event).0;
    assert (before + [event])[..|before|] == before;
    if !event.ToolCall? && !event.TurnStart? && !event.TurnEnd? {
      assert after.tools == p.tools;
    }
  }

  /** What an event does to the open approvals. */
  lemma OpenAfter(options: Options, p: State, event: Event, callId: string)
    ensures callId in Project(options, p, event).0.open <==>
        !event.TurnStart? && !event.TurnEnd?
        && (Asks(event, callId) || (callId in p.open && !Decides(event, callId)))
  {}

  lemma OpenIsHeld(options: Options, p: State, before: seq<Event>, event: Event)
    requires HoldsOpen(p.open, before)
    ensures HoldsOpen(Project(options, p, event).0.open, before + [event])
  {
    var after := Project(options, p, event).0;
    assert (before + [event])[..|before|] == before;
    forall callId ensures callId in after.open <==> Waits(before + [event], callId) {
      OpenAfter(options, p, event, callId);
    }
  }

  lemma EventIsRemembered(options: Options, p: State, before: seq<Event>, event: Event)
    requires Remembers(p, before)
    ensures Remembers(Project(options, p, event).0, before + [event])
  {
    TextIsHeld(options, p, before, event);
    OpenIsHeld(options, p, before, event);
    ToolsAreHeld(options, p, before, event);
  }

  lemma EndIsSaid(options: Options, p: State, before: seq<Event>, turnId: string, stop: StopReason)
    requires Remembers(p, before)
    ensures Ended(p, turnId, stop).1 == SaidOf(options, before, TurnEnd(turnId, stop))
  {
    forall callId ensures callId in p.open <==> callId in WaitingCalls(before) {
      if Waits(before, callId) {
        WaitingWereAsked(before, callId);
      }
    }
    assert p.open == WaitingCalls(before);
    UnansweredIs(Sorted(p.open), turnId);
  }

  lemma NestedIsSaid(options: Options, p: State, before: seq<Event>, who: string, nested: Nested)
    requires Remembers(p, before)
    ensures OnSubagent(options, p, who, nested).1 == SaidOfNested(options, before, who, nested)
  {}

  lemma ResultIsSaid(options: Options, p: State, before: seq<Event>, callId: string, ok: bool)
    requires Remembers(p, before)
    ensures OnToolResult(options, p, callId, ok).1 == SaidOfResult(options, before, callId, ok)
  {
    assert ToolOf(before, callId) == if callId in p.tools then Some(p.tools[callId]) else None;
  }

  lemma EventIsSaid(options: Options, p: State, before: seq<Event>, event: Event)
    requires Remembers(p, before)
    ensures Project(options, p, event).1 == SaidOf(options, before, event)
  {
    match event
    case TurnEnd(turnId, stop) => EndIsSaid(options, p, before, turnId, stop);
    case Subagent(who, nested) => NestedIsSaid(options, p, before, who, nested);
    case ToolResult(callId, ok) => ResultIsSaid(options, p, before, callId, ok);
    case _ =>
  }

  /** What was said so far is what the events called for, and what is held is what came before. */
  ghost predicate InStep(options: Options, events: seq<Event>) {
    Run(options, FRESH, events).1 == Said(options, events) && Remembers(Run(options, FRESH, events).0, events)
  }

  lemma StaysInStep(options: Options, before: seq<Event>, event: Event)
    requires InStep(options, before)
    ensures InStep(options, before + [event])
  {
    var p := Run(options, FRESH, before).0;
    assert (before + [event])[..|before|] == before;
    EventIsRemembered(options, p, before, event);
    EventIsSaid(options, p, before, event);
  }

  lemma {:induction false} AlwaysInStep(options: Options, events: seq<Event>)
    ensures InStep(options, events)
  {
    if events != [] {
      AlwaysInStep(options, events[..|events| - 1]);
      StaysInStep(options, events[..|events| - 1], events[|events| - 1]);
      assert events[..|events| - 1] + [events[|events| - 1]] == events;
    }
  }

  /**
   The projection says what the events themselves call for: over every stretch of events it has seen, its drafts
   are those of the reference, one event after the other, whatever it holds in between.
   */
  lemma SaysWhatTheEventsSay(options: Options, events: seq<Event>)
    ensures Run(options, FRESH, events).1 == Said(options, events) && Remembers(Run(options, FRESH, events).0, events)
  {
    AlwaysInStep(options, events);
    assert InStep(options, events);
  }

  // ------------------------------------------------------------- every failure is told

  /** The errors among the drafts, in order. */
  function Errors(drafts: seq<Draft>): seq<Draft> {
    if drafts == [] then []
    else (if drafts[0].kind == Delivery.Error then [drafts[0]] else []) + Errors(drafts[1..])
  }

  /** What each failure is to be told as: its message, of the turn it names or else the running one, for its call. */
  function Failures(events: seq<Event>): seq<Draft> {
    if events == [] then []
    else
      var before := events[..|events| - 1];
      match events[|events| - 1]
      case Failed(message, ofTurn, ofCall) =>
        Failures(before)
        + [Draft(Delivery.Error, message, if ofTurn.Some? then ofTurn else RunningTurn(before),
             if ofCall.Some? then ErrorFor(ofCall.value) else Plain)]
      case _ => Failures(before)
  }

  lemma {:induction false} ErrorsConcat(a: seq<Draft>, b: seq<Draft>)
    ensures Errors(a + b) == Errors(a) + Errors(b)
  {
    if a == [] {
      assert a + b == b;
    } else {
      assert (a + b)[1..] == a[1..] + b;
      ErrorsConcat(a[1..], b);
    }
  }

  lemma {:induction false} NoErrors(drafts: seq<Draft>)
    requires forall d :: d in drafts ==> d.kind != Delivery.Error
    ensures Errors(drafts) == []
  {
    if drafts != [] {
      NoErrors(drafts[1..]);
    }
  }

  lemma ErrorOf(options: Options, p: State, event: Event)
    ensures Errors(Project(options, p, event).1) ==
      match event
      case Failed(message, ofTurn, ofCall) =>
        [Draft(Delivery.Error, message, if ofTurn.Some? then ofTurn else p.turnId,
           if ofCall.Some? then ErrorFor(ofCall.value) else Plain)]
      case _ => []
  {
    var drafts := Project(options, p, event).1;
    if event.Failed? {
      assert drafts[1..] == [];
    } else {
      NoErrors(drafts);
    }
  }

  /**
   Errors are told: in every stretch of events the error drafts, in order, are exactly the failures, each with its
   message, the turn it names or else the one that is running, and the call it refuses.
   */
  lemma {:induction false} ErrorsAreTold(options: Options, events: seq<Event>)
    ensures Errors(Run(options, FRESH, events).1) == Failures(events)
  {
    if events != [] {
      var before, event := events[..|events| - 1], events[|events| - 1];
      ErrorsAreTold(options, before);
      SaysWhatTheEventsSay(options, before);
      var (p, said) := Run(options, FRESH, before);
      ErrorOf(options, p, event);
      ErrorsConcat(said, Project(options, p, event).1);
    }
  }

  lemma {:induction false} ErrorsAreAmong(drafts: seq<Draft>)
    ensures forall d :: d in Errors(drafts) ==> d in drafts && d.kind == Delivery.Error
  {
    if drafts != [] {
      ErrorsAreAmong(drafts[1..]);
    }
  }

  /** So a failure is never passed over, wherever it falls and whatever is held by then. */
  lemma {:induction false} NoFailureIsSilent(options: Options, p: State, events: seq<Event>, i: nat)
    requires i < |events| && events[i].Failed?
    ensures exists d :: d in Run(options, p, events).1 && d.kind == Delivery.Error && d.text == events[i].message
  {
    var before, event := events[..|events| - 1], events[|events| - 1];
    var (mid, _) := Run(options, p, before);
    if i < |before| {
      NoFailureIsSilent(options, p, before, i);
    } else {
      ErrorOf(options, mid, event);
      var drafts := Project(options, mid, event).1;
      ErrorsAreAmong(drafts);
      assert Errors(drafts)[0] in drafts;
    }
  }

  /** Says how a turn came out: with an answer, with what went wrong, or with the way it was stopped. */
  predicate TellsTheEnd(d: Draft) {
    || d.kind in {Delivery.Reply, Delivery.Error}
    || (d.kind == Delivery.Notice && d.text in {
          "The turn finished without an answer.", "Stopped.", "Stopped: the turn reached its message limit.",
          "Stopped: the turn reached its time limit."})
  }

  /** Some draft of a whole turn says how it came out, but for one that ends in an error that was never sent. */
  lemma NoTurnEndsInSilence(options: Options, started: string, events: seq<Event>, turnId: string, stop: StopReason)
    requires forall event :: event in events ==> !event.TurnStart? && !event.TurnEnd?
    requires stop == TurnLoop.Error ==> exists event :: event in events && event.Failed?
    ensures var (mid, said) := Run(options, Begun(started), events);
      exists d :: d in said + Ended(mid, turnId, stop).1 && TellsTheEnd(d)
  {
    var (mid, said) := Run(options, Begun(started), events);
    var last := Ended(mid, turnId, stop).1;
    if stop == TurnLoop.Error {
      var event :| event in events && event.Failed?;
      var i :| 0 <= i < |events| && events[i] == event;
      NoFailureIsSilent(options, Begun(started), events, i);
      var d :| d in said && d.kind == Delivery.Error;
      assert d in said + last && TellsTheEnd(d);
    } else {
      NoTurnGoesSilent(options, events, started, turnId, stop);
      if HasReply(said + last) && stop == TurnLoop.Complete {
        var d :| d in said + last && d.kind == Delivery.Reply;
        assert TellsTheEnd(d);
      } else {
        var d := last[|last| - 1];
        assert d in said + last && TellsTheEnd(d);
      }
    }
  }

  // ------------------------------------------------------------- expiries are told in order

  /** The approvals left open when a turn ends are told in the order of their ids. */
  lemma {:induction false} SortedInOrder(ids: set<string>, i: nat, j: nat)
    requires i < j < |Sorted(ids)|
    ensures LexLe(Sorted(ids)[i], Sorted(ids)[j]) && Sorted(ids)[i] != Sorted(ids)[j]
  {
    var least := Least(ids);
    var rest := ids - {least};
    assert Sorted(ids) == [least] + Sorted(rest);
    if i == 0 {
      assert Sorted(rest)[j - 1] in rest;
    } else {
      SortedInOrder(rest, i - 1, j - 1);
    }
  }
}
