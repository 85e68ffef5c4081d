/**
 From a turn's events to the messages a chat channel is sent (crates/channels/src/projection.rs). Between
 events the projection holds the text streamed so far and the approvals still open.
 */
module Projection {
  import opened Common
  import Delivery
  import TurnLoop

  type Kind = Delivery.Kind
  type StopReason = TurnLoop.StopReason

  datatype Options = Options(sendProgress: bool, sendToolHints: bool)

  /** What a draft's metadata says. */
  datatype Detail =
    | Plain
    | ApprovalCard(callId: string)
    | Settled(callId: string)
    | ErrorFor(callId: string)
    | Continued(key: string)

  datatype Draft = Draft(kind: Kind, text: string, turnId: Option<string>, detail: Detail)

  datatype Request = Request(turnId: string, callId: string, name: string)

  /** `denied` for the kind of notice that answers an approval with a refusal. */
  datatype Notice = Notice(denied: bool, message: string, callId: Option<string>)

  datatype Nested =
    | NestedApproval(request: Request)
    | NestedNotice(notice: Notice)
    | NestedProgress(callId: string)
    | NestedResult(callId: string)
    | NestedTurnStart
    | NestedTurnEnd
    | NestedOther

  /** A server message; `Unseen` stands for every kind that yields no message. */
  datatype Event =
    | TurnStart(turnId: string)
    | AssistantDelta(text: string)
    | ToolCall(callId: string, name: string)
    | ToolProgress(callId: string)
    | ToolResult(callId: string, ok: bool)
    | ApprovalRequest(request: Request)
    | SessionCompacted(continuedKey: string)
    | Noticed(notice: Notice)
    | Subagent(who: string, nested: Nested)
    | MessageQueued
    | Failed(message: string, ofTurn: Option<string>, ofCall: Option<string>)
    | StepEnd(turnId: string)
    | TurnEnd(turnId: string, stop: StopReason)
    | Unseen

  datatype State = State(
    answer: string, replied: bool, turnId: Option<string>, tools: map<string, string>, open: set<string>)

  const FRESH := State("", false, None, map[], {})

  const WITHOUT_AN_ANSWER := "The turn finished without an answer."

  /** The closing notice, if the way the turn ended calls for one. */
  function StopNotice(stop: StopReason, hasAnswer: bool): Option<string> {
    match stop
    case Complete => if hasAnswer then None else Some(WITHOUT_AN_ANSWER)
    case Aborted => Some("Stopped.")
    case MaxIterations => Some("Stopped: the turn reached its message limit.")
    case WallTimeout => Some("Stopped: the turn reached its time limit.")
    case Error => None
  }

  // ------------------------------------------------------------- sorted call ids

  predicate LexLe(a: string, b: string) {
    a == "" || (b != "" && (a[0] < b[0] || (a[0] == b[0] && LexLe(a[1..], b[1..]))))
  }

  lemma {:induction false} LexAntisymmetric(a: string, b: string)
    requires LexLe(a, b) && LexLe(b, a)
    ensures a == b
  {
    if a != "" {
      LexAntisymmetric(a[1..], b[1..]);
      assert a == [a[0]] + a[1..] && b == [b[0]] + b[1..];
    }
  }

  lemma {:induction false} LexTotal(a: string, b: string)
    ensures LexLe(a, b) || LexLe(b, a)
  {
    if a != "" && b != "" {
      LexTotal(a[1..], b[1..]);
    }
  }

  lemma {:induction false} LexTransitive(a: string, b: string, c: string)
    requires LexLe(a, b) && LexLe(b, c)
    ensures LexLe(a, c)
  {
    if a != "" && a[0] == b[0] == c[0] {
      LexTransitive(a[1..], b[1..], c[1..]);
    }
  }

  ghost predicate IsLeast(x: string, ids: set<string>) {
    x in ids && forall y :: y in ids ==> LexLe(x, y)
  }

  lemma {:induction false} LeastExists(ids: set<string>) returns (least: string)
    requires ids != {}
    ensures IsLeast(least, ids)
  {
    var x :| x in ids;
    LexTotal(x, x);
    if ids == {x} {
      least := x;
    } else {
      var y := LeastExists(ids - {x});
      LexTotal(x, y);
      least := if LexLe(x, y) then x else y;
      forall z | z in ids ensures LexLe(least, z) {
        if z != x && least == x {
          LexTransitive(x, y, z);
        }
      }
    }
  }

  lemma LeastIsUnique(ids: set<string>)
    requires ids != {}
    ensures exists x :: x in ids && forall y :: y in ids ==> LexLe(x, y)
    ensures forall x, y :: x in ids && y in ids && LexLe(x, y) && LexLe(y, x) ==> x == y
  {
    var least := LeastExists(ids);
    forall x, y | x in ids && y in ids && LexLe(x, y) && LexLe(y, x) ensures x == y {
      LexAntisymmetric(x, y);
    }
  }

  function Least(ids: set<string>): (x: string)
    requires ids != {}
    ensures IsLeast(x, ids)
  {
    LeastIsUnique(ids);
    var x :| x in ids && forall y :: y in ids ==> LexLe(x, y);
    x
  }

  /** The ids in order, each once. */
  function Sorted(ids: set<string>): (r: seq<string>)
    ensures |r| == |ids| && forall x :: x in r <==> x in ids
  {
    if ids == {} then [] else [Least(ids)] + Sorted(ids - {Least(ids)})
  }

  // ------------------------------------------------------------- one event

  function MakeDraft(p: State, kind: Kind, text: string): Draft {
    Draft(kind, text, p.turnId, Plain)
  }

  function Approve(p: State, request: Request): (State, seq<Draft>) {
    (p.(open := p.open + {request.callId}),
     [Draft(Delivery.Notice, request.name + " needs approval before it can run.", Some(request.turnId),
         ApprovalCard(request.callId))])
  }

  /** `Some` exactly when the notice denies a call whose approval is still open. */
  function SettlesOpen(p: State, notice: Notice): Option<string> {
    if notice.callId.Some? && notice.denied && notice.callId.value in p.open then notice.callId else None
  }

  function SayNotice(p: State, notice: Notice): (State, seq<Draft>) {
    var draft := MakeDraft(p, Delivery.Notice, notice.message);
    match SettlesOpen(p, notice)
    case None => (p, [draft])
    case Some(callId) => (p.(open := p.open - {callId}), [draft.(detail := Settled(callId))])
  }

  /** A call that got on with its work was approved, so its card is answered. */
  function MovedOn(p: State, callId: string): (State, seq<Draft>) {
    if callId !in p.open then (p, [])
    else
      (p.(open := p.open - {callId}),
       [Draft(Delivery.Update, "No longer waiting for an answer.", p.turnId, Settled(callId))])
  }

  function Reply(text: string, turnId: string): seq<Draft> {
    if text == "" then [] else [Draft(Delivery.Reply, text, Some(turnId), Plain)]
  }

  function Expired(ids: seq<string>, turnId: string): (r: seq<Draft>)
    ensures |r| == |ids|
  {
    seq(|ids|, i requires 0 <= i < |ids| =>
      Draft(Delivery.Update, "The turn ended before this was answered.", Some(turnId), Settled(ids[i])))
  }

  function Closing(turnId: string, stop: StopReason, replied: bool): seq<Draft> {
    match StopNotice(stop, replied)
    case None => []
    case Some(text) => [Draft(Delivery.Notice, text, Some(turnId), Plain)]
  }

  function Ended(p: State, turnId: string, stop: StopReason): (State, seq<Draft>) {
    (State("", false, None, map[], {}),
     Expired(Sorted(p.open), turnId) + Reply(p.answer, turnId) + Closing(turnId, stop, p.replied || p.answer != ""))
  }

  function OnSubagent(options: Options, p: State, who: string, nested: Nested): (State, seq<Draft>) {
    match nested
    case NestedApproval(request) => Approve(p, request)
    case NestedNotice(notice) => if SettlesOpen(p, notice).Some? then SayNotice(p, notice) else (p, [])
    case NestedProgress(callId) => MovedOn(p, callId)
    case NestedResult(callId) => MovedOn(p, callId)
    case NestedTurnStart => (p, if options.sendToolHints then [MakeDraft(p, Delivery.Notice, "Asking " + who)] else [])
    case NestedTurnEnd => (p, if options.sendToolHints then [MakeDraft(p, Delivery.Notice, who + " finished.")] else [])
    case NestedOther => (p, [])
  }

  function OnToolResult(options: Options, p: State, callId: string, ok: bool): (State, seq<Draft>) {
    if callId in p.open then MovedOn(p, callId)
    else if !options.sendToolHints || ok then (p, [])
    else
      var name := if callId in p.tools then p.tools[callId] else "a tool";
      (p, [MakeDraft(p, Delivery.Notice, name + " failed.")])
  }

  function OnToolCall(options: Options, p: State, callId: string, name: string): (State, seq<Draft>) {
    (p.(tools := p.tools[callId := name]),
     (if options.sendToolHints then [MakeDraft(p, Delivery.Notice, "Running " + name)] else [])
     + (if options.sendProgress && p.answer != "" then [MakeDraft(p, Delivery.Progress, p.answer)] else []))
  }

  /** What an event makes of the state, and what it says. */
  function Project(options: Options, p: State, event: Event): (State, seq<Draft>) {
    match event
    case TurnStart(turnId) => (State("", false, Some(turnId), map[], {}), [])
    case AssistantDelta(text) => (p.(answer := p.answer + text), [])
    case ToolCall(callId, name) => OnToolCall(options, p, callId, name)
    case ToolProgress(callId) => MovedOn(p, callId)
    case ToolResult(callId, ok) => OnToolResult(options, p, callId, ok)
    case ApprovalRequest(request) => Approve(p, request)
    case SessionCompacted(key) =>
      (p, [MakeDraft(p, Delivery.Notice, "This session was summarised into a new one.").(detail := Continued(key))])
    case Noticed(notice) => SayNotice(p, notice)
    case Subagent(who, nested) => OnSubagent(options, p, who, nested)
    case MessageQueued => (p, [MakeDraft(p, Delivery.Notice, "Queued behind other messages.")])
    case Failed(message, turnId, callId) =>
      (p, [Draft(Delivery.Error, message, if turnId.Some? then turnId else p.turnId,
                 if callId.Some? then ErrorFor(callId.value) else Plain)])
    case StepEnd(turnId) =>
      (p.(answer := "", replied := p.replied || p.answer != ""), Reply(p.answer, turnId))
    case TurnEnd(turnId, stop) => Ended(p, turnId, stop)
    case Unseen => (p, [])
  }

  /** A stretch of events. */
  function Run(options: Options, p: State, events: seq<Event>): (State, seq<Draft>) {
    if events == [] then (p, [])
    else
      var (before, said) := Run(options, p, events[..|events| - 1]);
      var (after, more) := Project(options, before, events[|events| - 1]);
      (after, said + more)
  }

  // ------------------------------------------------------------- text is conserved

  function Replies(drafts: seq<Draft>): string {
    if drafts == [] then ""
    else (if drafts[0].kind == Delivery.Reply then drafts[0].text else "") + Replies(drafts[1..])
  }

  predicate HasReply(drafts: seq<Draft>) {
    exists d :: d in drafts && d.kind == Delivery.Reply
  }

  function DeltaOf(event: Event): string {
    if event.AssistantDelta? then event.text else ""
  }

  function Deltas(events: seq<Event>): string {
    if events == [] then "" else Deltas(events[..|events| - 1]) + DeltaOf(events[|events| - 1])
  }

  /** The next reply of `drafts`, or what is still being written. */
  function NextReply(drafts: seq<Draft>, answer: string): string {
    if drafts == [] then answer
    else if drafts[0].kind == Delivery.Reply then drafts[0].text
    else NextReply(drafts[1..], answer)
  }

  /** Each progress says a prefix of the turn's next reply, or of the answer so far. */
  ghost predicate ProgressIsPrefix(drafts: seq<Draft>, answer: string) {
    forall i :: 0 <= i < |drafts| && drafts[i].kind == Delivery.Progress ==>
      drafts[i].text <= NextReply(drafts[i..], answer)
  }

  lemma {:induction false} RepliesConcat(a: seq<Draft>, b: seq<Draft>)
    ensures Replies(a + b) == Replies(a) + Replies(b)
  {
    if a == [] {
      assert a + b == b;
    } else {
      assert (a + b)[1..] == a[1..] + b;
      RepliesConcat(a[1..], b);
    }
  }

  lemma {:induction false} NextReplyConcat(a: seq<Draft>, b: seq<Draft>, answer: string)
    ensures NextReply(a + b, answer) == NextReply(a, NextReply(b, answer))
  {
    if a == [] {
      assert a + b == b;
    } else {
      assert (a + b)[1..] == a[1..] + b;
      NextReplyConcat(a[1..], b, answer);
    }
  }

  lemma {:induction false} NextReplyGrows(drafts: seq<Draft>, before: string, after: string)
    requires before <= after
    ensures NextReply(drafts, before) <= NextReply(drafts, after)
  {
    if drafts != [] {
      NextReplyGrows(drafts[1..], before, after);
    }
  }

  lemma {:induction false} NoReply(drafts: seq<Draft>, answer: string)
    requires forall d :: d in drafts ==> d.kind != Delivery.Reply
    ensures Replies(drafts) == "" && NextReply(drafts, answer) == answer && !HasReply(drafts)
  {
    if drafts != [] {
      NoReply(drafts[1..], answer);
    }
  }

  /** What a stretch of drafts says of the text that went in: `before` and `after` are the answers held. */
  ghost predicate Conserves(before: string, delta: string, drafts: seq<Draft>, after: string) {
    && before + delta == Replies(drafts) + after
    && before <= NextReply(drafts, after)
    && ProgressIsPrefix(drafts, after)
  }

  /** Drafts that carry none of the answer conserve it. */
  lemma SilentConserves(answer: string, drafts: seq<Draft>)
    requires forall d :: d in drafts ==> d.kind !in {Delivery.Reply, Delivery.Progress}
    ensures Conserves(answer, "", drafts, answer)
  {
    NoReply(drafts, answer);
    assert answer + "" == "" + answer;
  }

  lemma ToolCallConserves(options: Options, p: State, callId: string, name: string)
    ensures Conserves(p.answer, "", OnToolCall(options, p, callId, name).1, p.answer)
  {
    var drafts := OnToolCall(options, p, callId, name).1;
    NoReply(drafts, p.answer);
    assert p.answer + "" == "" + p.answer;
    forall i | 0 <= i < |drafts| && drafts[i].kind == Delivery.Progress
      ensures drafts[i].text <= NextReply(drafts[i..], p.answer)
    {
      NoReply(drafts[i..], p.answer);
    }
  }

  lemma ReplyConserves(text: string, turnId: string)
    ensures Conserves(text, "", Reply(text, turnId), "")
  {
    var drafts := Reply(text, turnId);
    if text != "" {
      assert drafts[1..] == [];
    }
  }

  lemma PrefixOfPrefix(a: string, b: string, c: string)
    requires a <= b <= c
    ensures a <= c
  {}

  lemma EarlierReplyHolds(text: string, left: seq<Draft>, b: string, right: seq<Draft>, c: string)
    requires text <= NextReply(left, b) && b <= NextReply(right, c)
    ensures text <= NextReply(left + right, c)
  {
    NextReplyConcat(left, right, c);
    NextReplyGrows(left, b, NextReply(right, c));
    PrefixOfPrefix(text, NextReply(left, b), NextReply(left, NextReply(right, c)));
  }

  lemma PrefixConcat(left: seq<Draft>, b: string, right: seq<Draft>, c: string)
    requires ProgressIsPrefix(left, b) && ProgressIsPrefix(right, c) && b <= NextReply(right, c)
    ensures ProgressIsPrefix(left + right, c)
  {
    var drafts := left + right;
    forall i | 0 <= i < |drafts| && drafts[i].kind == Delivery.Progress
      ensures drafts[i].text <= NextReply(drafts[i..], c)
    {
      if i < |left| {
        assert drafts[i..] == left[i..] + right;
        EarlierReplyHolds(drafts[i].text, left[i..], b, right, c);
      } else {
        assert drafts[i..] == right[i - |left|..];
      }
    }
  }

  lemma TextConcat(a: string, x: string, left: string, b: string, y: string, right: string, c: string)
    requires a + x == left + b && b + y == right + c
    ensures a + (x + y) == left + right + c
  {
    assert a + (x + y) == (a + x) + y == left + (b + y);
    assert left + (right + c) == left + right + c;
  }

  lemma ConservesConcat(a: string, x: string, left: seq<Draft>, b: string, y: string, right: seq<Draft>, c: string)
    requires Conserves(a, x, left, b) && Conserves(b, y, right, c)
    ensures Conserves(a, x + y, left + right, c)
  {
    RepliesConcat(left, right);
    TextConcat(a, x, Replies(left), b, y, Replies(right), c);
    EarlierReplyHolds(a, left, b, right, c);
    PrefixConcat(left, b, right, c);
  }

  lemma EndConserves(p: State, turnId: string, stop: StopReason)
    ensures Conserves(p.answer, "", Ended(p, turnId, stop).1, "")
  {
    var expired := Expired(Sorted(p.open), turnId);
    var reply := Reply(p.answer, turnId);
    var closing := Closing(turnId, stop, p.replied || p.answer != "");
    SilentConserves(p.answer, expired);
    ReplyConserves(p.answer, turnId);
    SilentConserves("", closing);
    ConservesConcat(p.answer, "", expired, p.answer, "", reply, "");
    ConservesConcat(p.answer, "" + "", expired + reply, "", "", closing, "");
  }

  predicate CarriesText(event: Event) {
    event.TurnStart? || event.AssistantDelta? || event.ToolCall? || event.StepEnd? || event.TurnEnd?
  }

  lemma OtherEventsAreSilent(options: Options, p: State, event: Event)
    requires !CarriesText(event)
    ensures var (after, drafts) := Project(options, p, event);
      after.answer == p.answer && forall d :: d in drafts ==> d.kind !in {Delivery.Reply, Delivery.Progress}
  {}

  lemma EventConserves(options: Options, p: State, event: Event)
    requires !event.TurnStart?
    ensures var (after, drafts) := Project(options, p, event);
      Conserves(p.answer, DeltaOf(event), drafts, after.answer)
  {
    if event.AssistantDelta? {
      assert p.answer + event.text == "" + (p.answer + event.text);
    } else if event.ToolCall? {
      ToolCallConserves(options, p, event.callId, event.name);
    } else if event.StepEnd? {
      ReplyConserves(p.answer, event.turnId);
    } else if event.TurnEnd? {
      EndConserves(p, event.turnId, event.stop);
    } else {
      OtherEventsAreSilent(options, p, event);
      SilentConserves(p.answer, Project(options, p, event).1);
    }
  }

  /**
   Within a turn, at every point: the replies emitted and the answer held are the streamed text, and
   every progress is a prefix of the next reply, or of the answer while there is none yet.
   */
  lemma {:induction false} TextIsConserved(options: Options, p: State, events: seq<Event>)
    requires forall event :: event in events ==> !event.TurnStart?
    ensures var (after, drafts) := Run(options, p, events);
      && p.answer + Deltas(events) == Replies(drafts) + after.answer
      && ProgressIsPrefix(drafts, after.answer)
      && Conserves(p.answer, Deltas(events), drafts, after.answer)
  {
    if events == [] {
      SilentConserves(p.answer, []);
    } else {
      var before := events[..|events| - 1];
      TextIsConserved(options, p, before);
      var (mid, said) := Run(options, p, before);
      EventConserves(options, mid, events[|events| - 1]);
      var (after, more) := Project(options, mid, events[|events| - 1]);
      ConservesConcat(p.answer, Deltas(before), said, mid.answer, DeltaOf(events[|events| - 1]), more, after.answer);
    }
  }

  // ------------------------------------------------------------- no turn goes silent

  lemma {:induction false} RepliedIsRemembered(options: Options, p: State, events: seq<Event>)
    requires forall event :: event in events ==> !event.TurnStart? && !event.TurnEnd?
    ensures var (after, drafts) := Run(options, p, events);
      after.replied == (p.replied || HasReply(drafts))
  {
    if events != [] {
      var before := events[..|events| - 1];
      RepliedIsRemembered(options, p, before);
      var (mid, said) := Run(options, p, before);
      var (after, more) := Project(options, mid, events[|events| - 1]);
      assert forall d :: d in said + more <==> d in said || d in more;
      assert HasReply(said + more) == (HasReply(said) || HasReply(more));
      EventReplies(options, mid, events[|events| - 1]);
    }
  }

  lemma EventReplies(options: Options, p: State, event: Event)
    requires !event.TurnStart? && !event.TurnEnd?
    ensures var (after, drafts) := Project(options, p, event);
      after.replied == (p.replied || HasReply(drafts))
  {
    var drafts := Project(options, p, event).1;
    if event.StepEnd? && p.answer != "" {
      assert drafts[0].kind == Delivery.Reply && drafts[0] in drafts;
    }
  }

  /** The state a `turn.start` leaves. */
  function Begun(turnId: string): State {
    State("", false, Some(turnId), map[], {})
  }

  lemma LastReply(expired: seq<Draft>, text: string, turnId: string, closing: seq<Draft>)
    requires forall d :: d in expired + closing ==> d.kind != Delivery.Reply
    ensures HasReply(expired + Reply(text, turnId) + closing) <==> text != ""
  {
    var reply := Reply(text, turnId);
    var last := expired + reply + closing;
    assert forall d :: d in last <==> d in expired || d in reply || d in closing;
    assert forall d :: d in expired || d in closing ==> d in expired + closing;
    assert reply != [] ==> reply[0] in last;
  }

  lemma LastOfThree(expired: seq<Draft>, reply: seq<Draft>, closing: seq<Draft>)
    requires |reply| <= 1 && |closing| <= 1
    ensures var last := expired + reply + closing;
      && (closing != [] ==> last != [] && last[|last| - 1] == closing[0])
      && (closing == [] && last != [] ==>
            last[|last| - 1] == if reply != [] then reply[0] else expired[|expired| - 1])
  {}

  /** The drafts of `turn.end` hold a reply exactly when text was left, and close on the stop's notice. */
  lemma LastWords(p: State, turnId: string, stop: StopReason)
    ensures var last := Ended(p, turnId, stop).1; var notice := StopNotice(stop, p.replied || p.answer != "");
      && HasReply(last) == (p.answer != "")
      && (notice.Some? ==> last != [] && last[|last| - 1] == Draft(Delivery.Notice, notice.value, Some(turnId), Plain))
      && (notice.None? && last != [] ==> last[|last| - 1].kind != Delivery.Notice)
  {
    var expired := Expired(Sorted(p.open), turnId);
    var reply := Reply(p.answer, turnId);
    var closing := Closing(turnId, stop, p.replied || p.answer != "");
    LastReply(expired, p.answer, turnId, closing);
    LastOfThree(expired, reply, closing);
  }

  /**
   A turn that completes says it finished without an answer exactly when it posted no reply, and a turn
   that was stopped or met a limit always says so; only an error leaves the word to the error event.
   */
  lemma NoTurnGoesSilent(options: Options, events: seq<Event>, started: string, turnId: string, stop: StopReason)
    requires forall event :: event in events ==> !event.TurnStart? && !event.TurnEnd?
    ensures var (mid, said) := Run(options, Begun(started), events);
      var last := Ended(mid, turnId, stop).1;
      var closes := last != [] && last[|last| - 1].kind == Delivery.Notice;
      && (closes <==> StopNotice(stop, HasReply(said + last)).Some?)
      && (closes ==> last[|last| - 1].text == StopNotice(stop, HasReply(said + last)).value)
      && (stop == TurnLoop.Complete ==> (closes <==> !HasReply(said + last)))
      && (stop in {TurnLoop.Aborted, TurnLoop.MaxIterations, TurnLoop.WallTimeout} ==> closes)
  {
    RepliedIsRemembered(options, Begun(started), events);
    var (mid, said) := Run(options, Begun(started), events);
    var last := Ended(mid, turnId, stop).1;
    LastWords(mid, turnId, stop);
    assert forall d :: d in said + last <==> d in said || d in last;
    assert HasReply(said + last) == (HasReply(said) || HasReply(last));
  }

  // ------------------------------------------------------------- approvals settle once

  function Settlements(drafts: seq<Draft>, callId: string): nat {
    if drafts == [] then 0
    else (if drafts[0].detail == Settled(callId) then 1 else 0) + Settlements(drafts[1..], callId)
  }

  function Cards(drafts: seq<Draft>, callId: string): nat {
    if drafts == [] then 0 else (if drafts[0].detail == ApprovalCard(callId) then 1 else 0) + Cards(drafts[1..], callId)
  }

  /** Whether an event asks for approval of a call, the turn's own or a subagent's. */
  predicate Asks(event: Event, callId: string) {
    || (event.ApprovalRequest? && event.request.callId == callId)
    || (event.Subagent? && event.nested.NestedApproval? && event.nested.request.callId == callId)
  }

  function Asked(events: seq<Event>, callId: string): nat {
    if events == [] then 0
    else Asked(events[..|events| - 1], callId) + (if Asks(events[|events| - 1], callId) then 1 else 0)
  }

  /** How often the call's approval was opened: asked for while it was not open. */
  function Openings(options: Options, p: State, events: seq<Event>, callId: string): nat {
    if events == [] then 0
    else
      var before := events[..|events| - 1];
      Openings(options, p, before, callId)
      + (if Asks(events[|events| - 1], callId) && callId !in Run(options, p, before).0.open then 1 else 0)
  }

  function IsOpen(p: State, callId: string): nat {
    if callId in p.open then 1 else 0
  }

  lemma {:induction false} CountsConcat(a: seq<Draft>, b: seq<Draft>, callId: string)
    ensures Settlements(a + b, callId) == Settlements(a, callId) + Settlements(b, callId)
    ensures Cards(a + b, callId) == Cards(a, callId) + Cards(b, callId)
  {
    if a == [] {
      assert a + b == b;
    } else {
      assert (a + b)[1..] == a[1..] + b;
      CountsConcat(a[1..], b, callId);
    }
  }

  lemma {:induction false} ExpiredSettlesEachOnce(ids: set<string>, turnId: string, callId: string)
    ensures Settlements(Expired(Sorted(ids), turnId), callId) == (if callId in ids then 1 else 0)
    ensures Cards(Expired(Sorted(ids), turnId), callId) == 0
  {
    if ids != {} {
      var rest := ids - {Least(ids)};
      ExpiredSettlesEachOnce(rest, turnId, callId);
      assert Expired(Sorted(ids), turnId)[1..] == Expired(Sorted(rest), turnId);
    }
  }

  lemma ReplyCountsNothing(text: string, turnId: string, callId: string)
    ensures Settlements(Reply(text, turnId), callId) == 0 == Cards(Reply(text, turnId), callId)
  {}

  lemma ClosingCountsNothing(turnId: string, stop: StopReason, replied: bool, callId: string)
    ensures Settlements(Closing(turnId, stop, replied), callId) == 0 == Cards(Closing(turnId, stop, replied), callId)
  {}

  lemma EndSettles(p: State, turnId: string, stop: StopReason, callId: string)
    ensures Settlements(Ended(p, turnId, stop).1, callId) == IsOpen(p, callId)
    ensures Cards(Ended(p, turnId, stop).1, callId) == 0
  {
    var expired := Expired(Sorted(p.open), turnId);
    var reply := Reply(p.answer, turnId);
    ExpiredSettlesEachOnce(p.open, turnId, callId);
    ReplyCountsNothing(p.answer, turnId, callId);
    ClosingCountsNothing(turnId, stop, p.replied || p.answer != "", callId);
    CountsConcat(expired, reply, callId);
    CountsConcat(expired + reply, Closing(turnId, stop, p.replied || p.answer != ""), callId);
  }

  lemma ToolCallCounts(options: Options, p: State, callId: string, name: string, c: string)
    ensures Settlements(OnToolCall(options, p, callId, name).1, c) ==
        0 == Cards(OnToolCall(options, p, callId, name).1, c)
  {
    var hint := if options.sendToolHints then [MakeDraft(p, Delivery.Notice, "Running " + name)] else [];
    CountsConcat(hint,
        if options.sendProgress && p.answer != "" then [MakeDraft(p, Delivery.Progress, p.answer)] else [], c);
  }

  lemma NestedSettles(options: Options, p: State, who: string, nested: Nested, callId: string)
    ensures var (after, drafts) := OnSubagent(options, p, who, nested);
      var asks := nested.NestedApproval? && nested.request.callId == callId;
      && Settlements(drafts, callId) + IsOpen(after, callId) ==
          IsOpen(p, callId) + (if asks && callId !in p.open then 1 else 0)
      && Cards(drafts, callId) == (if asks then 1 else 0)
  {}

  lemma EventSettles(options: Options, p: State, event: Event, callId: string)
    requires !event.TurnStart?
    ensures var (after, drafts) := Project(options, p, event);
      && Settlements(drafts, callId) + IsOpen(after, callId)
         == IsOpen(p, callId) + (if Asks(event, callId) && callId !in p.open then 1 else 0)
      && Cards(drafts, callId) == (if Asks(event, callId) then 1 else 0)
  {
    if event.ToolCall? {
      ToolCallCounts(options, p, event.callId, event.name, callId);
    } else if event.TurnEnd? {
      EndSettles(p, event.turnId, event.stop, callId);
    } else if event.StepEnd? || event.AssistantDelta? {
      assert IsOpen(Project(options, p, event).0, callId) == IsOpen(p, callId);
    } else if event.Subagent? {
      NestedSettles(options, p, event.who, event.nested, callId);
    } else if event.Noticed? {
      assert |SayNotice(p, event.notice).1| == 1;
    }
  }

  /**
   At every point of a turn, each opening of an approval has been settled once or is open still. So an
   approval is settled only while open, and never twice for one opening.
   */
  lemma {:induction false} ApprovalsSettleOnce(options: Options, p: State, events: seq<Event>, callId: string)
    requires forall event :: event in events ==> !event.TurnStart?
    ensures var (after, drafts) := Run(options, p, events);
      && Settlements(drafts, callId) + IsOpen(after, callId) == IsOpen(p, callId) + Openings(options, p, events, callId)
      && Cards(drafts, callId) == Asked(events, callId)
      && Openings(options, p, events, callId) <= Asked(events, callId)
  {
    if events != [] {
      var before := events[..|events| - 1];
      ApprovalsSettleOnce(options, p, before, callId);
      var (mid, said) := Run(options, p, before);
      EventSettles(options, mid, events[|events| - 1], callId);
      CountsConcat(said, Project(options, mid, events[|events| - 1]).1, callId);
    }
  }

  lemma {:induction false} FirstAskOpens(options: Options, p: State, events: seq<Event>, callId: string)
    requires forall event :: event in events ==> !event.TurnStart?
    requires callId !in p.open
    ensures Asked(events, callId) > 0 ==> Openings(options, p, events, callId) > 0
  {
    if events != [] {
      var before := events[..|events| - 1];
      FirstAskOpens(options, p, before, callId);
      ApprovalsSettleOnce(options, p, before, callId);
    }
  }

  /** A call asked about at most once is settled exactly as often as it was asked about, by the end of its turn. */
  lemma SettledByTurnEnd(options: Options, events: seq<Event>, started: string, turnId: string, stop: StopReason,
        callId: string)
    requires forall event :: event in events ==> !event.TurnStart? && !event.TurnEnd?
    requires Asked(events, callId) <= 1
    ensures var drafts := Run(options, Begun(started), events + [TurnEnd(turnId, stop)]).1;
      Settlements(drafts, callId) == Asked(events, callId) == Cards(drafts, callId)
  {
    var whole := events + [TurnEnd(turnId, stop)];
    assert whole[..|whole| - 1] == events;
    ApprovalsSettleOnce(options, Begun(started), whole, callId);
    FirstAskOpens(options, Begun(started), events, callId);
  }

  // ------------------------------------------------------------- what the delivery queue is promised

  /** A draft as the manager addresses it. */
  function Addressed(draft: Draft, sessionKey: string): Delivery.Message {
    Delivery.Message(
      draft.kind, sessionKey, draft.turnId,
      if draft.detail.ApprovalCard? then Some(draft.detail.callId) else None,
      if draft.detail.Settled? then Some(draft.detail.callId) else None,
      draft.text)
  }

  function AllAddressed(drafts: seq<Draft>, sessionKey: string): (r: seq<Delivery.Message>)
    ensures |r| == |drafts|
  {
    seq(|drafts|, i requires 0 <= i < |drafts| => Addressed(drafts[i], sessionKey))
  }

  /** How many messages of a session ask for the approval of `callId`. */
  function CardsFor(messages: seq<Delivery.Message>, sessionKey: string, callId: string): nat {
    if messages == [] then 0
    else (if IsCardFor(messages[0], sessionKey, callId) then 1 else 0) + CardsFor(messages[1..], sessionKey, callId)
  }

  predicate IsCardFor(message: Delivery.Message, sessionKey: string, callId: string) {
    message.sessionKey == sessionKey && Delivery.CardOf(message) == Some(callId)
  }

  lemma {:induction false} OneCard(messages: seq<Delivery.Message>, i: nat, sessionKey: string, callId: string)
    requires i < |messages| && IsCardFor(messages[i], sessionKey, callId)
    ensures CardsFor(messages, sessionKey, callId) >= 1
  {
    if i > 0 {
      OneCard(messages[1..], i - 1, sessionKey, callId);
    }
  }

  lemma {:induction false} TwoCards(messages: seq<Delivery.Message>, i: nat, j: nat, sessionKey: string, callId: string)
    requires i < j < |messages|
    requires IsCardFor(messages[i], sessionKey, callId) && IsCardFor(messages[j], sessionKey, callId)
    ensures CardsFor(messages, sessionKey, callId) >= 2
  {
    if i == 0 {
      OneCard(messages[1..], j - 1, sessionKey, callId);
    } else {
      TwoCards(messages[1..], i - 1, j - 1, sessionKey, callId);
    }
  }

  /** In any stream, turns begun and ended in it included, a call gets as many cards as it is asked about. */
  lemma {:induction false} CardsAreAsked(options: Options, p: State, events: seq<Event>, callId: string)
    ensures Cards(Run(options, p, events).1, callId) == Asked(events, callId)
  {
    if events != [] {
      var before, last := events[..|events| - 1], events[|events| - 1];
      CardsAreAsked(options, p, before, callId);
      var (mid, said) := Run(options, p, before);
      if !last.TurnStart? {
        EventSettles(options, mid, last, callId);
      }
      CountsConcat(said, Project(options, mid, last).1, callId);
    }
  }

  lemma {:induction false} AddressedCards(drafts: seq<Draft>, sessionKey: string, callId: string)
    ensures CardsFor(AllAddressed(drafts, sessionKey), sessionKey, callId) <= Cards(drafts, callId)
  {
    if drafts != [] {
      AddressedCards(drafts[1..], sessionKey, callId);
      assert AllAddressed(drafts, sessionKey)[1..] == AllAddressed(drafts[1..], sessionKey);
    }
  }

  /** What one session pushed, in order. */
  function OfSession(pushed: seq<Delivery.Message>, sessionKey: string): seq<Delivery.Message> {
    Filter(pushed, (message: Delivery.Message) => message.sessionKey == sessionKey)
  }

  lemma {:induction false} SessionCards(pushed: seq<Delivery.Message>, sessionKey: string, callId: string)
    ensures CardsFor(pushed, sessionKey, callId) == CardsFor(OfSession(pushed, sessionKey), sessionKey, callId)
  {
    if pushed != [] {
      var rest := OfSession(pushed[1..], sessionKey);
      SessionCards(pushed[1..], sessionKey, callId);
      if pushed[0].sessionKey == sessionKey {
        assert OfSession(pushed, sessionKey) == [pushed[0]] + rest;
        assert OfSession(pushed, sessionKey)[1..] == rest;
      } else {
        assert OfSession(pushed, sessionKey) == [] + rest == rest;
      }
    }
  }

  /** Every session's messages are what the projection of its stream says, where no call is asked about twice. */
  ghost predicate Projected(options: Options, starts: string -> State, streams: string -> seq<Event>,
        pushed: seq<Delivery.Message>) {
    && (forall sessionKey ::
          OfSession(pushed, sessionKey)
          == AllAddressed(Run(options, starts(sessionKey), streams(sessionKey)).1, sessionKey))
    && (forall sessionKey, callId :: Asked(streams(sessionKey), callId) <= 1)
  }

  /** What the queue needs of all that is pushed, over any turns of any sessions interleaved: no card comes twice. */
  lemma CardsAreUnique(options: Options, starts: string -> State, streams: string -> seq<Event>,
        pushed: seq<Delivery.Message>)
    requires Projected(options, starts, streams, pushed)
    ensures Delivery.UniqueCards(pushed)
  {
    forall i, j | 0 <= i < j < |pushed| && Delivery.CardOf(pushed[i]).Some? &&
        pushed[i].sessionKey == pushed[j].sessionKey
      ensures Delivery.CardOf(pushed[i]) != Delivery.CardOf(pushed[j])
    {
      var sessionKey, callId := pushed[i].sessionKey, Delivery.CardOf(pushed[i]).value;
      var drafts := Run(options, starts(sessionKey), streams(sessionKey)).1;
      CardsAreAsked(options, starts(sessionKey), streams(sessionKey), callId);
      AddressedCards(drafts, sessionKey, callId);
      SessionCards(pushed, sessionKey, callId);
      assert OfSession(pushed, sessionKey) == AllAddressed(drafts, sessionKey);
      if Delivery.CardOf(pushed[i]) == Delivery.CardOf(pushed[j]) {
        TwoCards(pushed, i, j, sessionKey, callId);
      }
    }
  }

  /** So whatever sheds and evicts, a queued card of any session's turns keeps every update that settles it. */
  lemma CardsReachTheChannelWithTheirUpdates(options: Options, starts: string -> State, streams: string -> seq<Event>,
        events: seq<Delivery.Event>, card: Delivery.Entry, ticket: nat)
    requires var q := Delivery.Run(events).queue;
      && Projected(options, starts, streams, q.pushed)
      && card in q.items && card.ticket < ticket < |q.pushed| && Delivery.Answers(q.pushed[ticket], card.message)
    ensures var q := Delivery.Run(events).queue; Delivery.Entry(ticket, q.pushed[ticket]) in q.items
  {
    CardsAreUnique(options, starts, streams, Delivery.Run(events).queue.pushed);
    Delivery.CardsKeepTheirUpdates(events, card, ticket);
  }

  // ------------------------------------------------------------- the projection itself

  class TurnProjection {
    const options: Options
    var answer: string
    var replied: bool
    var turnId: Option<string>
    var tools: map<string, string>
    var open: set<string>

    ghost function Contents(): State
      reads this
    {
      State(answer, replied, turnId, tools, open)
    }

    constructor (options: Options)
      ensures this.options == options && Contents() == FRESH
    {
      this.options := options;
      answer, replied, turnId, tools, open := "", false, None, map[], {};
    }

    method Begin(started: string)
      modifies this
      ensures Contents() == Begun(started)
    {
      answer, replied, turnId, tools, open := "", false, Some(started), map[], {};
    }

    method Approval(request: Request) returns (drafts: seq<Draft>)
      modifies this`open
      ensures (Contents(), drafts) == Approve(old(Contents()), request)
    {
      open := open + {request.callId};
      drafts := [Draft(Delivery.Notice, request.name + " needs approval before it can run.",
                       Some(request.turnId), ApprovalCard(request.callId))];
    }

    method Say(notice: Notice) returns (drafts: seq<Draft>)
      modifies this`open
      ensures (Contents(), drafts) == SayNotice(old(Contents()), notice)
    {
      var draft := Draft(Delivery.Notice, notice.message, turnId, Plain);
      if notice.callId.Some? && notice.denied && notice.callId.value in open {
        open := open - {notice.callId.value};
        draft := draft.(detail := Settled(notice.callId.value));
      }
      drafts := [draft];
    }

    method Settle(callId: string) returns (drafts: seq<Draft>)
      modifies this`open
      ensures (Contents(), drafts) == MovedOn(old(Contents()), callId)
    {
      if callId !in open {
        return [];
      }
      open := open - {callId};
      drafts := [Draft(Delivery.Update, "No longer waiting for an answer.", turnId, Settled(callId))];
    }

    method StartTool(callId: string, name: string) returns (drafts: seq<Draft>)
      modifies this`tools
      ensures (Contents(), drafts) == OnToolCall(options, old(Contents()), callId, name)
    {
      tools := tools[callId := name];
      var hint := if options.sendToolHints then [Draft(Delivery.Notice, "Running " + name, turnId, Plain)] else [];
      var progress :=
        if options.sendProgress && answer != "" then [Draft(Delivery.Progress, answer, turnId, Plain)] else [];
      drafts := hint + progress;
    }

    method FinishTool(callId: string, ok: bool) returns (drafts: seq<Draft>)
      modifies this`open
      ensures (Contents(), drafts) == OnToolResult(options, old(Contents()), callId, ok)
    {
      drafts := Settle(callId);
      if drafts != [] || !options.sendToolHints || ok {
        return;
      }
      var name := if callId in tools then tools[callId] else "a tool";
      drafts := [Draft(Delivery.Notice, name + " failed.", turnId, Plain)];
    }

    method FinishStep(ofTurn: string) returns (drafts: seq<Draft>)
      modifies this`answer, this`replied
      ensures (Contents(), drafts) == Project(options, old(Contents()), StepEnd(ofTurn))
    {
      var text := answer;
      answer := "";
      if text == "" {
        return [];
      }
      replied := true;
      drafts := [Draft(Delivery.Reply, text, Some(ofTurn), Plain)];
    }

    method End(ofTurn: string, stop: StopReason) returns (drafts: seq<Draft>)
      modifies this
      ensures (Contents(), drafts) == Ended(old(Contents()), ofTurn, stop)
    {
      var text, posted, waiting := answer, replied || answer != "", Sorted(open);
      answer, replied, open := "", false, {};
      drafts := Expired(waiting, ofTurn);
      if text != "" {
        drafts := drafts + [Draft(Delivery.Reply, text, Some(ofTurn), Plain)];
      } else {
        assert drafts + [] == drafts;
      }
      var notice := StopNotice(stop, posted);
      if notice.Some? {
        drafts := drafts + [Draft(Delivery.Notice, notice.value, Some(ofTurn), Plain)];
      } else {
        assert drafts + [] == drafts;
      }
      turnId, tools := None, map[];
    }

    method ProjectNested(who: string, nested: Nested) returns (drafts: seq<Draft>)
      modifies this`open
      ensures (Contents(), drafts) == OnSubagent(options, old(Contents()), who, nested)
    {
      match nested
      case NestedApproval(request) => drafts := Approval(request);
      case NestedNotice(notice) =>
        if SettlesOpen(State(answer, replied, turnId, tools, open), notice).Some? {
          drafts := Say(notice);
        } else {
          drafts := [];
        }
      case NestedProgress(callId) => drafts := Settle(callId);
      case NestedResult(callId) => drafts := Settle(callId);
      case NestedTurnStart =>
        drafts := if options.sendToolHints then [Draft(Delivery.Notice, "Asking " + who, turnId, Plain)] else [];
      case NestedTurnEnd =>
        drafts := if options.sendToolHints then [Draft(Delivery.Notice, who + " finished.", turnId, Plain)] else [];
      case NestedOther => drafts := [];
    }

    /** One event: the fields and the drafts become what `Project` says. */
    method Handle(event: Event) returns (drafts: seq<Draft>)
      modifies this
      ensures (Contents(), drafts) == Project(options, old(Contents()), event)
    {
      drafts := [];
      match event
      case TurnStart(started) => Begin(started);
      case AssistantDelta(text) => answer := answer + text;
      case ToolCall(callId, name) => drafts := StartTool(callId, name);
      case ToolProgress(callId) => drafts := Settle(callId);
      case ToolResult(callId, ok) => drafts := FinishTool(callId, ok);
      case ApprovalRequest(request) => drafts := Approval(request);
      case SessionCompacted(key) =>
        drafts := [Draft(Delivery.Notice, "This session was summarised into a new one.", turnId, Continued(key))];
      case Noticed(notice) => drafts := Say(notice);
      case Subagent(who, nested) => drafts := ProjectNested(who, nested);
      case MessageQueued => drafts := [Draft(Delivery.Notice, "Queued behind other messages.", turnId, Plain)];
      case Failed(message, ofTurn, ofCall) =>
        drafts := [Draft(Delivery.Error, message, if ofTurn.Some? then ofTurn else turnId,
                         if ofCall.Some? then ErrorFor(ofCall.value) else Plain)];
      case StepEnd(ofTurn) => drafts := FinishStep(ofTurn);
      case TurnEnd(ofTurn, stop) => drafts := End(ofTurn, stop);
      case Unseen =>
    }
  }
}
