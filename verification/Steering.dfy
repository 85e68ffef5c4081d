/**
 Mid-turn steering (crates/agent/src/steering.rs) and its one reader, `drain_steering`
 (crates/agent/src/agent_loop.rs): peek, write, then pop, while anyone may push in between.

 A `Lane` is one session's queue with a history of what was accepted and what became of it.
 */
module Steering {
  import opened Common
  import opened Messages

  const STEERING_PREFIX := "[Steering: sent by the user while this task was running]"

  /** `posted` marks a message of the server's own; the others were typed. */
  datatype SteeringMessage = SteeringMessage(id: string, content: string, sender: string, posted: bool)

  /** A person's steer is marked as one; a message of the server's own is stored as it is. */
  function SteeringText(message: SteeringMessage): string {
    if message.posted then message.content else STEERING_PREFIX + "\n\n" + message.content
  }

  function SteerRow(message: SteeringMessage): ChatMessage {
    User([Text(SteeringText(message))])
  }

  /**
   A typed steer reads as one in history, a message of the server's own as it came; and neither loses a letter:
   texts of the same origin are the same exactly when the messages say the same.
   */
  lemma SteersAreMarked(a: SteeringMessage, b: SteeringMessage)
    ensures SteerRow(a) == User([Text(
        (if a.posted then "" else "[Steering: sent by the user while this task was running]\n\n") + a.content)])
    ensures a.posted == b.posted ==> (SteeringText(a) == SteeringText(b) <==> a.content == b.content)
  {
    var mark := STEERING_PREFIX + "\n\n";
    assert mark == "[Steering: sent by the user while this task was running]\n\n";
    assert "" + a.content == a.content;
    assert (mark + a.content)[|mark|..] == a.content && (mark + b.content)[|mark|..] == b.content;
  }

  /** Where the session's reader stands in its peek, write, pop. */
  datatype Reader = Idle | Peeked(message: SteeringMessage) | Wrote(message: SteeringMessage)

  /** What became of an accepted steer: written to history, or handed back by `close`. */
  datatype Fate = Written(message: SteeringMessage) | HandedBack(message: SteeringMessage)

  datatype Lane = Lane(
    open: bool, queue: seq<SteeringMessage>, reader: Reader,
    accepted: seq<SteeringMessage>, settled: seq<Fate>)

  const SHUT := Lane(false, [], Idle, [], [])

  datatype Event = Open | Close | Push(message: SteeringMessage) | Peek | Append(ok: bool) | Pop

  function AllHandedBack(queue: seq<SteeringMessage>): (r: seq<Fate>)
    ensures |r| == |queue|
  {
    seq(|queue|, i requires 0 <= i < |queue| => HandedBack(queue[i]))
  }

  /** One event of a session. Nothing stops a close, a peek or a pop that comes at a bad moment. */
  function Step(lane: Lane, event: Event): Lane {
    match event
    case Open => if lane.open then lane else lane.(open := true, queue := [])
    case Close => lane.(open := false, queue := [], settled := lane.settled + AllHandedBack(lane.queue))
    case Push(message) =>
      if !lane.open then lane
      else lane.(queue := lane.queue + [message], accepted := lane.accepted + [message])
    case Peek => if lane.queue == [] then lane else lane.(reader := Peeked(lane.queue[0]))
    case Append(ok) =>
      if !lane.reader.Peeked? then lane
      else if ok then
        lane.(reader := Wrote(lane.reader.message), settled := lane.settled + [Written(lane.reader.message)])
      else lane.(reader := Idle)
    case Pop =>
      lane.(reader := if lane.reader.Wrote? then Idle else lane.reader,
            queue := if lane.queue == [] then [] else lane.queue[1..])
  }

  function MessagesOf(settled: seq<Fate>): (r: seq<SteeringMessage>)
    ensures |r| == |settled|
  {
    seq(|settled|, i requires 0 <= i < |settled| => settled[i].message)
  }

  /** What has no fate yet: the queue, less a steer already written and not yet popped. */
  function Waiting(lane: Lane): seq<SteeringMessage> {
    if lane.reader.Wrote? && lane.queue != [] then lane.queue[1..] else lane.queue
  }

  /** Every accepted steer is settled once or still waits once, all in the order they were accepted. */
  ghost predicate ExactlyOnce(lane: Lane) {
    lane.accepted == MessagesOf(lane.settled) + Waiting(lane)
  }

  ghost predicate Sound(lane: Lane) {
    && ExactlyOnce(lane)
    && (!lane.open ==> lane.queue == [])
    && (lane.reader != Idle ==> lane.queue != [] && lane.queue[0] == lane.reader.message)
  }

  /** A close finds the reader between steers, a pop follows a write, and no second peek comes before that pop. */
  predicate InTime(lane: Lane, event: Event) {
    match event
    case Close => lane.reader == Idle
    case Peek => !lane.reader.Wrote?
    case Pop => lane.reader.Wrote? || lane.queue == []
    case _ => true
  }

  lemma StepKeeps(lane: Lane, event: Event)
    requires Sound(lane) && InTime(lane, event)
    ensures Sound(Step(lane, event))
  {
    var after := Step(lane, event);
    match event
    case Push(message) => assert lane.open ==> Waiting(after) == Waiting(lane) + [message];
    case Append(_) => AppendKeeps(lane, event.ok);
    case Close => assert MessagesOf(after.settled) == MessagesOf(lane.settled) + lane.queue;
    case _ =>
  }

  lemma AppendKeeps(lane: Lane, ok: bool)
    requires Sound(lane)
    ensures Sound(Step(lane, Append(ok)))
  {
    if lane.reader.Peeked? && ok {
      var after := Step(lane, Append(ok));
      assert MessagesOf(after.settled) == MessagesOf(lane.settled) + [lane.queue[0]];
      assert lane.queue == [lane.queue[0]] + lane.queue[1..];
    }
  }

  lemma CountsWhenExact(lane: Lane)
    requires ExactlyOnce(lane)
    ensures |lane.accepted| == |lane.settled| + |Waiting(lane)|
  {}

  /** A steer is lost or repeated, at once or when the reader's write succeeds: the counts no longer agree. */
  lemma LateBreaks(lane: Lane, event: Event)
    requires Sound(lane) && !InTime(lane, event)
    ensures var after := Step(lane, event); !(ExactlyOnce(after) && ExactlyOnce(Step(after, Append(true))))
  {
    CountsWhenExact(lane);
    var after := Step(lane, event);
    var written := Step(after, Append(true));
    assert |written.accepted| != |written.settled| + |Waiting(written)| ||
      |after.accepted| != |after.settled| + |Waiting(after)|;
  }

  /**
   When an event is safe: every steer stays settled or waiting exactly once, now and when the reader's
   write succeeds, exactly when the event is in time. A close is in time only while nothing is being read.
   */
  lemma SafeExactlyInTime(lane: Lane, event: Event)
    requires Sound(lane)
    ensures var after := Step(lane, event);
      InTime(lane, event) <==> ExactlyOnce(after) && ExactlyOnce(Step(after, Append(true)))
  {
    if InTime(lane, event) {
      StepKeeps(lane, event);
      StepKeeps(Step(lane, event), Append(true));
    } else {
      LateBreaks(lane, event);
    }
  }

  /** Every session's lane; a session never mentioned is shut. */
  type Desk = map<string, Lane>

  function LaneOf(desk: Desk, session: string): Lane {
    if session in desk then desk[session] else SHUT
  }

  ghost function Run(events: seq<(string, Event)>): Desk {
    if events == [] then map[]
    else
      var desk := Run(events[..|events| - 1]);
      var (session, event) := events[|events| - 1];
      desk[session := Step(LaneOf(desk, session), event)]
  }

  /** The premise on a run: each event of `session` comes in time. One reader, closed after its turn, sees to it. */
  ghost predicate AllInTime(events: seq<(string, Event)>, session: string) {
    forall i :: 0 <= i < |events| && events[i].0 == session ==>
      InTime(LaneOf(Run(events[..i]), session), events[i].1)
  }

  /**
   Over any interleaving of any number of sessions in which this one's events come in time: accepted
   pushes are the steers written or handed back, then the ones still queued, in order and each once. A
   write that fails leaves its steer first in the queue, and pushes between a peek and its pop are never
   lost.
   */
  lemma {:induction false} SteeringIsExactlyOnce(events: seq<(string, Event)>, session: string)
    requires AllInTime(events, session)
    ensures var lane := LaneOf(Run(events), session);
      && ExactlyOnce(lane)
      && (lane.reader.Peeked? ==> lane.queue != [] && Step(lane, Append(false)).queue[0] == lane.reader.message)
      && (!lane.open ==> lane.accepted == MessagesOf(lane.settled))
  {
    RunKeeps(events, session);
  }

  lemma {:induction false} RunKeeps(events: seq<(string, Event)>, session: string)
    requires AllInTime(events, session)
    ensures Sound(LaneOf(Run(events), session))
  {
    if events != [] {
      var front, last := events[..|events| - 1], events[|events| - 1];
      forall i | 0 <= i < |front| && front[i].0 == session
        ensures InTime(LaneOf(Run(front[..i]), session), front[i].1)
      {
        assert front[..i] == events[..i] && front[i] == events[i];
      }
      RunKeeps(front, session);
      if last.0 == session {
        StepKeeps(LaneOf(Run(front), session), last.1);
      }
    }
  }

  /** A lane after some events of its own. */
  function After(lane: Lane, events: seq<Event>): Lane
    decreases |events|
  {
    if events == [] then lane else After(Step(lane, events[0]), events[1..])
  }

  predicate EachInTime(lane: Lane, events: seq<Event>)
    decreases |events|
  {
    events == [] || (InTime(lane, events[0]) && EachInTime(Step(lane, events[0]), events[1..]))
  }

  lemma {:induction false} AfterKeeps(lane: Lane, events: seq<Event>)
    requires Sound(lane) && EachInTime(lane, events)
    ensures Sound(After(lane, events))
    decreases |events|
  {
    if events != [] {
      StepKeeps(lane, events[0]);
      AfterKeeps(Step(lane, events[0]), events[1..]);
    }
  }

  lemma {:induction false} AfterConcat(lane: Lane, a: seq<Event>, b: seq<Event>)
    ensures After(lane, a + b) == After(After(lane, a), b)
    ensures EachInTime(lane, a + b) <==> EachInTime(lane, a) && EachInTime(After(lane, a), b)
    decreases |a|
  {
    if a == [] {
      assert a + b == b;
    } else {
      AfterConcat(Step(lane, a[0]), a[1..], b);
      assert (a + b)[1..] == a[1..] + b;
    }
  }

  /** A close between a write and its pop hands a written steer back; one before the write lets it be written too. */
  lemma ClosingTooEarlyRepeatsASteer(message: SteeringMessage)
    ensures var peeked := Step(Step(Step(SHUT, Open), Push(message)), Peek);
      && peeked.accepted == [message]
      && MessagesOf(Step(Step(peeked, Append(true)), Close).settled) == [message, message]
      && MessagesOf(Step(Step(peeked, Close), Append(true)).settled) == [message, message]
  {
    var peeked := Step(Step(Step(SHUT, Open), Push(message)), Peek);
    assert peeked == Lane(true, [message], Peeked(message), [message], []);
    assert AllHandedBack([message]) == [HandedBack(message)];
    assert Step(Step(peeked, Append(true)), Close).settled == [Written(message), HandedBack(message)];
    assert Step(Step(peeked, Close), Append(true)).settled == [HandedBack(message), Written(message)];
  }

  // ------------------------------------------------------------- the queue itself

  class SteeringQueue {
    var queues: map<string, seq<SteeringMessage>>
    ghost var desk: Desk

    ghost predicate Valid()
      reads this
    {
      forall session :: var lane := LaneOf(desk, session);
        && (!lane.open ==> lane.queue == [])
        && (session in queues <==> lane.open)
        && (session in queues ==> queues[session] == lane.queue)
    }

    /** `session` took `event`, and no other session changed. */
    twostate predicate Took(session: string, event: Event)
      reads this
    {
      desk == old(desk)[session := Step(LaneOf(old(desk), session), event)]
    }

    constructor ()
      ensures Valid() && desk == map[]
    {
      queues, desk := map[], map[];
    }

    ghost method Record(session: string, event: Event)
      modifies this`desk
      ensures Took(session, event)
      ensures forall other :: other != session ==> LaneOf(desk, other) == LaneOf(old(desk), other)
    {
      desk := desk[session := Step(LaneOf(desk, session), event)];
    }

    method Open(session: string)
      requires Valid()
      modifies this
      ensures Valid() && Took(session, Event.Open)
    {
      Record(session, Event.Open);
      if session !in queues {
        queues := queues[session := []];
      }
    }

    /** Shuts the session and returns its queue, whatever a reader is doing with the front of it. */
    method Close(session: string) returns (unread: seq<SteeringMessage>)
      requires Valid()
      modifies this
      ensures Valid() && Took(session, Event.Close)
      ensures unread == LaneOf(old(desk), session).queue && session !in queues
    {
      Record(session, Event.Close);
      unread := if session in queues then queues[session] else [];
      queues := queues - {session};
    }

    /** Refused, and nothing changed, unless a turn of this session is open. */
    method Push(session: string, message: SteeringMessage) returns (accepted: bool)
      requires Valid()
      modifies this
      ensures Valid() && Took(session, Event.Push(message))
      ensures accepted == LaneOf(old(desk), session).open
    {
      Record(session, Event.Push(message));
      if session !in queues {
        return false;
      }
      queues := queues[session := queues[session] + [message]];
      return true;
    }

    method HasPending(session: string) returns (pending: bool)
      requires Valid()
      ensures pending <==> LaneOf(desk, session).queue != []
    {
      pending := session in queues && |queues[session]| > 0;
    }

    /** The front of the session's queue, if any; the queue does not change. */
    method Peek(session: string) returns (message: Option<SteeringMessage>)
      requires Valid()
      modifies this`desk
      ensures Valid() && Took(session, Event.Peek)
      ensures var queue := LaneOf(old(desk), session).queue;
        message == if queue == [] then None else Some(queue[0])
    {
      Record(session, Event.Peek);
      if session !in queues || queues[session] == [] {
        return None;
      }
      return Some(queues[session][0]);
    }

    /** Drops the front of the session's queue; nothing when there is no such queue or it is empty. */
    method Pop(session: string)
      requires Valid()
      modifies this
      ensures Valid() && Took(session, Event.Pop)
    {
      Record(session, Event.Pop);
      if session in queues && queues[session] != [] {
        queues := queues[session := queues[session][1..]];
      }
    }
  }
}
