/**
 What becomes of each message of a delivery queue when one more is pushed (crates/channels/src/delivery.rs):
 stated on the messages' own fields, for every sound queue.
 */
module PushFates {
  import opened Common
  import opened Delivery

  // ------------------------------------------------------------- which messages go

  /** A progress message of the very turn that `incoming` goes on with, or ends. */
  predicate Repeated(incoming: Message, queued: Message) {
    && incoming.kind in {Progress, Reply} && queued.kind == Progress
    && queued.sessionKey == incoming.sessionKey && queued.turnId == incoming.turnId
  }

  /** A card waits in the queue for the approval `update` settles. */
  ghost predicate CardWaits(items: seq<Entry>, update: Message) {
    exists e :: e in items && e.message.kind == Notice && e.message.sessionKey == update.sessionKey
      && e.message.approval == update.approvalSettled
  }

  /** An update that settles an approval whose card is not waiting to be sent. */
  ghost predicate Orphan(items: seq<Entry>, message: Message) {
    message.kind == Update && message.approvalSettled.Some? && !CardWaits(items, message)
  }

  ghost predicate SomeRepeated(items: seq<Entry>, incoming: Message) {
    exists e :: e in items && Repeated(incoming, e.message)
  }

  ghost predicate OldestOrphan(items: seq<Entry>, e: Entry) {
    && e in items && Orphan(items, e.message)
    && forall x :: x in items && x.ticket < e.ticket ==> !Orphan(items, x.message)
  }

  /** At the bound, the progress of the turn makes way; where there is none, the oldest orphaned update. */
  ghost predicate Goes(items: seq<Entry>, incoming: Message, e: Entry) {
    && |items| >= 256
    && if SomeRepeated(items, incoming) then Repeated(incoming, e.message) else OldestOrphan(items, e)
  }

  /** At the bound, with nothing to make way, an orphaned update is not queued at all. */
  ghost predicate Refused(items: seq<Entry>, incoming: Message) {
    && |items| >= 256 && !SomeRepeated(items, incoming) && Orphan(items, incoming)
    && forall e :: e in items ==> !Orphan(items, e.message)
  }

  /** Progress is given up first, then plain notices, then cards, then anything. */
  function Worth(message: Message): nat {
    match message.kind
    case Progress => 0
    case Notice => if message.approval.None? then 1 else 2
    case _ => 3
  }

  /** Of the messages that are worth least, the one that came first. */
  ghost predicate Least(items: seq<Entry>, e: Entry) {
    && e in items
    && forall x :: x in items ==>
         Worth(e.message) < Worth(x.message) || (Worth(e.message) == Worth(x.message) && e.ticket <= x.ticket)
  }

  /** `update` settles the approval that the card `v` asks for. */
  predicate SettlesCard(update: Message, v: Message) {
    && v.kind == Notice && v.approval.Some? && update.kind == Update
    && update.sessionKey == v.sessionKey && update.approvalSettled == v.approval
  }

  /** `after` is `before` without exactly those of its entries that are in `gone`, in the same order. */
  ghost predicate Without(before: seq<Entry>, gone: set<Entry>, after: seq<Entry>) {
    Increasing(after) && forall e :: e in after <==> e in before && e !in gone
  }

  /** One message was let go at the hard cap, and with a card the updates that settle it. */
  ghost predicate LetGo(before: seq<Entry>, gone: set<Entry>, v: Entry) {
    Least(before, v) && forall e :: e in gone <==> e in before && (e == v || SettlesCard(e.message, v.message))
  }

  /** `queued` is the queue with the message behind what stays; past the hard cap it is cut down to `items`. */
  ghost predicate CutDown(queued: seq<Entry>, dropped: set<Entry>, items: seq<Entry>) {
    if |queued| <= 1024 then dropped == {} && items == queued
    else (exists v :: LetGo(queued, dropped, v)) && Without(queued, dropped, items)
  }

  /** The message went behind what stayed. */
  ghost predicate QueuedLast(before: seq<Entry>, made: set<Entry>, queued: seq<Entry>, newest: Entry) {
    queued != [] && queued[|queued| - 1] == newest && Without(before, made, queued[..|queued| - 1])
  }

  /** What a push came to: `made` is the room made for the message and `dropped` what went at the hard cap. */
  ghost predicate PushCameTo(q: Queue, message: Message, r: Queue, wakes: bool, made: set<Entry>, dropped: set<Entry>) {
    var newest := Entry(|q.pushed|, message);
    && r.pushed == q.pushed + [message] && r.delivered == q.delivered
    && if Refused(q.items, message) then
         !wakes && r.items == q.items && r.over == q.over && r.shed == q.shed + {newest} && r.evicted == q.evicted
       else
         && wakes && r.shed == q.shed + made && r.evicted == q.evicted + dropped
         && (forall e :: e in made <==> e in q.items && Goes(q.items, message, e))
         && exists queued ::
              && QueuedLast(q.items, made, queued, newest) && CutDown(queued, dropped, r.items)
              && r.over == (q.over || |queued| > 256)
  }

  lemma OrphanIs(items: seq<Entry>, message: Message)
    ensures Orphan(items, message) <==> IsSheddableUpdate(items, message)
  {
    if Settles(message).Some? {
      forall e | e in items
        ensures Delivery.Answers(message, e.message) <==>
          e.message.kind == Notice && e.message.sessionKey == message.sessionKey
          && e.message.approval == message.approvalSettled
      {}
    }
  }

  /** Entries in order of their tickets are told apart by them. */
  lemma TicketsTell(items: seq<Entry>, i: nat, e: Entry)
    requires Increasing(items) && i < |items| && e in items
    ensures e.ticket < items[i].ticket <==> exists j :: 0 <= j < i && items[j] == e
    ensures e.ticket == items[i].ticket ==> e == items[i]
  {
    var k :| 0 <= k < |items| && items[k] == e;
    assert k < i || k == i || i < k;
  }

  /** Shedding makes the room that is to be made. */
  lemma ShedMakes(items: seq<Entry>, incoming: Message) returns (made: set<Entry>)
    requires Increasing(items) && |items| >= 256
    ensures var (room, queueIt) := AfterShed(items, incoming);
      && (queueIt <==> !Refused(items, incoming))
      && (queueIt ==>
            Without(items, made, room) && forall e :: e in made <==> e in items && Goes(items, incoming, e))
  {
    var (room, queueIt) := AfterShed(items, incoming);
    ShedRemoves(items, incoming);
    made := set e | e in items && e !in room;
    forall m: Message ensures Orphan(items, m) <==> IsSheddableUpdate(items, m) {
      OrphanIs(items, m);
    }
    if SomeRepeated(items, incoming) {
      RetainedMakes(items, incoming);
    } else {
      OrphanMakes(items, incoming);
    }
  }

  lemma {:induction false} SomeAreFiltered(items: seq<Entry>, keep: Entry -> bool)
    ensures |Filter(items, keep)| < |items| <==> exists e :: e in items && !keep(e)
  {
    if items != [] {
      SomeAreFiltered(items[1..], keep);
      assert items == [items[0]] + items[1..];
    }
  }

  lemma RetainedMakes(items: seq<Entry>, incoming: Message)
    requires Increasing(items) && |items| >= 256 && SomeRepeated(items, incoming)
    ensures var (room, queueIt) := AfterShed(items, incoming);
      queueIt && forall e :: e in items ==> (e !in room <==> Goes(items, incoming, e))
  {
    SomeAreFiltered(items, (e: Entry) => !Superseded(e.message, incoming));
    var e :| e in items && Repeated(incoming, e.message);
    assert !((e: Entry) => !Superseded(e.message, incoming))(e);
  }

  lemma OrphanMakes(items: seq<Entry>, incoming: Message)
    requires Increasing(items) && |items| >= 256 && !SomeRepeated(items, incoming)
    requires forall m: Message :: Orphan(items, m) <==> IsSheddableUpdate(items, m)
    ensures var (room, queueIt) := AfterShed(items, incoming);
      && (queueIt <==> !Refused(items, incoming))
      && (queueIt ==> forall e :: e in items ==> (e !in room <==> Goes(items, incoming, e)))
  {
    var keep := (e: Entry) => !Superseded(e.message, incoming);
    SomeAreFiltered(items, keep);
    assert Supersedes(incoming) ==> forall e :: e in items ==> keep(e);
    match Position(items, (e: Entry) => IsSheddableUpdate(items, e.message))
    case Some(at) =>
      RemoveAtThins(items, at);
      forall e | e in items ensures OldestOrphan(items, e) <==> e == items[at] {
        TicketsTell(items, at, e);
        assert items[at] in items;
      }
    case None =>
  }

  /** Eviction lets go of what is to go. */
  lemma EvictLetsGo(items: seq<Entry>) returns (dropped: set<Entry>)
    requires Increasing(items) && items != []
    ensures Without(items, dropped, AfterEvict(items)) && LetGo(items, dropped, items[Victim(items)])
  {
    var at := Victim(items);
    var v := items[at];
    var after := AfterEvict(items);
    EvictRemoves(items);
    RemoveAtThins(items, at);
    dropped := set e | e in items && e !in after;
    VictimIsTheOldestOfTheLeast(items);
    forall x | x in items
      ensures Worth(v.message) < Worth(x.message) || (Worth(v.message) == Worth(x.message) && v.ticket <= x.ticket)
    {
      TicketsTell(items, at, x);
    }
    forall e | e in items ensures e in dropped <==> e == v || SettlesCard(e.message, v.message) {
      assert SettlesCard(e.message, v.message) <==> CardOf(v.message).Some? && Delivery.Answers(e.message, v.message);
    }
  }

  lemma TrimCutsDown(q: Queue) returns (dropped: set<Entry>)
    requires Increasing(q.items) && q.items != []
    ensures var r := Trim(q);
      && CutDown(q.items, dropped, r.items) && r.evicted == q.evicted + dropped
      && r.pushed == q.pushed && r.delivered == q.delivered && r.shed == q.shed && r.over == q.over
  {
    dropped := {};
    if |q.items| > 1024 {
      dropped := EvictLetsGo(q.items);
      assert dropped == SetOf(q.items) - SetOf(Trim(q).items);
    }
  }

  lemma AppendQueues(q: Queue, message: Message, made: set<Entry>, room: seq<Entry>)
    requires Sound(q) && Without(q.items, made, room) && forall e :: e in made ==> e in q.items
    ensures var r := Append(q, room, message);
      && QueuedLast(q.items, made, r.items, Entry(|q.pushed|, message)) && Increasing(r.items)
      && r.shed == q.shed + made
  {
    var newest := Entry(|q.pushed|, message);
    var r := Append(q, room, message);
    assert r.items[..|r.items| - 1] == room;
    assert made == SetOf(q.items) - SetOf(room);
    forall e | e in room ensures e.ticket < newest.ticket {
      assert Kept(q, e);
      assert Filed(q, e);
    }
  }

  /** The room made for a message, below the bound and from there on. */
  lemma RoomIsMade(q: Queue, message: Message) returns (made: set<Entry>)
    requires Sound(q)
    ensures var (room, queueIt) := if |q.items| >= 256 then AfterShed(q.items, message) else (q.items, true);
      && (queueIt <==> !Refused(q.items, message))
      && (queueIt ==>
            Without(q.items, made, room) && forall e :: e in made <==> e in q.items && Goes(q.items, message, e))
  {
    made := {};
    if |q.items| >= 256 {
      made := ShedMakes(q.items, message);
    }
  }

  /**
   Every push. Below 256 messages it is queued behind the rest. From there on the progress its turn repeats makes
   way, all of it and nothing else; where there is none, the oldest update whose card is not waiting; where there
   is neither, a message that is itself such an update is refused and changes nothing. Past 1024 the oldest of
   the messages that are worth least goes, and with a card the updates that settle it. The rest stay in order.
   */
  lemma EveryPush(q: Queue, message: Message) returns (made: set<Entry>, dropped: set<Entry>)
    requires Sound(q)
    ensures var (r, wakes) := Pushed(q, message); PushCameTo(q, message, r, wakes, made, dropped)
  {
    made := RoomIsMade(q, message);
    var (room, queueIt) := if |q.items| >= 256 then AfterShed(q.items, message) else (q.items, true);
    dropped := {};
    if queueIt {
      AppendQueues(q, message, made, room);
      dropped := TrimCutsDown(Append(q, room, message));
      assert Pushed(q, message) == (Trim(Append(q, room, message)), true);
    } else {
      assert Pushed(q, message) == (Refuse(q, message), false);
    }
  }

  /** What is left once a turn's progress has made way: all the rest, and `newest` last. */
  ghost predicate TurnGone(before: seq<Entry>, newest: Entry, after: seq<Entry>) {
    && after != [] && |after| <= |before| && after[|after| - 1] == newest
    && forall e :: e in after[..|after| - 1] <==>
         e in before && !(e.message.kind == Progress && e.message.sessionKey == newest.message.sessionKey
                          && e.message.turnId == newest.message.turnId)
  }

  lemma RoomForTheTurn(q: Queue, message: Message, e: Entry)
    requires Sound(q) && |q.items| >= 256 && e in q.items && Repeated(message, e.message)
    ensures var (room, queueIt) := AfterShed(q.items, message);
      queueIt && TurnGone(q.items, Entry(|q.pushed|, message), Append(q, room, message).items)
  {
    var (room, _) := AfterShed(q.items, message);
    var keep := (x: Entry) => !Superseded(x.message, message);
    var made := ShedMakes(q.items, message);
    RetainedMakes(q.items, message);
    SomeAreFiltered(q.items, keep);
    assert !keep(e);
    assert |room| < |q.items|;
    assert Append(q, room, message).items[..|room|] == room;
  }

  /** Progress that a turn has gone past does not pile up: at the bound it goes, and everything else stays. */
  lemma SupersededProgressGoes(q: Queue, message: Message)
    requires Sound(q) && |q.items| >= 256 && message.kind in {Progress, Reply}
    requires exists e :: e in q.items && e.message.kind == Progress
               && e.message.sessionKey == message.sessionKey && e.message.turnId == message.turnId
    ensures var (r, wakes) := Pushed(q, message);
      wakes && TurnGone(q.items, Entry(|q.pushed|, message), r.items)
  {
    var e :| e in q.items && e.message.kind == Progress && e.message.sessionKey == message.sessionKey
             && e.message.turnId == message.turnId;
    RoomForTheTurn(q, message, e);
    var (room, queueIt) := AfterShed(q.items, message);
    assert Pushed(q, message) == (Trim(Append(q, room, message)), true);
  }

  /** A pop delivers the message at the front, and the flag falls once no more than 256 are left. */
  lemma EveryPop(q: Queue)
    ensures var r := Taken(q);
      && q.delivered + q.items == r.delivered + r.items
      && |r.items| == (if q.items == [] then 0 else |q.items| - 1)
      && (r.over <==> q.over && (q.items == [] || |r.items| > 256))
      && r.pushed == q.pushed && r.shed == q.shed && r.evicted == q.evicted
  {
    if q.items != [] {
      assert q.items == [q.items[0]] + q.items[1..];
    }
  }

  // ------------------------------------------------------------- wake-ups

  /** The messages an event queues: each of them owes the consumer one wake-up. */
  ghost function Queues(s: System, event: Event): nat {
    if event.Push? && !Refused(s.queue.items, event.message) then 1 else 0
  }

  /** Whether an event resumes a parked consumer while the channel is open. */
  function Resumes(s: System, event: Event): nat {
    if event.Wake? && s.consumer.Parked? && Step(s, event).consumer.Taking? && !s.closed then 1 else 0
  }

  ghost function QueuedBy(events: seq<Event>): nat {
    if events == [] then 0
    else var before := events[..|events| - 1]; QueuedBy(before) + Queues(Run(before), events[|events| - 1])
  }

  ghost function ResumedBy(events: seq<Event>): nat {
    if events == [] then 0
    else var before := events[..|events| - 1]; ResumedBy(before) + Resumes(Run(before), events[|events| - 1])
  }

  /** The wake-ups still to come. */
  function Owed(s: System): nat {
    s.owed + if s.permit then 1 else 0
  }

  lemma PushOwesOne(s: System, message: Message)
    requires Sound(s.queue)
    ensures Owed(Step(s, Push(message))) == Owed(s) + Queues(s, Push(message))
  {
    var made := RoomIsMade(s.queue, message);
  }

  lemma StepOwes(s: System, event: Event)
    requires Sound(s.queue)
    ensures Resumes(s, event) + Owed(Step(s, event)) <= Owed(s) + Queues(s, event)
  {
    if event.Push? {
      PushOwesOne(s, event.message);
    }
  }

  /**
   No wake-up is made up. While the channel is open a parked consumer resumes at most once for each message
   that was queued, and never for one that was refused.
   */
  lemma {:induction false} NoWakeupIsMadeUp(events: seq<Event>)
    ensures ResumedBy(events) + Owed(Run(events)) <= QueuedBy(events)
  {
    if events != [] {
      NoWakeupIsMadeUp(events[..|events| - 1]);
      RunKeeps(events[..|events| - 1]);
      StepOwes(Run(events[..|events| - 1]), events[|events| - 1]);
    }
  }
}
