/**
 One channel's delivery queue (crates/channels/src/delivery.rs).

 `Queue` is what the mutex guards, with a history of every push beside it. Each push is filed
 under a ticket, its position in push order, so that equal messages stay distinct. `System` adds
 the close token, the one-permit `Notify` and the program counters of a producer and the consumer,
 and its events interleave their steps in any order.
 */
module Delivery {
  import opened Common

  const DELIVERY_QUEUE_BOUND: nat := 256
  const DELIVERY_QUEUE_HARD_CAP: nat := 4 * DELIVERY_QUEUE_BOUND

  datatype Kind = Reply | Progress | Notice | Error | Update

  /** An outbound message, with the three metadata entries the queue reads. */
  datatype Message = Message(
    kind: Kind, sessionKey: string, turnId: Option<string>,
    approval: Option<string>, approvalSettled: Option<string>, text: string)

  datatype Entry = Entry(ticket: nat, message: Message)

  /** A card is a notice that names an approval. */
  function CardOf(message: Message): Option<string> {
    if message.kind != Notice then None else message.approval
  }

  /** `Some` exactly for an update that names the approval it answers. */
  function Settles(message: Message): Option<string> {
    if message.kind != Update then None else message.approvalSettled
  }

  predicate SameTurn(a: Message, b: Message) {
    a.sessionKey == b.sessionKey && a.turnId == b.turnId
  }

  /** `update` settles the approval `card` asks for. */
  predicate Answers(update: Message, card: Message) {
    && Settles(update).Some?
    && update.sessionKey == card.sessionKey
    && CardOf(card) == Settles(update)
  }

  predicate IsSheddableUpdate(items: seq<Entry>, message: Message) {
    Settles(message).Some? && !exists queued :: queued in items && Answers(message, queued.message)
  }

  /** A progress message that `incoming` makes redundant. */
  predicate Superseded(queued: Message, incoming: Message) {
    queued.kind == Progress && SameTurn(queued, incoming)
  }

  predicate Supersedes(incoming: Message) {
    incoming.kind == Progress || incoming.kind == Reply
  }

  // ------------------------------------------------------------- the locked steps

  /** What `shed` leaves at the bound, and whether the incoming message is still queued. */
  function AfterShed(items: seq<Entry>, incoming: Message): (seq<Entry>, bool) {
    var retained := Filter(items, (e: Entry) => !Superseded(e.message, incoming));
    if Supersedes(incoming) && |retained| < |items| then (retained, true)
    else match Position(items, (e: Entry) => IsSheddableUpdate(items, e.message))
      case Some(index) => (RemoveAt(items, index), true)
      case None => (items, !IsSheddableUpdate(items, incoming))
  }

  /** The message `evict` picks: oldest progress, oldest plain notice, oldest card, oldest of anything. */
  function Victim(items: seq<Entry>): (index: nat)
    requires items != []
    ensures index < |items|
  {
    match Position(items, (e: Entry) => e.message.kind == Progress)
    case Some(index) => index
    case None =>
      match Position(items, (e: Entry) => e.message.kind == Notice && CardOf(e.message).None?)
      case Some(index) => index
      case None =>
        match Position(items, (e: Entry) => CardOf(e.message).Some?)
        case Some(index) => index
        case None => 0
  }

  function AfterEvict(items: seq<Entry>): seq<Entry>
    requires items != []
  {
    var index := Victim(items);
    var dropped := items[index].message;
    var rest := RemoveAt(items, index);
    if CardOf(dropped).Some? then Filter(rest, (e: Entry) => !Answers(e.message, dropped)) else rest
  }

  datatype Queue = Queue(
    items: seq<Entry>, over: bool,
    pushed: seq<Message>, delivered: seq<Entry>, shed: set<Entry>, evicted: set<Entry>)

  const EMPTY := Queue([], false, [], [], {}, {})

  function SetOf(items: seq<Entry>): set<Entry> {
    set e | e in items
  }

  /** The incoming message is let go: nothing else changes. */
  function Refuse(q: Queue, message: Message): Queue {
    q.(pushed := q.pushed + [message], shed := q.shed + {Entry(|q.pushed|, message)})
  }

  /** `room` is what shedding kept; the incoming message goes behind it. */
  function Append(q: Queue, room: seq<Entry>, message: Message): Queue {
    var items := room + [Entry(|q.pushed|, message)];
    q.(items := items,
       over := q.over || |items| > DELIVERY_QUEUE_BOUND,
       pushed := q.pushed + [message],
       shed := q.shed + (SetOf(q.items) - SetOf(room)))
  }

  function Trim(q: Queue): Queue {
    if |q.items| <= DELIVERY_QUEUE_HARD_CAP then q
    else q.(items := AfterEvict(q.items),
            evicted := q.evicted + (SetOf(q.items) - SetOf(AfterEvict(q.items))))
  }

  /** `push` under the lock, and whether it goes on to wake the consumer. */
  function Pushed(q: Queue, message: Message): (Queue, bool) {
    var (room, queueIt) :=
      if |q.items| >= DELIVERY_QUEUE_BOUND then AfterShed(q.items, message) else (q.items, true);
    if !queueIt then (Refuse(q, message), false) else (Trim(Append(q, room, message)), true)
  }

  /** The first half of `next`: a pop under the lock. */
  function Taken(q: Queue): Queue {
    if q.items == [] then q
    else q.(items := q.items[1..],
            delivered := q.delivered + [q.items[0]],
            over := q.over && |q.items| - 1 > DELIVERY_QUEUE_BOUND)
  }

  // ------------------------------------------------------------- what every step keeps

  ghost predicate Increasing(s: seq<Entry>) {
    forall i, j :: 0 <= i < j < |s| ==> s[i].ticket < s[j].ticket
  }

  ghost predicate Before(a: seq<Entry>, b: seq<Entry>) {
    forall x, y :: x in a && y in b ==> x.ticket < y.ticket
  }

  ghost predicate Filed(q: Queue, e: Entry) {
    e.ticket < |q.pushed| && q.pushed[e.ticket] == e.message
  }

  ghost predicate Kept(q: Queue, e: Entry) {
    e in q.delivered || e in q.items
  }

  ghost predicate Ordered(q: Queue) {
    Increasing(q.delivered) && Increasing(q.items) && Before(q.delivered, q.items)
  }

  /** Every push has exactly one fate. */
  ghost predicate Accounted(q: Queue) {
    && (forall e :: Kept(q, e) || e in q.shed || e in q.evicted ==> Filed(q, e))
    && (forall t :: 0 <= t < |q.pushed| ==>
          var e := Entry(t, q.pushed[t]); Kept(q, e) || e in q.shed || e in q.evicted)
    && (forall e :: e in q.shed ==> e !in q.evicted && !Kept(q, e))
    && (forall e :: e in q.evicted ==> !Kept(q, e))
  }

  ghost predicate Bounded(q: Queue) {
    && |q.items| <= DELIVERY_QUEUE_HARD_CAP
    && (|q.items| > DELIVERY_QUEUE_BOUND ==> q.over)
  }

  /** `later` says everything the progress `e` said: the same turn, pushed after it. */
  ghost predicate Covers(later: Entry, e: Entry) {
    later.ticket > e.ticket && Supersedes(later.message) && SameTurn(e.message, later.message)
  }

  ghost predicate Covered(q: Queue, e: Entry) {
    exists later :: (Kept(q, later) || later in q.evicted) && Covers(later, e)
  }

  /** Only updates and progress are shed, and each shed progress is said again later. */
  ghost predicate ShedIsRedundant(q: Queue) {
    forall e :: e in q.shed ==>
      e.message.kind == Update || (e.message.kind == Progress && Covered(q, e))
  }

  ghost predicate UniqueCards(pushed: seq<Message>) {
    forall i, j :: 0 <= i < j < |pushed| && CardOf(pushed[i]).Some? && pushed[i].sessionKey == pushed[j].sessionKey
      ==> CardOf(pushed[i]) != CardOf(pushed[j])
  }

  /** Behind a queued card sits every update that settles it and was pushed after it. */
  ghost predicate Paired(q: Queue) {
    forall card, t :: card in q.items && card.ticket < t < |q.pushed| && Answers(q.pushed[t], card.message)
      ==> Entry(t, q.pushed[t]) in q.items
  }

  ghost predicate Sound(q: Queue) {
    Ordered(q) && Accounted(q) && Bounded(q) && ShedIsRedundant(q) && (UniqueCards(q.pushed) ==> Paired(q))
  }

  // ------------------------------------------------------------- removal, in general

  /** `after` is `before` with some entries taken out of it. */
  ghost predicate Thinned(before: seq<Entry>, after: seq<Entry>) {
    && (forall e :: e in after ==> e in before)
    && (Increasing(before) ==> Increasing(after))
    && |after| <= |before|
  }

  lemma {:induction false} FilterThins(s: seq<Entry>, keep: Entry -> bool)
    ensures Thinned(s, Filter(s, keep))
  {
    if s != [] && Increasing(s) {
      var rest := s[1..];
      FilterThins(rest, keep);
      assert Increasing(rest);
      FirstIsLeast(s[0], rest, Filter(rest, keep));
      assert s == [s[0]] + rest;
    }
  }

  lemma FirstIsLeast(first: Entry, rest: seq<Entry>, kept: seq<Entry>)
    requires Increasing([first] + rest) && Increasing(kept) && forall e :: e in kept ==> e in rest
    ensures Increasing([first] + kept)
  {
    forall e | e in kept ensures first.ticket < e.ticket {
      var i :| 0 <= i < |rest| && rest[i] == e;
      var whole := [first] + rest;
      assert whole[0] == first && whole[i + 1] == e;
    }
  }

  lemma RemoveAtThins(s: seq<Entry>, at: nat)
    requires at < |s|
    ensures Thinned(s, RemoveAt(s, at)) && |RemoveAt(s, at)| == |s| - 1
    ensures forall e :: e in s ==> e == s[at] || e in RemoveAt(s, at)
    ensures Increasing(s) ==> s[at] !in RemoveAt(s, at)
  {
    var r := RemoveAt(s, at);
    forall e | e in s && e != s[at] ensures e in r {
      var i :| 0 <= i < |s| && s[i] == e;
      assert r[if i < at then i else i - 1] == e;
    }
  }

  /** What shedding removes: progress the incoming message repeats, or one update whose card is gone. */
  lemma ShedRemoves(items: seq<Entry>, incoming: Message)
    ensures var (room, queueIt) := AfterShed(items, incoming);
      && Thinned(items, room)
      && (!queueIt ==> room == items && IsSheddableUpdate(items, incoming))
      && (forall e :: e in items && e !in room ==>
            || (Supersedes(incoming) && Superseded(e.message, incoming))
            || IsSheddableUpdate(items, e.message))
  {
    FilterThins(items, (e: Entry) => !Superseded(e.message, incoming));
    var found := Position(items, (e: Entry) => IsSheddableUpdate(items, e.message));
    if found.Some? {
      RemoveAtThins(items, found.value);
    }
  }

  /** What eviction removes: the victim, and with a card every update that settles it. */
  lemma EvictRemoves(items: seq<Entry>)
    requires items != []
    ensures Thinned(items, AfterEvict(items)) && |AfterEvict(items)| < |items|
    ensures forall e :: e in items && e !in AfterEvict(items) ==>
              || e == items[Victim(items)]
              || Answers(e.message, items[Victim(items)].message)
  {
    var at := Victim(items);
    var rest := RemoveAt(items, at);
    RemoveAtThins(items, at);
    var dropped := items[at].message;
    FilterThins(rest, (e: Entry) => !Answers(e.message, dropped));
  }

  /**
   A reply or an error is picked only when the queue holds no progress and no notice, an update only when
   it holds no card; an evicted card leaves no update for it behind.
   */
  lemma EvictPriority(items: seq<Entry>)
    requires items != []
    ensures var victim := items[Victim(items)].message;
      && (victim.kind in {Reply, Error} ==> forall e :: e in items ==> e.message.kind !in {Progress, Notice})
      && (victim.kind == Update ==> forall e :: e in items ==> CardOf(e.message).None? && e.message.kind != Progress)
      && (CardOf(victim).Some? ==> forall e :: e in AfterEvict(items) ==> !Answers(e.message, victim))
  {}

  /** How readily a message is given up: progress first, then plain notices, then cards, then the rest. */
  function EvictionRank(message: Message): nat {
    if message.kind == Progress then 0
    else if message.kind != Notice then 3
    else if CardOf(message).None? then 1 else 2
  }

  /** The victim is the oldest of the messages given up most readily. */
  lemma VictimIsTheOldestOfTheLeast(items: seq<Entry>)
    requires items != []
    ensures var least := EvictionRank(items[Victim(items)].message);
      && (forall i :: 0 <= i < |items| ==> EvictionRank(items[i].message) >= least)
      && (forall i :: 0 <= i < Victim(items) ==> EvictionRank(items[i].message) > least)
  {
    forall i | 0 <= i < |items|
      ensures EvictionRank(items[i].message) >= EvictionRank(items[Victim(items)].message)
    {
      assert items[i] in items;
    }
  }

  // ------------------------------------------------------------- each step keeps `Sound`

  lemma RefuseKeeps(q: Queue, message: Message)
    requires Sound(q) && IsSheddableUpdate(q.items, message)
    ensures Sound(Refuse(q, message))
  {
    var r := Refuse(q, message);
    assert forall e :: Filed(q, e) ==> Filed(r, e);
    forall t | 0 <= t < |r.pushed|
      ensures var e := Entry(t, r.pushed[t]); Kept(r, e) || e in r.shed || e in r.evicted
    {
      assert t < |q.pushed| ==> r.pushed[t] == q.pushed[t];
    }
    RedundancySurvives(q, r);
    if UniqueCards(r.pushed) {
      UniqueCardsPrefix(q.pushed, message);
    }
  }

  lemma UniqueCardsPrefix(pushed: seq<Message>, message: Message)
    requires UniqueCards(pushed + [message])
    ensures UniqueCards(pushed)
  {
    var more := pushed + [message];
    forall i, j | 0 <= i < j < |pushed| && CardOf(pushed[i]).Some? && pushed[i].sessionKey == pushed[j].sessionKey
      ensures CardOf(pushed[i]) != CardOf(pushed[j])
    {
      assert more[i] == pushed[i] && more[j] == pushed[j];
    }
  }

  /** A covered progress stays covered while its cover is kept or evicted. */
  lemma RedundancySurvives(q: Queue, r: Queue)
    requires ShedIsRedundant(q)
    requires forall e :: Kept(q, e) || e in q.evicted ==> Kept(r, e) || e in r.evicted
    requires forall e :: e in r.shed && e !in q.shed ==> e.message.kind == Update
    ensures ShedIsRedundant(r)
  {
    forall e | e in r.shed && e.message.kind != Update
      ensures e.message.kind == Progress && Covered(r, e)
    {
      assert e in q.shed && Covered(q, e);
      var later :| (Kept(q, later) || later in q.evicted) && Covers(later, e);
      assert (Kept(r, later) || later in r.evicted) && Covers(later, e);
    }
  }

  lemma AppendOrdered(q: Queue, room: seq<Entry>, message: Message)
    requires Ordered(q) && Accounted(q) && Thinned(q.items, room)
    ensures Ordered(Append(q, room, message)) && Accounted(Append(q, room, message))
  {
    var newest := Entry(|q.pushed|, message);
    assert forall e :: Kept(q, e) ==> Filed(q, e) && e.ticket < newest.ticket;
    assert forall e :: e in Append(q, room, message).items <==> e in room || e == newest;
    AppendFiled(q, room, message);
    AppendDisjoint(q, room, message);
  }

  lemma AppendFiled(q: Queue, room: seq<Entry>, message: Message)
    requires Accounted(q) && Thinned(q.items, room)
    ensures var r := Append(q, room, message);
      && (forall e :: Kept(r, e) || e in r.shed || e in r.evicted ==> Filed(r, e))
      && (forall t :: 0 <= t < |r.pushed| ==>
            var e := Entry(t, r.pushed[t]); Kept(r, e) || e in r.shed || e in r.evicted)
  {
    var r := Append(q, room, message);
    var newest := Entry(|q.pushed|, message);
    assert forall e :: Filed(q, e) ==> Filed(r, e);
    assert forall e :: e in r.items <==> e in room || e == newest;
    forall e | e in r.items || e in r.shed ensures Filed(r, e) {
      assert e == newest || Kept(q, e) || e in q.shed;
    }
    forall t | 0 <= t < |r.pushed|
      ensures var e := Entry(t, r.pushed[t]); Kept(r, e) || e in r.shed || e in r.evicted
    {
      if t < |q.pushed| {
        var e := Entry(t, q.pushed[t]);
        assert Kept(q, e) || e in q.shed || e in q.evicted;
      }
    }
  }

  /** An entry taken from the queue is nowhere else, because its ticket is. */
  lemma AppendDisjoint(q: Queue, room: seq<Entry>, message: Message)
    requires Ordered(q) && Accounted(q) && Thinned(q.items, room)
    ensures var r := Append(q, room, message);
      && (forall e :: e in r.shed ==> e !in r.evicted && !Kept(r, e))
      && (forall e :: e in r.evicted ==> !Kept(r, e))
  {
    var r := Append(q, room, message);
    var newest := Entry(|q.pushed|, message);
    assert forall e :: Kept(q, e) || e in q.shed || e in q.evicted ==> Filed(q, e) && e != newest;
    forall e | e in r.shed
      ensures e !in r.evicted && !Kept(r, e)
    {
      if e in q.items && e !in room {
        assert Kept(q, e);
        assert e !in q.delivered;
      }
    }
  }

  lemma AppendRedundant(q: Queue, room: seq<Entry>, message: Message)
    requires Ordered(q) && Accounted(q) && ShedIsRedundant(q)
    requires forall e :: e in q.items && e !in room ==>
      (Supersedes(message) && Superseded(e.message, message)) || IsSheddableUpdate(q.items, e.message)
    ensures ShedIsRedundant(Append(q, room, message))
  {
    var r := Append(q, room, message);
    var newest := Entry(|q.pushed|, message);
    assert newest in r.items;
    forall e | e in r.shed && e.message.kind != Update
      ensures e.message.kind == Progress && Covered(r, e)
    {
      if e in q.shed {
        assert Covered(q, e);
        var later :| (Kept(q, later) || later in q.evicted) && Covers(later, e);
        if later in q.items && later !in room {
          // What covered `e` was itself superseded, so the incoming message covers both.
          assert Filed(q, later);
          assert !IsSheddableUpdate(q.items, later.message);
          assert Kept(r, newest) && Covers(newest, e);
        } else {
          assert Kept(r, later) || later in r.evicted;
        }
      } else {
        assert e in q.items && Filed(q, e);
        assert Kept(r, newest) && Covers(newest, e);
      }
    }
  }

  lemma AppendPaired(q: Queue, room: seq<Entry>, message: Message)
    requires Ordered(q) && Accounted(q) && Thinned(q.items, room)
    requires forall e :: e in q.items && e !in room ==>
      (Supersedes(message) && Superseded(e.message, message)) || IsSheddableUpdate(q.items, e.message)
    requires Paired(q)
    ensures Paired(Append(q, room, message))
  {
    var r := Append(q, room, message);
    var newest := Entry(|q.pushed|, message);
    forall card, t | card in r.items && card.ticket < t < |r.pushed| && Answers(r.pushed[t], card.message)
      ensures Entry(t, r.pushed[t]) in r.items
    {
      if t == |q.pushed| {
        assert newest in r.items;
      } else {
        assert card in room && card in q.items;
        var e := Entry(t, q.pushed[t]);
        assert e in q.items;
        assert !IsSheddableUpdate(q.items, e.message);
        assert e in room;
      }
    }
  }

  /** The queue between appending and trimming: at most one message past the hard cap. */
  ghost predicate Overfull(q: Queue) {
    && Ordered(q) && Accounted(q) && ShedIsRedundant(q) && (UniqueCards(q.pushed) ==> Paired(q))
    && q.items != []
    && (|q.items| > DELIVERY_QUEUE_BOUND ==> q.over)
    && |q.items| <= DELIVERY_QUEUE_HARD_CAP + 1
  }

  lemma AppendKeeps(q: Queue, room: seq<Entry>, message: Message)
    requires Sound(q) && Thinned(q.items, room)
    requires forall e :: e in q.items && e !in room ==>
      (Supersedes(message) && Superseded(e.message, message)) || IsSheddableUpdate(q.items, e.message)
    ensures Overfull(Append(q, room, message))
  {
    AppendOrdered(q, room, message);
    AppendRedundant(q, room, message);
    if UniqueCards(q.pushed + [message]) {
      UniqueCardsPrefix(q.pushed, message);
      AppendPaired(q, room, message);
    }
  }

  lemma TrimPaired(q: Queue)
    requires Ordered(q) && Accounted(q) && q.items != [] && UniqueCards(q.pushed) && Paired(q)
    ensures Paired(Trim(q))
  {
    if |q.items| > DELIVERY_QUEUE_HARD_CAP {
      var r := Trim(q);
      var victim := q.items[Victim(q.items)];
      EvictRemoves(q.items);
      EvictPriority(q.items);
      forall card, t | card in r.items && card.ticket < t < |r.pushed| && Answers(r.pushed[t], card.message)
        ensures Entry(t, r.pushed[t]) in r.items
      {
        var e := Entry(t, q.pushed[t]);
        assert card in q.items && e in q.items;
        assert Filed(q, card) && Filed(q, victim);
        if e !in r.items && e != victim {
          // The victim is this update's card, and there is only one.
          assert CardOf(victim.message) == CardOf(card.message);
          assert card.ticket == victim.ticket;
          assert card == victim;
          VictimGoes(q.items);
        }
      }
    }
  }

  lemma VictimGoes(items: seq<Entry>)
    requires items != [] && Increasing(items)
    ensures items[Victim(items)] !in AfterEvict(items)
  {
    RemoveAtThins(items, Victim(items));
  }

  lemma TrimAccounted(q: Queue)
    requires Overfull(q) && |q.items| > DELIVERY_QUEUE_HARD_CAP
    ensures Accounted(Trim(q))
  {
    var r := Trim(q);
    EvictRemoves(q.items);
    assert forall e :: e in q.items ==> Kept(q, e) && (e in r.items || e in r.evicted) && e !in q.delivered;
    assert forall e :: Filed(q, e) == Filed(r, e);
    forall t | 0 <= t < |r.pushed|
      ensures var e := Entry(t, r.pushed[t]); Kept(r, e) || e in r.shed || e in r.evicted
    {
      var e := Entry(t, q.pushed[t]);
      assert Kept(q, e) || e in q.shed || e in q.evicted;
    }
  }

  lemma TrimRedundant(q: Queue)
    requires Overfull(q) && |q.items| > DELIVERY_QUEUE_HARD_CAP
    ensures ShedIsRedundant(Trim(q))
  {
    var r := Trim(q);
    EvictRemoves(q.items);
    assert forall e :: e in q.items ==> e in r.items || e in r.evicted;
    RedundancySurvives(q, r);
  }

  lemma TrimKeeps(q: Queue)
    requires Overfull(q)
    ensures Sound(Trim(q))
  {
    if |q.items| > DELIVERY_QUEUE_HARD_CAP {
      EvictRemoves(q.items);
      TrimAccounted(q);
      TrimRedundant(q);
    }
    if UniqueCards(q.pushed) {
      TrimPaired(q);
    }
  }

  lemma PushKeeps(q: Queue, message: Message)
    requires Sound(q)
    ensures Sound(Pushed(q, message).0)
    ensures !Pushed(q, message).1 ==> |q.items| >= DELIVERY_QUEUE_BOUND
  {
    var (room, queueIt) :=
      if |q.items| >= DELIVERY_QUEUE_BOUND then AfterShed(q.items, message) else (q.items, true);
    ShedRemoves(q.items, message);
    if queueIt {
      AppendKeeps(q, room, message);
      TrimKeeps(Append(q, room, message));
    } else {
      RefuseKeeps(q, message);
    }
  }

  lemma TakeKeeps(q: Queue)
    requires Sound(q)
    ensures Sound(Taken(q))
  {
    if q.items != [] {
      var r := Taken(q);
      var front := q.items[0];
      assert q.items == [front] + r.items;
      assert forall e :: Kept(q, e) <==> Kept(r, e);
      RedundancySurvives(q, r);
      TakeAccounted(q);
      TakeOrdered(q);
      if UniqueCards(q.pushed) {
        TakePaired(q);
      }
    }
  }

  lemma TakeOrdered(q: Queue)
    requires Ordered(q) && q.items != []
    ensures Ordered(Taken(q))
  {
    assert forall e :: e in q.items[1..] ==> e in q.items;
    assert forall e :: e in q.items[1..] ==> q.items[0].ticket < e.ticket;
  }

  lemma TakePaired(q: Queue)
    requires Paired(q) && Ordered(q) && q.items != []
    ensures Paired(Taken(q))
  {
    var r := Taken(q);
    var front := q.items[0];
    assert q.items == [front] + r.items;
    forall card, t | card in r.items && card.ticket < t < |r.pushed| && Answers(r.pushed[t], card.message)
      ensures Entry(t, r.pushed[t]) in r.items
    {
      assert front.ticket < card.ticket;
      assert Entry(t, q.pushed[t]) in q.items;
    }
  }

  lemma TakeAccounted(q: Queue)
    requires Accounted(q) && q.items != []
    ensures Accounted(Taken(q))
  {
    var r := Taken(q);
    assert q.items == [q.items[0]] + r.items;
    assert forall e :: Kept(q, e) <==> Kept(r, e);
    assert forall e :: Filed(q, e) == Filed(r, e);
    forall t | 0 <= t < |r.pushed|
      ensures var e := Entry(t, r.pushed[t]); Kept(r, e) || e in r.shed || e in r.evicted
    {
      var e := Entry(t, q.pushed[t]);
      assert Kept(q, e) || e in q.shed || e in q.evicted;
    }
  }

  // ------------------------------------------------------------- producers, consumer and Notify

  /**
   Where the consumer stands in `next`. `Checking` lies between the empty pop and the look at the
   close token, and counts the pushes that fell in between.
   */
  datatype Consumer = Taking | Checking(pushes: nat) | Parked | Ended(pushes: nat)

  /** `owed` counts pushes that have released the lock and not yet called `notify_one`. */
  datatype System = System(queue: Queue, closed: bool, permit: bool, owed: nat, consumer: Consumer)

  datatype Event =
    | Push(message: Message)  // the locked part of `push`
    | Notify                  // its `notify_one`
    | Take                    // the consumer's pop under the lock
    | Check                   // its look at the close token, then parking
    | Wake                    // a parked consumer resumes, on the permit or on the close
    | Close

  const START := System(EMPTY, false, false, 0, Taking)

  /** One event; an event its owner cannot perform now changes nothing. */
  function Step(s: System, event: Event): System {
    match event
    case Push(message) =>
      var (queue, wakes) := Pushed(s.queue, message);
      s.(queue := queue,
         owed := if wakes then s.owed + 1 else s.owed,
         consumer := if s.consumer.Checking? then Checking(s.consumer.pushes + 1) else s.consumer)
    case Notify => if s.owed == 0 then s else s.(owed := s.owed - 1, permit := true)
    case Take =>
      if !s.consumer.Taking? then s
      else if s.queue.items == [] then s.(consumer := Checking(0))
      else s.(queue := Taken(s.queue))
    case Check =>
      if !s.consumer.Checking? then s
      else if s.closed then s.(consumer := Ended(s.consumer.pushes))
      else s.(consumer := Parked)
    case Wake =>
      if !s.consumer.Parked? then s
      else if s.permit then s.(consumer := Taking, permit := false)
      else if s.closed then s.(consumer := Taking)
      else s
    case Close => s.(closed := true)
  }

  ghost function Run(events: seq<Event>): System {
    if events == [] then START else Step(Run(events[..|events| - 1]), events[|events| - 1])
  }

  /** A consumer about to park, or parked, is owed a wake-up for whatever is queued. */
  ghost predicate WakeComing(s: System) {
    (s.consumer.Checking? || s.consumer.Parked?) && s.queue.items != [] ==> s.permit || s.owed > 0
  }

  /** While the consumer is between its two looks, the queue holds only what was pushed there. */
  ghost predicate GapCounted(s: System) {
    s.consumer.Checking? ==>
      && |s.queue.items| <= s.consumer.pushes
      && (0 < s.consumer.pushes <= DELIVERY_QUEUE_HARD_CAP ==> s.queue.items != [])
  }

  ghost predicate Invariant(s: System) {
    Sound(s.queue) && WakeComing(s) && GapCounted(s)
  }

  lemma PushLength(q: Queue, message: Message)
    requires Sound(q)
    ensures var r := Pushed(q, message).0;
      && |r.items| <= |q.items| + 1
      && (!Pushed(q, message).1 ==> r.items == q.items && q.items != [])
      && (|q.items| < DELIVERY_QUEUE_HARD_CAP ==> r.items != [])
  {
    ShedRemoves(q.items, message);
    var (room, queueIt) :=
      if |q.items| >= DELIVERY_QUEUE_BOUND then AfterShed(q.items, message) else (q.items, true);
    var appended := Append(q, room, message);
    if |appended.items| > DELIVERY_QUEUE_HARD_CAP {
      EvictRemoves(appended.items);
    }
  }

  lemma StepKeeps(s: System, event: Event)
    requires Invariant(s)
    ensures Invariant(Step(s, event))
  {
    match event
    case Push(message) =>
      PushKeeps(s.queue, message);
      PushLength(s.queue, message);
    case Take => TakeKeeps(s.queue);
    case _ =>
  }

  lemma {:induction false} RunKeeps(events: seq<Event>)
    ensures Invariant(Run(events))
  {
    if events == [] {
      assert Ordered(EMPTY) && Accounted(EMPTY);
    } else {
      RunKeeps(events[..|events| - 1]);
      StepKeeps(Run(events[..|events| - 1]), events[|events| - 1]);
    }
  }

  // ------------------------------------------------------------- what every run satisfies

  /** Delivered then queued is the pushes at strictly increasing positions: nothing is reordered. */
  lemma NeverReordered(events: seq<Event>)
    ensures var q := Run(events).queue; var kept := q.delivered + q.items;
      && Increasing(kept)
      && (forall i :: 0 <= i < |kept| ==>
            kept[i].ticket < |q.pushed| && q.pushed[kept[i].ticket] == kept[i].message)
  {
    RunKeeps(events);
    var q := Run(events).queue;
    var kept := q.delivered + q.items;
    forall i, j | 0 <= i < j < |kept| ensures kept[i].ticket < kept[j].ticket {
      if i < |q.delivered| <= j {
        assert kept[i] in q.delivered && kept[j] in q.items;
      }
    }
    forall i | 0 <= i < |kept| ensures Filed(q, kept[i]) {
      assert Kept(q, kept[i]);
    }
  }

  lemma NeverPastTheCap(events: seq<Event>)
    ensures var q := Run(events).queue;
      && |q.items| <= DELIVERY_QUEUE_HARD_CAP
      && (|q.items| > DELIVERY_QUEUE_BOUND ==> q.over)
  {
    RunKeeps(events);
  }

  /**
   Below the hard cap nothing that matters is lost: in a run that evicted nothing, every reply,
   notice and error pushed is delivered or queued, and a missing progress has a later progress or
   reply of its own session and turn there.
   */
  lemma NoLossBelowTheHardCap(events: seq<Event>, ticket: nat)
    requires var q := Run(events).queue; q.evicted == {} && ticket < |q.pushed|
    ensures var q := Run(events).queue; var e := Entry(ticket, q.pushed[ticket]);
      && (e.message.kind in {Reply, Notice, Error} ==> Kept(q, e))
      && (e.message.kind == Progress && !Kept(q, e) ==>
            exists later :: Kept(q, later) && Covers(later, e))
  {
    RunKeeps(events);
    var q := Run(events).queue;
    var e := Entry(ticket, q.pushed[ticket]);
    assert Kept(q, e) || e in q.shed || e in q.evicted;
    if e.message.kind == Progress && !Kept(q, e) {
      assert Covered(q, e);
      var later :| (Kept(q, later) || later in q.evicted) && Covers(later, e);
      assert Kept(q, later) && Covers(later, e);
    }
  }

  /** Every push is in exactly one place, whatever was shed or evicted. */
  lemma EveryPushHasOneFate(events: seq<Event>, ticket: nat)
    requires ticket < |Run(events).queue.pushed|
    ensures var q := Run(events).queue; var e := Entry(ticket, q.pushed[ticket]);
      && (e in q.delivered || e in q.items || e in q.shed || e in q.evicted)
      && !(e in q.delivered && e in q.items)
      && !(e in q.shed && (Kept(q, e) || e in q.evicted))
      && !(e in q.evicted && Kept(q, e))
  {
    RunKeeps(events);
    var q := Run(events).queue;
    var e := Entry(ticket, q.pushed[ticket]);
    assert Kept(q, e) || e in q.shed || e in q.evicted;
  }

  /** When no approval is asked for twice, a queued card never loses an update pushed after it. */
  lemma CardsKeepTheirUpdates(events: seq<Event>, card: Entry, ticket: nat)
    requires var q := Run(events).queue;
      && UniqueCards(q.pushed) && card in q.items && card.ticket < ticket < |q.pushed|
      && Answers(q.pushed[ticket], card.message)
    ensures var q := Run(events).queue; Entry(ticket, q.pushed[ticket]) in q.items
  {
    RunKeeps(events);
  }

  /** A consumer is never parked without a permit while a message waits and no push is mid-flight. */
  lemma NoLostWakeup(events: seq<Event>)
    ensures var s := Run(events);
      s.consumer.Parked? && (s.queue.items != [] || s.closed) && s.owed == 0 ==>
        Step(s, Wake).consumer.Taking?
  {
    RunKeeps(events);
  }

  /** The queue is full of one card and its updates, and `incoming` is one more: the push evicts them all. */
  ghost predicate Empties(items: seq<Entry>, incoming: Message) {
    |items| == DELIVERY_QUEUE_HARD_CAP &&
    exists k :: 0 <= k < |items| && Answers(incoming, items[k].message) && OthersAnswer(items, k)
  }

  ghost predicate OthersAnswer(items: seq<Entry>, card: nat)
    requires card < |items|
  {
    forall j :: 0 <= j < |items| && j != card ==> Answers(items[j].message, items[card].message)
  }

  lemma SomeIsIn(items: seq<Entry>)
    ensures items != [] ==> exists e :: e in items
  {
    assert items != [] ==> items[0] in items;
  }

  /** Beside a card that every other message answers, the card is what eviction picks, and all of them go. */
  lemma CardIsTheVictim(items: seq<Entry>, card: nat)
    requires card < |items| && CardOf(items[card].message).Some? && OthersAnswer(items, card)
    ensures Victim(items) == card && AfterEvict(items) == []
  {
    assert EvictionRank(items[card].message) == 2;
    assert forall j :: 0 <= j < |items| && j != card ==> EvictionRank(items[j].message) == 3;
    VictimIsTheOldestOfTheLeast(items);
    var rest := RemoveAt(items, card);
    forall e | e in rest ensures Answers(e.message, items[card].message) {
      var j :| 0 <= j < |rest| && rest[j] == e;
      assert e == items[if j < card then j else j + 1];
    }
    SomeIsIn(AfterEvict(items));
  }

  /** An eviction that takes everything took a card and its updates. */
  lemma EvictedAll(items: seq<Entry>)
    requires |items| > 1 && Increasing(items) && AfterEvict(items) == []
    ensures CardOf(items[Victim(items)].message).Some? && OthersAnswer(items, Victim(items))
  {
    var card := Victim(items);
    RemoveAtThins(items, card);
    EvictRemoves(items);
    forall j | 0 <= j < |items| && j != card ensures Answers(items[j].message, items[card].message) {
      assert items[j] in items && items[j] != items[card];
    }
  }

  /** Nothing is shed beside a card that every other message answers. */
  lemma FullOfUpdatesShedsNothing(items: seq<Entry>, card: nat, incoming: Message)
    requires card < |items| && Answers(incoming, items[card].message) && OthersAnswer(items, card)
    ensures AfterShed(items, incoming) == (items, true)
  {
    assert items[card] in items;
    forall e | e in items ensures !IsSheddableUpdate(items, e.message) {
      var j :| 0 <= j < |items| && items[j] == e;
      assert j == card || Answers(items[j].message, items[card].message);
    }
  }

  /** Shedding that takes nothing out found no update to shed. */
  lemma AllStay(items: seq<Entry>, incoming: Message)
    requires |AfterShed(items, incoming).0| >= |items|
    ensures AfterShed(items, incoming).0 == items
    ensures forall e :: e in items ==> !IsSheddableUpdate(items, e.message)
  {
    var found := Position(items, (e: Entry) => IsSheddableUpdate(items, e.message));
    if found.Some? {
      RemoveAtThins(items, found.value);
    }
  }

  /** Where there is nothing to shed, not every message answers `incoming`: what an update answers does not. */
  lemma SomeDoesNotAnswer(items: seq<Entry>, incoming: Message) returns (i: nat)
    requires items != [] && forall e :: e in items ==> !IsSheddableUpdate(items, e.message)
    ensures i < |items| && !Answers(items[i].message, incoming)
  {
    i := 0;
    assert items[0] in items;
    if Settles(items[0].message).Some? {
      var queued :| queued in items && Answers(items[0].message, queued.message);
      i :| 0 <= i < |items| && items[i] == queued;
    }
  }

  lemma EmptiesTheQueue(q: Queue, message: Message)
    requires Empties(q.items, message)
    ensures Pushed(q, message).0.items == []
  {
    var card :| 0 <= card < |q.items| && Answers(message, q.items[card].message) && OthersAnswer(q.items, card);
    FullOfUpdatesShedsNothing(q.items, card, message);
    var full := Append(q, q.items, message);
    assert forall j :: 0 <= j < |q.items| ==> full.items[j] == q.items[j];
    CardIsTheVictim(full.items, card);
    assert Pushed(q, message).0 == Trim(full);
  }

  lemma EmptiedAtTheCap(q: Queue, message: Message)
    requires Sound(q) && Pushed(q, message).0.items == []
    ensures Empties(q.items, message)
  {
    PushLength(q, message);
    var room := AfterShed(q.items, message).0;
    ShedRemoves(q.items, message);
    AllStay(q.items, message);
    AppendOrdered(q, room, message);
    LastOneIn(q.items, Append(q, room, message).items, message);
  }

  /** The card evicted was queued before the push that went over. */
  lemma LastOneIn(items: seq<Entry>, full: seq<Entry>, message: Message)
    requires |items| == DELIVERY_QUEUE_HARD_CAP && |full| == |items| + 1 && items == full[..|items|]
    requires full[|items|].message == message && Increasing(full) && AfterEvict(full) == []
    requires forall e :: e in items ==> !IsSheddableUpdate(items, e.message)
    ensures Empties(items, message)
  {
    EvictedAll(full);
    var card := Victim(full);
    var i := SomeDoesNotAnswer(items, message);
    assert full[i] == items[i];
    assert card < |items| && items[card] == full[card];
    assert Answers(message, items[card].message);
    assert OthersAnswer(items, card) by {
      assert forall j :: 0 <= j < |items| ==> items[j] == full[j];
    }
  }

  /** When a push leaves nothing queued. */
  lemma PushEmptiesIff(q: Queue, message: Message)
    requires Sound(q)
    ensures Pushed(q, message).0.items == [] <==> Empties(q.items, message)
  {
    if Empties(q.items, message) {
      EmptiesTheQueue(q, message);
    } else if Pushed(q, message).0.items == [] {
      EmptiedAtTheCap(q, message);
    }
  }

  /** The last push of a run emptied the queue. */
  ghost predicate LastPushEmptied(events: seq<Event>) {
    events != [] &&
    var before, last := events[..|events| - 1], events[|events| - 1];
    if last.Push? then Empties(Run(before).queue.items, last.message) else LastPushEmptied(before)
  }

  lemma {:induction false} GapIsEmptyIff(events: seq<Event>)
    requires Run(events).consumer.Checking?
    ensures Run(events).queue.items == [] <==> Run(events).consumer.pushes == 0 || LastPushEmptied(events)
  {
    var before, last := events[..|events| - 1], events[|events| - 1];
    RunKeeps(before);
    if last.Push? {
      PushEmptiesIff(Run(before).queue, last.message);
    } else if Run(before).consumer.Checking? {
      GapIsEmptyIff(before);
    }
  }

  /**
   `next` answers `None` at a closed token. The queue it leaves is empty exactly when no push fell between
   the empty pop and that look, or when the last one there met a hard cap's worth of one card and its
   updates, was one more, and had them all evicted.
   */
  lemma NoneMeansDrained(events: seq<Event>)
    requires var s := Run(events); s.consumer.Checking? && s.closed
    ensures var s := Run(events); var after := Step(s, Check);
      && after.consumer.Ended?
      && (after.queue.items == [] <==> s.consumer.pushes == 0 || LastPushEmptied(events))
      && (0 < s.consumer.pushes <= DELIVERY_QUEUE_HARD_CAP ==> after.queue.items != [])
  {
    RunKeeps(events);
    GapIsEmptyIff(events);
  }

  /** The gap is real: a push and a close inside it end the consumer with that message undelivered. */
  lemma NoneCanLeaveAMessage(message: Message)
    ensures var s := Run([Take, Push(message), Notify, Close, Check]);
      s.consumer.Ended? && s.queue.items == [Entry(0, message)] && s.queue.delivered == []
  {
    var events := [Take, Push(message), Notify, Close, Check];
    var s1 := Step(START, Take);
    var s2 := Step(s1, Push(message));
    assert events[..1] == [Take] && events[..1][..0] == [];
    assert Run(events[..1]) == s1;
    assert events[..2][..1] == events[..1] && events[..3][..2] == events[..2] && events[..4][..3] == events[..3];
    assert s2.queue.items == [] + [Entry(0, message)];
    assert Run(events[..2]) == s2;
    assert Run(events[..4]) == Step(Step(s2, Notify), Close);
  }

  // ------------------------------------------------------------- a denial is not an update

  /** A notice that settles an approval and asks for none: a denial. */
  predicate IsDenial(message: Message) {
    message.kind == Notice && CardOf(message).None? && message.approvalSettled.Some?
  }

  /**
   A denial settles its card by a notice, which goes before cards do. An eviction keeps the card in any case,
   and its denial exactly when a progress is queued, or another plain notice before it.
   */
  lemma EvictionKeepsADenialIff(items: seq<Entry>, card: nat, denial: nat)
    requires card < |items| && denial < |items| && Increasing(items)
    requires CardOf(items[card].message).Some? && IsDenial(items[denial].message)
    ensures items[card] in AfterEvict(items)
    ensures items[denial] in AfterEvict(items) <==>
      exists k :: 0 <= k < |items| &&
        (EvictionRank(items[k].message) == 0 || (k < denial && EvictionRank(items[k].message) == 1))
  {
    var victim := Victim(items);
    VictimIsTheOldestOfTheLeast(items);
    assert EvictionRank(items[denial].message) == 1 && EvictionRank(items[card].message) == 2;
    assert EvictionRank(items[victim].message) <= 1;
    RemoveAtThins(items, victim);
    assert AfterEvict(items) == RemoveAt(items, victim);
    assert victim != card && (items[denial] in AfterEvict(items) <==> victim != denial);
    if victim != denial {
      assert EvictionRank(items[victim].message) == 0 || victim < denial;
    }
  }

  /**
   What it takes for a push to evict a denial, queued before or pushed now: a queue at the hard cap with no
   progress and no update to shed in it, in which no plain notice is older.
   */
  ghost predicate EvictsDenial(q: Queue, message: Message, e: Entry) {
    var full := q.items + [Entry(|q.pushed|, message)];
    && |q.items| == DELIVERY_QUEUE_HARD_CAP && e in full
    && (forall x :: x in full ==> x.message.kind != Progress && !IsSheddableUpdate(q.items, x.message))
    && (forall x :: x in full && EvictionRank(x.message) == 1 ==> e.ticket <= x.ticket)
  }

  lemma OldestNoticeGoes(items: seq<Entry>, e: Entry)
    requires Increasing(items) && e in items && IsDenial(e.message)
    ensures e !in AfterEvict(items) <==>
      && (forall x :: x in items ==> x.message.kind != Progress)
      && (forall x :: x in items && EvictionRank(x.message) == 1 ==> e.ticket <= x.ticket)
  {
    var at := Victim(items);
    var i :| 0 <= i < |items| && items[i] == e;
    VictimIsTheOldestOfTheLeast(items);
    RemoveAtThins(items, at);
    VictimGoes(items);
    EvictRemoves(items);
    assert EvictionRank(e.message) == 1 && items[at] in items;
    assert e !in AfterEvict(items) <==> i == at;
    if i == at {
      forall x | x in items
        ensures x.message.kind != Progress && (EvictionRank(x.message) == 1 ==> e.ticket <= x.ticket)
      {
        var j :| 0 <= j < |items| && items[j] == x;
        assert EvictionRank(items[j].message) >= 1;
      }
    } else if EvictionRank(items[at].message) == 1 {
      assert at < i && items[at].ticket < items[i].ticket;
    }
  }

  /** At the cap the queue grows past it exactly when there is nothing to shed, the incoming message included. */
  lemma NothingShedIff(items: seq<Entry>, incoming: Message)
    requires items != [] && forall x :: x in items ==> x.message.kind != Progress
    ensures AfterShed(items, incoming) == (items, true) <==>
      !IsSheddableUpdate(items, incoming) && forall x :: x in items ==> !IsSheddableUpdate(items, x.message)
  {
    var retained := Filter(items, (e: Entry) => !Superseded(e.message, incoming));
    AllRetained(items, (e: Entry) => !Superseded(e.message, incoming));
    var found := Position(items, (e: Entry) => IsSheddableUpdate(items, e.message));
    if found.Some? {
      assert items[found.value] in items;
      RemoveAtThins(items, found.value);
    }
  }

  lemma {:induction false} AllRetained(items: seq<Entry>, keep: Entry -> bool)
    requires forall x :: x in items ==> keep(x)
    ensures Filter(items, keep) == items
  {
    if items != [] {
      AllRetained(items[1..], keep);
    }
  }

  /** Shedding never takes a denial, and takes something when it finds progress to supersede or an update. */
  lemma DenialsAreNotShed(q: Queue, message: Message, e: Entry)
    requires IsDenial(e.message) && e in q.items + [Entry(|q.pushed|, message)]
    ensures var (room, queueIt) := AfterShed(q.items, message);
      && (e in room || e == Entry(|q.pushed|, message)) && (!queueIt ==> e in q.items)
  {
    ShedRemoves(q.items, message);
  }

  lemma BelowTheCap(q: Queue, message: Message, e: Entry)
    requires |q.items| < DELIVERY_QUEUE_HARD_CAP
    requires IsDenial(e.message) && e in q.items + [Entry(|q.pushed|, message)]
    ensures e in Pushed(q, message).0.items
  {
    DenialsAreNotShed(q, message, e);
    ShedRemoves(q.items, message);
    var (room, queueIt) :=
      if |q.items| >= DELIVERY_QUEUE_BOUND then AfterShed(q.items, message) else (q.items, true);
    assert Append(q, room, message).items == room + [Entry(|q.pushed|, message)];
  }

  /** When a push loses a denial. */
  lemma PushLosesADenialIff(q: Queue, message: Message, e: Entry)
    requires Sound(q) && IsDenial(e.message) && e in q.items + [Entry(|q.pushed|, message)]
    ensures e !in Pushed(q, message).0.items <==> EvictsDenial(q, message, e)
  {
    if |q.items| == DELIVERY_QUEUE_HARD_CAP {
      AtTheCapADenialGoesIff(q, message, e);
    } else {
      BelowTheCap(q, message, e);
    }
  }

  lemma AtTheCapADenialGoesIff(q: Queue, message: Message, e: Entry)
    requires Sound(q) && IsDenial(e.message) && e in q.items + [Entry(|q.pushed|, message)]
    requires |q.items| == DELIVERY_QUEUE_HARD_CAP
    ensures e !in Pushed(q, message).0.items <==> EvictsDenial(q, message, e)
  {
    if AfterShed(q.items, message) == (q.items, true) {
      PushedPastTheCap(q, message);
      PastTheCap(q, message, e);
    } else {
      SomethingShed(q, message);
      DenialsAreNotShed(q, message, e);
      SheddingSparesDenials(q, message, e);
    }
  }

  lemma PushedPastTheCap(q: Queue, message: Message)
    requires Sound(q) && |q.items| == DELIVERY_QUEUE_HARD_CAP && AfterShed(q.items, message) == (q.items, true)
    ensures var full := q.items + [Entry(|q.pushed|, message)];
      Increasing(full) && Pushed(q, message).0.items == AfterEvict(full)
  {
    AppendOrdered(q, q.items, message);
  }

  lemma PastTheCap(q: Queue, message: Message, e: Entry)
    requires IsDenial(e.message) && |q.items| == DELIVERY_QUEUE_HARD_CAP
    requires AfterShed(q.items, message) == (q.items, true)
    requires var full := q.items + [Entry(|q.pushed|, message)]; Increasing(full) && e in full
    ensures e !in AfterEvict(q.items + [Entry(|q.pushed|, message)]) <==> EvictsDenial(q, message, e)
  {
    OldestNoticeGoes(q.items + [Entry(|q.pushed|, message)], e);
    NothingLeftToShed(q.items, message, Entry(|q.pushed|, message));
  }

  lemma NothingLeftToShed(items: seq<Entry>, message: Message, newest: Entry)
    requires items != [] && newest.message == message && AfterShed(items, message) == (items, true)
    ensures (forall x :: x in items + [newest] ==> x.message.kind != Progress) ==>
      forall x :: x in items + [newest] ==> !IsSheddableUpdate(items, x.message)
  {
    assert forall x :: x in items + [newest] <==> x in items || x == newest;
    if forall x :: x in items ==> x.message.kind != Progress {
      NothingShedIff(items, message);
    }
  }

  lemma SheddingSparesDenials(q: Queue, message: Message, e: Entry)
    requires |q.items| == DELIVERY_QUEUE_HARD_CAP && AfterShed(q.items, message) != (q.items, true)
    ensures !EvictsDenial(q, message, e)
  {
    var full := q.items + [Entry(|q.pushed|, message)];
    assert forall x :: x in full <==> x in q.items || x == Entry(|q.pushed|, message);
    assert Entry(|q.pushed|, message) in full;
    if forall x :: x in q.items ==> x.message.kind != Progress {
      NothingShedIff(q.items, message);
    }
  }

  /** A push that sheds stays within the cap. */
  lemma SomethingShed(q: Queue, message: Message)
    requires Sound(q) && |q.items| == DELIVERY_QUEUE_HARD_CAP && AfterShed(q.items, message) != (q.items, true)
    ensures var (room, queueIt) := AfterShed(q.items, message);
      Pushed(q, message).0.items == if queueIt then room + [Entry(|q.pushed|, message)] else q.items
  {
    var (room, queueIt) := AfterShed(q.items, message);
    if queueIt && |room| >= |q.items| {
      AllStay(q.items, message);
    }
  }

  /** Some push of the run evicted it. */
  ghost predicate LostBy(events: seq<Event>, e: Entry) {
    events != [] &&
    var before, last := events[..|events| - 1], events[|events| - 1];
    LostBy(before, e) || (last.Push? && EvictsDenial(Run(before).queue, last.message, e))
  }

  /** The push at `i` evicted it. */
  ghost predicate LostAt(events: seq<Event>, e: Entry, i: nat) {
    i < |events| && events[i].Push? && EvictsDenial(Run(events[..i]).queue, events[i].message, e)
  }

  lemma LostSooner(events: seq<Event>, e: Entry, i: nat)
    requires events != []
    ensures var n := |events| - 1;
      LostAt(events, e, i) <==> LostAt(events[..n], e, i) || (i == n && LostAt(events, e, n))
  {
    var n := |events| - 1;
    if i < n {
      assert events[..n][..i] == events[..i] && events[..n][i] == events[i];
    }
  }

  lemma LastLost(events: seq<Event>, e: Entry)
    requires events != []
    ensures LostBy(events, e) <==> LostBy(events[..|events| - 1], e) || LostAt(events, e, |events| - 1)
  {}

  lemma {:induction false} LostSomewhere(events: seq<Event>, e: Entry) returns (i: nat)
    requires LostBy(events, e)
    ensures LostAt(events, e, i)
  {
    LastLost(events, e);
    if LostBy(events[..|events| - 1], e) {
      i := LostSomewhere(events[..|events| - 1], e);
      LostSooner(events, e, i);
    } else {
      i := |events| - 1;
    }
  }

  lemma {:induction false} LostInTheEnd(events: seq<Event>, e: Entry, i: nat)
    requires LostAt(events, e, i)
    ensures LostBy(events, e)
  {
    LastLost(events, e);
    if i < |events| - 1 {
      LostSooner(events, e, i);
      LostInTheEnd(events[..|events| - 1], e, i);
    }
  }

  lemma EvictsWhatWasPushed(q: Queue, message: Message, e: Entry)
    requires Accounted(q) && EvictsDenial(q, message, e)
    ensures e.ticket <= |q.pushed|
  {
    assert e in q.items ==> Kept(q, e) && Filed(q, e);
  }

  lemma StepPushes(s: System, event: Event)
    ensures |Step(s, event).queue.pushed| == |s.queue.pushed| + if event.Push? then 1 else 0
  {}

  lemma {:induction false} NotLostYet(events: seq<Event>, e: Entry)
    requires e.ticket >= |Run(events).queue.pushed|
    ensures !LostBy(events, e)
  {
    if events != [] {
      var before, last := events[..|events| - 1], events[|events| - 1];
      RunKeeps(before);
      StepPushes(Run(before), last);
      NotLostYet(before, e);
      if last.Push? && EvictsDenial(Run(before).queue, last.message, e) {
        EvictsWhatWasPushed(Run(before).queue, last.message, e);
      }
    }
  }

  /**
   When a denial is lost, over every run: it is neither delivered nor queued exactly when some push found the
   queue at the hard cap, nothing there to shed, no progress, and no older plain notice than the denial.
   */
  lemma DenialIsLostIff(events: seq<Event>, ticket: nat)
    requires var q := Run(events).queue; ticket < |q.pushed| && IsDenial(q.pushed[ticket])
    ensures var q := Run(events).queue; var e := Entry(ticket, q.pushed[ticket]);
      !Kept(q, e) <==> exists i: nat :: LostAt(events, e, i)
  {
    var e := Entry(ticket, Run(events).queue.pushed[ticket]);
    DenialIsLostBy(events, e);
    if LostBy(events, e) {
      var i := LostSomewhere(events, e);
    }
    if i: nat :| LostAt(events, e, i) {
      LostInTheEnd(events, e, i);
    }
  }

  lemma {:induction false} DenialIsLostBy(events: seq<Event>, e: Entry)
    requires Filed(Run(events).queue, e) && IsDenial(e.message)
    ensures !Kept(Run(events).queue, e) <==> LostBy(events, e)
  {
    var before, last := events[..|events| - 1], events[|events| - 1];
    var q := Run(before).queue;
    RunKeeps(before);
    match last
    case Push(message) =>
      if e.ticket < |q.pushed| {
        DenialIsLostBy(before, e);
      } else {
        NotLostYet(before, e);
      }
      PushedDenial(q, message, e);
    case Take =>
      DenialIsLostBy(before, e);
      TakenKeeps(q, e);
    case _ => DenialIsLostBy(before, e);
  }

  lemma TakenKeeps(q: Queue, e: Entry)
    ensures Kept(Taken(q), e) <==> Kept(q, e)
  {
    assert q.items != [] ==> q.items == [q.items[0]] + Taken(q).items;
  }

  /** A push leaves a denial kept that was kept, or is the one pushed, unless it evicts it. */
  lemma PushedDenial(q: Queue, message: Message, e: Entry)
    requires Sound(q) && IsDenial(e.message) && Filed(Pushed(q, message).0, e)
    ensures Kept(Pushed(q, message).0, e) <==>
      (Kept(q, e) || e.ticket == |q.pushed|) && !EvictsDenial(q, message, e)
  {
    var newest := Entry(|q.pushed|, message);
    assert forall x :: Kept(q, x) ==> Filed(q, x);
    assert e.ticket == |q.pushed| ==> e == newest;
    assert forall x :: x in q.items + [newest] <==> x in q.items || x == newest;
    if e in q.items || e == newest {
      PushLosesADenialIff(q, message, e);
      assert e !in q.delivered;
    } else {
      PushedFrom(q, message, e);
    }
  }

  /** What a push leaves queued was queued or is the message pushed; what was delivered stays so. */
  lemma PushedFrom(q: Queue, message: Message, e: Entry)
    ensures var r := Pushed(q, message).0;
      r.delivered == q.delivered && (e in r.items ==> e in q.items || e == Entry(|q.pushed|, message))
  {
    ShedRemoves(q.items, message);
    var (room, queueIt) :=
      if |q.items| >= DELIVERY_QUEUE_BOUND then AfterShed(q.items, message) else (q.items, true);
    var full := Append(q, room, message).items;
    if full != [] {
      EvictRemoves(full);
    }
  }

  /** It cannot happen while nothing is evicted: a denial pushed is delivered or queued. */
  lemma DenialsReachTheChannelBelowTheCap(events: seq<Event>, ticket: nat)
    requires var q := Run(events).queue; q.evicted == {} && ticket < |q.pushed| && IsDenial(q.pushed[ticket])
    ensures var q := Run(events).queue; Kept(q, Entry(ticket, q.pushed[ticket]))
  {
    NoLossBelowTheHardCap(events, ticket);
  }

  const CARD := Message(Notice, "s", Some("t"), Some("c"), None, "may it run?")
  const DENIAL := Message(Notice, "s", Some("t"), None, Some("c"), "it may not")
  const ANSWER := Message(Reply, "s", Some("t"), None, None, "an answer")

  /** A card, its denial, then `n` replies, with nobody to take them. */
  function Flood(n: nat): Queue {
    if n == 0 then Pushed(Pushed(EMPTY, CARD).0, DENIAL).0 else Pushed(Flood(n - 1), ANSWER).0
  }

  function Flooded(n: nat): (r: seq<Entry>)
    ensures |r| == n + 2
  {
    [Entry(0, CARD), Entry(1, DENIAL)] + seq(n, (i: nat) => Entry(i + 2, ANSWER))
  }

  lemma {:induction false} FilterKeepsAll(s: seq<Entry>, keep: Entry -> bool)
    requires forall e :: e in s ==> keep(e)
    ensures Filter(s, keep) == s
  {
    if s != [] {
      FilterKeepsAll(s[1..], keep);
      assert s == [s[0]] + s[1..];
    }
  }

  lemma NothingToShed(items: seq<Entry>)
    requires forall e :: e in items ==> e.message in {CARD, DENIAL, ANSWER}
    ensures AfterShed(items, ANSWER) == (items, true)
  {
    var keep := (e: Entry) => !Superseded(e.message, ANSWER);
    FilterKeepsAll(items, keep);
    assert Position(items, (e: Entry) => IsSheddableUpdate(items, e.message)).None?;
  }

  /** One more reply into such a queue. */
  lemma AnswerPushed(q: Queue)
    requires forall e :: e in q.items ==> e.message in {CARD, DENIAL, ANSWER}
    ensures Pushed(q, ANSWER).0 == Trim(Append(q, q.items, ANSWER))
    ensures |Pushed(q, ANSWER).0.pushed| == |q.pushed| + 1
    ensures |q.items| < DELIVERY_QUEUE_HARD_CAP ==> Pushed(q, ANSWER).0.items == q.items + [Entry(|q.pushed|, ANSWER)]
  {
    NothingToShed(q.items);
  }

  lemma OneMoreAnswer(q: Queue, n: nat)
    requires 0 < n && n + 2 <= DELIVERY_QUEUE_HARD_CAP && q.items == Flooded(n - 1) && |q.pushed| == n + 1
    ensures Pushed(q, ANSWER).0.items == Flooded(n) && |Pushed(q, ANSWER).0.pushed| == n + 2
  {
    AnswerPushed(q);
    assert Flooded(n) == Flooded(n - 1) + [Entry(n + 1, ANSWER)];
  }

  lemma {:induction false} FloodFills(n: nat)
    requires n + 2 <= DELIVERY_QUEUE_HARD_CAP
    ensures Flood(n).items == Flooded(n) && |Flood(n).pushed| == n + 2
  {
    if n == 0 {
      FloodOpens();
    } else {
      var q := Flood(n - 1);
      FloodFills(n - 1);
      OneMoreAnswer(q, n);
      assert Flood(n) == Pushed(q, ANSWER).0;
    }
  }

  lemma FloodOpens()
    ensures Flood(0).items == Flooded(0) && |Flood(0).pushed| == 2
  {
    assert Pushed(EMPTY, CARD).0.items == [] + [Entry(0, CARD)] == [Entry(0, CARD)];
  }

  /** The run in which it does: the card stays first in the queue, and its denial is gone. */
  lemma FloodLosesTheDenial()
    ensures var q := Flood(DELIVERY_QUEUE_HARD_CAP - 1);
      && q.items != [] && q.items[0] == Entry(0, CARD)
      && Entry(1, DENIAL) !in q.items && Entry(1, DENIAL) in q.evicted
  {
    FloodFills(DELIVERY_QUEUE_HARD_CAP - 2);
    OneTooMany(Flood(DELIVERY_QUEUE_HARD_CAP - 2));
  }

  lemma OneTooMany(q: Queue)
    requires q.items == Flooded(DELIVERY_QUEUE_HARD_CAP - 2) && |q.pushed| == DELIVERY_QUEUE_HARD_CAP
    ensures var r := Pushed(q, ANSWER).0;
      && r.items != [] && r.items[0] == Entry(0, CARD)
      && Entry(1, DENIAL) !in r.items && Entry(1, DENIAL) in r.evicted
  {
    FloodedMessages(DELIVERY_QUEUE_HARD_CAP - 2);
    AnswerPushed(q);
    LastAnswerEvicts(q, Append(q, q.items, ANSWER));
  }

  lemma FloodedMessages(n: nat)
    ensures forall e :: e in Flooded(n) ==> e.message in {CARD, DENIAL, ANSWER}
  {}

  lemma LastAnswerEvicts(q: Queue, full: Queue)
    requires q.items == Flooded(DELIVERY_QUEUE_HARD_CAP - 2) && |q.pushed| == DELIVERY_QUEUE_HARD_CAP
    requires full == Append(q, q.items, ANSWER)
    ensures var r := Trim(full);
      r.items != [] && r.items[0] == Entry(0, CARD) && Entry(1, DENIAL) !in r.items && Entry(1, DENIAL) in r.evicted
  {
    assert full.items == q.items + [Entry(DELIVERY_QUEUE_HARD_CAP, ANSWER)];
    FloodEvictsTheDenial(full.items);
    assert full.items[1] in full.items;
  }

  lemma FloodEvictsTheDenial(items: seq<Entry>)
    requires |items| > 2 && items[0] == Entry(0, CARD) && items[1] == Entry(1, DENIAL)
    requires forall i :: 2 <= i < |items| ==> items[i].message == ANSWER && items[i].ticket == i
    ensures AfterEvict(items) == RemoveAt(items, 1) && items[0] in AfterEvict(items) && items[1] !in AfterEvict(items)
    ensures AfterEvict(items)[0] == items[0]
  {
    VictimIsTheOldestOfTheLeast(items);
    assert EvictionRank(items[1].message) == 1;
    assert forall i :: 0 <= i < |items| && i != 1 ==> EvictionRank(items[i].message) >= 2;
  }

  // ------------------------------------------------------------- the queue itself

  class DeliveryQueue {
    var items: seq<Entry>
    var over: bool
    var ready: bool   // the stored permit of `Notify`
    var closed: bool
    var tickets: nat
    ghost var pushed: seq<Message>
    ghost var delivered: seq<Entry>
    ghost var shed: set<Entry>
    ghost var evicted: set<Entry>

    ghost function Contents(): Queue
      reads this
    {
      Queue(items, over, pushed, delivered, shed, evicted)
    }

    ghost predicate Valid()
      reads this
    {
      Sound(Contents()) && tickets == |pushed|
    }

    constructor ()
      ensures Valid() && Contents() == EMPTY && !ready && !closed
    {
      items, over, ready, closed, tickets := [], false, false, false, 0;
      pushed, delivered, shed, evicted := [], [], {}, {};
    }

    /** `PushLocked`, then a permit for the consumer if the message was queued. */
    method Push(message: Message)
      requires Valid()
      modifies this
      ensures Valid()
      ensures Contents() == Pushed(old(Contents()), message).0
      ensures ready == (old(ready) || Pushed(old(Contents()), message).1) && closed == old(closed)
    {
      ghost var was := Contents();
      PushKeeps(was, message);
      var wakes := PushLocked(message);
      assert Contents() == Pushed(was, message).0;
      if wakes {
        ready := true;
      }
    }

    /** The part of `push` under the lock. Answers whether the message was queued. */
    method PushLocked(message: Message) returns (queued: bool)
      requires tickets == |pushed|
      modifies this`items, this`over, this`tickets, this`pushed, this`shed, this`evicted
      ensures (Contents(), queued) == Pushed(old(Contents()), message)
      ensures tickets == |pushed|
    {
      ghost var was := Contents();
      var incoming := Entry(tickets, message);
      tickets := tickets + 1;
      pushed := pushed + [message];
      if |items| >= DELIVERY_QUEUE_BOUND {
        var queueIt := Shed(message);
        if !queueIt {
          shed := shed + {incoming};
          assert Contents() == Refuse(was, message);
          return false;
        }
      }
      ghost var room := items;
      assert shed == was.shed + (SetOf(was.items) - SetOf(room)) by {
        assert room == was.items ==> SetOf(was.items) - SetOf(room) == {};
      }
      items := items + [incoming];
      if |items| > DELIVERY_QUEUE_BOUND && !over {
        over := true;
      }
      assert Contents() == Append(was, room, message);
      if |items| > DELIVERY_QUEUE_HARD_CAP {
        Evict();
      }
      assert Contents() == Trim(Append(was, room, message));
      return true;
    }

    /** Drops one redundant message; `false` when that is the incoming one. */
    method Shed(incoming: Message) returns (queueIt: bool)
      modifies this`items, this`shed
      ensures (items, queueIt) == AfterShed(old(items), incoming)
      ensures shed == old(shed) + (SetOf(old(items)) - SetOf(items))
      ensures !queueIt ==> items == old(items) && shed == old(shed)
    {
      if Supersedes(incoming) {
        var retained := Filter(items, (e: Entry) => !Superseded(e.message, incoming));
        if |retained| < |items| {
          shed := shed + (SetOf(items) - SetOf(retained));
          items := retained;
          return true;
        }
      }
      var waiting := items;
      var oldest := Position(waiting, (e: Entry) => IsSheddableUpdate(waiting, e.message));
      if oldest.Some? {
        shed := shed + (SetOf(items) - SetOf(RemoveAt(items, oldest.value)));
        items := RemoveAt(items, oldest.value);
        return true;
      }
      queueIt := !IsSheddableUpdate(items, incoming);
    }

    /** Takes the victim out; when that is a card, the updates that settle it go too. */
    method Evict()
      requires items != []
      modifies this`items, this`evicted
      ensures items == AfterEvict(old(items))
      ensures evicted == old(evicted) + (SetOf(old(items)) - SetOf(items))
    {
      var index := Victim(items);
      var dropped := items[index].message;
      ghost var before := items;
      items := RemoveAt(items, index);
      if CardOf(dropped).Some? {
        items := Filter(items, (e: Entry) => !Answers(e.message, dropped));
      }
      evicted := evicted + (SetOf(before) - SetOf(items));
    }

    /** The locked half of `next`. */
    method TakeFront() returns (message: Option<Message>)
      requires Valid()
      modifies this`items, this`over, this`delivered
      ensures Valid() && Contents() == Taken(old(Contents()))
      ensures message == if old(items) == [] then None else Some(old(items)[0].message)
    {
      TakeKeeps(Contents());
      if items == [] {
        return None;
      }
      message := Some(items[0].message);
      delivered := delivered + [items[0]];
      items := items[1..];
      if |items| <= DELIVERY_QUEUE_BOUND {
        over := false;
      }
    }

    method Close()
      requires Valid()
      modifies this`closed
      ensures Valid() && closed
    {
      closed := true;
    }
  }
}
