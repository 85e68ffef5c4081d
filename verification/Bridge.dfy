/**
 The bridge between channels and the session hub (crates/channels/src/manager.rs): a table of
 connections in least-recently-used order, opened outside its lock, and the chain from a
 conversation's earlier keys to its current one.
 */
module Bridge {
  import opened Common

  // ------------------------------------------------------------- keys

  /** The table's key for a `(channel, session)` pair. */
  function Key(channelId: string, sessionKey: string): string {
    channelId + " " + sessionKey
  }

  /** The halves around the first space. */
  function SplitOnce(key: string): Option<(string, string)> {
    if key == "" then None
    else if key[0] == ' ' then Some(("", key[1..]))
    else match SplitOnce(key[1..])
      case None => None
      case Some((head, rest)) => Some(([key[0]] + head, rest))
  }

  function Namespaced(channelId: string, sessionKey: string): string {
    var prefix := channelId + ":";
    var key := if sessionKey == "" then "default" else sessionKey;
    if prefix <= key then key else prefix + key
  }

  lemma {:induction false} SpacelessSplits(channelId: string, sessionKey: string)
    requires ' ' !in channelId
    ensures SplitOnce(Key(channelId, sessionKey)) == Some((channelId, sessionKey))
  {
    var key := Key(channelId, sessionKey);
    if channelId == "" {
      assert key[1..] == sessionKey;
    } else {
      assert key[1..] == Key(channelId[1..], sessionKey);
      SpacelessSplits(channelId[1..], sessionKey);
      assert channelId == [channelId[0]] + channelId[1..];
    }
  }

  lemma {:induction false} HeadHasNoSpace(key: string)
    ensures SplitOnce(key).Some? ==> ' ' !in SplitOnce(key).value.0
  {
    if key != "" && key[0] != ' ' {
      HeadHasNoSpace(key[1..]);
    }
  }

  /** A key splits back into its halves exactly when the channel's id holds no space. */
  lemma KeySplits(channelId: string, sessionKey: string)
    ensures SplitOnce(Key(channelId, sessionKey)) == Some((channelId, sessionKey)) <==> ' ' !in channelId
  {
    HeadHasNoSpace(Key(channelId, sessionKey));
    if ' ' !in channelId {
      SpacelessSplits(channelId, sessionKey);
    }
  }

  /** Namespacing happens once: a channel's own keys are left alone, and stay that channel's. */
  lemma NamespacedOnce(channelId: string, sessionKey: string)
    ensures var key := Namespaced(channelId, sessionKey);
      channelId + ":" <= key && Namespaced(channelId, key) == key
  {}

  // ------------------------------------------------------------- moved conversations

  type Moved = map<string, string>

  /** The chain from `key` ends within `n` steps. */
  ghost predicate Ends(moved: Moved, key: string, n: nat)
    decreases n
  {
    key !in moved || (n > 0 && Ends(moved, moved[key], n - 1))
  }

  ghost function CurrentIn(moved: Moved, key: string, n: nat): (r: string)
    requires Ends(moved, key, n)
    ensures r !in moved
    decreases n
  {
    if key !in moved then key else CurrentIn(moved, moved[key], n - 1)
  }

  ghost predicate Finite(moved: Moved, key: string) {
    exists n: nat :: Ends(moved, key, n)
  }

  /** Every lookup comes to an end. */
  ghost predicate Acyclic(moved: Moved) {
    forall key :: Finite(moved, key)
  }

  /** The last key of the chain that starts at `key`. */
  ghost function Current(moved: Moved, key: string): (r: string)
    requires Acyclic(moved)
    ensures r !in moved
  {
    assert Finite(moved, key);
    var n: nat :| Ends(moved, key, n);
    CurrentIn(moved, key, n)
  }

  lemma {:induction false} SameEnd(moved: Moved, key: string, n: nat, m: nat)
    requires Ends(moved, key, n) && Ends(moved, key, m)
    ensures CurrentIn(moved, key, n) == CurrentIn(moved, key, m)
    decreases n
  {
    if key in moved {
      SameEnd(moved, moved[key], n - 1, m - 1);
    }
  }

  lemma CurrentIs(moved: Moved, key: string, n: nat)
    requires Acyclic(moved) && Ends(moved, key, n)
    ensures Current(moved, key) == CurrentIn(moved, key, n)
  {
    assert Finite(moved, key);
    var m: nat :| Ends(moved, key, m) && Current(moved, key) == CurrentIn(moved, key, m);
    SameEnd(moved, key, n, m);
  }

  lemma CurrentSteps(moved: Moved, key: string)
    requires Acyclic(moved)
    ensures Current(moved, key) == if key in moved then Current(moved, moved[key]) else key
  {
    assert Finite(moved, key);
    var n: nat :| Ends(moved, key, n);
    CurrentIs(moved, key, n);
    if key in moved {
      CurrentIs(moved, moved[key], n - 1);
    }
  }

  ghost predicate PassesWithin(moved: Moved, key: string, left: string, n: nat)
    decreases n
  {
    key == left || (n > 0 && key in moved && PassesWithin(moved, moved[key], left, n - 1))
  }

  /** The chain from `key` comes by `left`, at its end or on the way. */
  ghost predicate Passes(moved: Moved, key: string, left: string) {
    exists n: nat :: PassesWithin(moved, key, left, n)
  }

  lemma PassesSteps(moved: Moved, key: string, left: string)
    requires !Passes(moved, key, left) && key in moved
    ensures !Passes(moved, moved[key], left)
  {
    forall n: nat ensures !PassesWithin(moved, moved[key], left, n) {
      assert !PassesWithin(moved, key, left, n + 1);
    }
  }

  /** A chain that does not come by `left` is not changed by filing `left` under `continued`. */
  lemma {:induction false} OtherChainsStay(moved: Moved, left: string, continued: string, key: string, n: nat)
    requires Ends(moved, key, n) && !Passes(moved, key, left)
    ensures var after := moved[left := continued];
      Ends(after, key, n) && CurrentIn(after, key, n) == CurrentIn(moved, key, n)
    decreases n
  {
    assert !PassesWithin(moved, key, left, 0);
    if key in moved {
      PassesSteps(moved, key, left);
      OtherChainsStay(moved, left, continued, moved[key], n - 1);
    }
  }

  /** A chain that comes by `left` goes on to where `continued` leads. */
  lemma {:induction false} ChainsFollow(moved: Moved, left: string, continued: string, key: string, n: nat, m: nat)
    requires PassesWithin(moved, key, left, n)
    requires Ends(moved, continued, m) && !Passes(moved, continued, left)
    ensures var after := moved[left := continued];
      Ends(after, key, n + 1 + m) && CurrentIn(after, key, n + 1 + m) == CurrentIn(moved, continued, m)
    decreases n
  {
    var after := moved[left := continued];
    if key == left {
      OtherChainsStay(moved, left, continued, continued, m);
      EndsLater(after, continued, m, n + m);
      SameEnd(after, continued, m, n + m);
    } else {
      ChainsFollow(moved, left, continued, moved[key], n - 1, m);
    }
  }

  lemma {:induction false} EndsLater(moved: Moved, key: string, n: nat, m: nat)
    requires Ends(moved, key, n) && n <= m
    ensures Ends(moved, key, m)
    decreases n
  {
    if key in moved {
      EndsLater(moved, moved[key], n - 1, m - 1);
    }
  }

  /** If the chain from `continued` comes by `left`, a lookup that reaches `left` never ends again. */
  lemma {:induction false} CycleNeverEnds(moved: Moved, left: string, continued: string, m: nat, key: string, j: nat,
        n: nat)
    requires PassesWithin(moved, continued, left, m) && PassesWithin(moved, key, left, j)
    ensures !Ends(moved[left := continued], key, n)
    decreases n
  {
    if n > 0 {
      if key == left {
        CycleNeverEnds(moved, left, continued, m, continued, m, n - 1);
      } else {
        CycleNeverEnds(moved, left, continued, m, moved[key], j - 1, n - 1);
      }
    }
  }

  /**
   Filing `left` under `continued`, whether or not `left` was filed before, leaves every lookup finite
   exactly when the chain from `continued` does not come by `left`. Then every key whose chain came by
   `left` leads to where `continued` leads, and no other key's answer changes.
   */
  lemma FollowKeepsLookupsFinite(moved: Moved, left: string, continued: string)
    requires Acyclic(moved)
    ensures var after := moved[left := continued];
      && (Acyclic(after) <==> !Passes(moved, continued, left))
      && (Acyclic(after) ==> forall key ::
            Current(after, key) ==
              if Passes(moved, key, left) then Current(moved, continued) else Current(moved, key))
  {
    var after := moved[left := continued];
    if Passes(moved, continued, left) {
      var m: nat :| PassesWithin(moved, continued, left, m);
      assert PassesWithin(moved, left, left, 0);
      forall n: nat ensures !Ends(after, left, n) {
        CycleNeverEnds(moved, left, continued, m, left, 0, n);
      }
      assert !Finite(after, left);
    } else {
      forall key ensures Finite(after, key) {
        var _ := FollowedChain(moved, left, continued, key);
      }
      forall key ensures Current(after, key) ==
            if Passes(moved, key, left) then Current(moved, continued) else Current(moved, key)
      {
        var n := FollowedChain(moved, left, continued, key);
        CurrentIs(after, key, n);
      }
    }
  }

  lemma FollowedChain(moved: Moved, left: string, continued: string, key: string) returns (n: nat)
    requires Acyclic(moved) && !Passes(moved, continued, left)
    ensures Ends(moved[left := continued], key, n)
    ensures CurrentIn(moved[left := continued], key, n) ==
      if Passes(moved, key, left) then Current(moved, continued) else Current(moved, key)
  {
    assert Finite(moved, key) && Finite(moved, continued);
    if Passes(moved, key, left) {
      var j: nat, m: nat :| PassesWithin(moved, key, left, j) && Ends(moved, continued, m);
      CurrentIs(moved, continued, m);
      ChainsFollow(moved, left, continued, key, j, m);
      n := j + 1 + m;
    } else {
      n :| Ends(moved, key, n);
      CurrentIs(moved, key, n);
      OtherChainsStay(moved, left, continued, key, n);
    }
  }

  lemma {:induction false} PassesItsEnd(moved: Moved, key: string, n: nat)
    requires Ends(moved, key, n)
    ensures PassesWithin(moved, key, CurrentIn(moved, key, n), n)
    decreases n
  {
    if key in moved {
      PassesItsEnd(moved, moved[key], n - 1);
    }
  }

  lemma {:induction false} EndsWherePassed(moved: Moved, key: string, left: string, j: nat, n: nat)
    requires PassesWithin(moved, key, left, j) && left !in moved && Ends(moved, key, n)
    ensures CurrentIn(moved, key, n) == left
    decreases n
  {
    if key in moved {
      EndsWherePassed(moved, moved[key], left, j - 1, n - 1);
    }
  }

  /** A key that has not moved on is come by exactly by the chains that end there. */
  lemma PassesAnEnd(moved: Moved, key: string, left: string)
    requires Acyclic(moved) && left !in moved
    ensures Passes(moved, key, left) <==> Current(moved, key) == left
  {
    assert Finite(moved, key);
    var n: nat :| Ends(moved, key, n);
    CurrentIs(moved, key, n);
    PassesItsEnd(moved, key, n);
    if Passes(moved, key, left) {
      var j: nat :| PassesWithin(moved, key, left, j);
      EndsWherePassed(moved, key, left, j, n);
    }
  }

  /** A key that has not moved on leads nowhere else. */
  lemma UnmovedPassesItself(moved: Moved, key: string, left: string)
    requires key !in moved
    ensures Passes(moved, key, left) <==> key == left
  {
    assert PassesWithin(moved, key, left, 0) == (key == left);
  }

  // ------------------------------------------------------------- the table, and eviction

  /** One entry; `origin` is the session key its connection was opened under, which its events keep. */
  datatype Bridged = Bridged(
    key: string, channelId: string, sessionKey: string, connection: nat, origin: string, target: string, busy: bool)

  function IndexOf(table: seq<Bridged>, key: string): Option<nat> {
    Position(table, (b: Bridged) => b.key == key)
  }

  predicate HasKey(table: seq<Bridged>, key: string) {
    IndexOf(table, key).Some?
  }

  predicate Stays(b: Bridged, exclude: string) {
    b.key == exclude || b.busy
  }

  function Connections(table: seq<Bridged>): (r: seq<nat>)
    ensures |r| == |table|
  {
    seq(|table|, i requires 0 <= i < |table| => table[i].connection)
  }

  /** One walk from the least recently used end, dropping idle entries until `excess` are gone. */
  function Sweep(table: seq<Bridged>, exclude: string, excess: nat): (r: (seq<Bridged>, seq<nat>))
    ensures |r.0| + |r.1| == |table| && |r.1| <= excess
    ensures |r.1| < excess ==> forall b :: b in r.0 ==> Stays(b, exclude)
    ensures forall b :: b in r.0 ==> b in table
  {
    if excess == 0 || table == [] then (table, [])
    else if Stays(table[0], exclude) then
      var (kept, closed) := Sweep(table[1..], exclude, excess);
      ([table[0]] + kept, closed)
    else
      var (kept, closed) := Sweep(table[1..], exclude, excess - 1);
      (kept, [table[0].connection] + closed)
  }

  function Excess(table: seq<Bridged>, max: nat): nat {
    if |table| > max then |table| - max else 0
  }

  /** Taking out the first idle entry is the first thing a sweep does. */
  lemma {:induction false} SweepStep(table: seq<Bridged>, exclude: string, excess: nat)
    requires excess > 0
    ensures match Position(table, (b: Bridged) => !Stays(b, exclude))
      case None => Sweep(table, exclude, excess) == (table, [])
      case Some(i) =>
        var (kept, closed) := Sweep(RemoveAt(table, i), exclude, excess - 1);
        Sweep(table, exclude, excess) == (kept, [table[i].connection] + closed)
  {
    if table != [] && Stays(table[0], exclude) {
      SweepStep(table[1..], exclude, excess);
      match Position(table[1..], (b: Bridged) => !Stays(b, exclude))
      case None => assert table == [table[0]] + table[1..];
      case Some(i) =>
        RemoveAtTail(table, i);
        SweepTail(table[0], RemoveAt(table[1..], i), exclude, excess - 1);
    } else if table != [] {
      assert RemoveAt(table, 0) == table[1..];
    }
  }

  lemma RemoveAtTail(table: seq<Bridged>, i: nat)
    requires i + 1 < |table|
    ensures RemoveAt(table, i + 1) == [table[0]] + RemoveAt(table[1..], i)
  {
    assert table[..i + 1] == [table[0]] + table[1..][..i];
    assert table[1..][i + 1..] == table[i + 2..];
  }

  lemma SweepTail(head: Bridged, tail: seq<Bridged>, exclude: string, excess: nat)
    requires Stays(head, exclude)
    ensures var (kept, closed) := Sweep(tail, exclude, excess);
      Sweep([head] + tail, exclude, excess) == ([head] + kept, closed)
  {
    assert ([head] + tail)[1..] == tail;
  }

  /** The busy entries and the excluded one, in order. */
  function Staying(table: seq<Bridged>, exclude: string): seq<Bridged> {
    Filter(table, (b: Bridged) => Stays(b, exclude))
  }

  /** The connections of the idle entries, in order. */
  function Idle(table: seq<Bridged>, exclude: string): seq<nat> {
    if table == [] then []
    else (if Stays(table[0], exclude) then [] else [table[0].connection]) + Idle(table[1..], exclude)
  }

  /** Every idle entry before `point` gone, nothing from `point` on. */
  function Swept(table: seq<Bridged>, exclude: string, point: nat): (seq<Bridged>, seq<nat>)
    requires point <= |table|
  {
    (Staying(table[..point], exclude) + table[point..], Idle(table[..point], exclude))
  }

  lemma SweptFirst(table: seq<Bridged>, exclude: string, point: nat)
    requires 0 < point <= |table|
    ensures var (kept, closed) := Swept(table[1..], exclude, point - 1);
      Swept(table, exclude, point) ==
        if Stays(table[0], exclude) then ([table[0]] + kept, closed) else (kept, [table[0].connection] + closed)
  {
    var before := table[..point];
    assert before[1..] == table[1..][..point - 1];
    assert table[1..][point - 1..] == table[point..];
    var tail := Staying(before[1..], exclude);
    if Stays(table[0], exclude) {
      assert [table[0]] + tail + table[point..] == [table[0]] + (tail + table[point..]);
      assert [] + Idle(before[1..], exclude) == Idle(before[1..], exclude);
    } else {
      assert [] + tail == tail;
    }
  }

  /**
   Who is evicted: up to some point of the table every idle entry but the excluded one, in order, and
   nothing from that point on. So the least recently used go first, busy ones never go, the rest keep
   their order, and it stops at the cap or at the end of the table.
   */
  lemma {:induction false} SweepTakesAPrefix(table: seq<Bridged>, exclude: string, excess: nat) returns (point: nat)
    ensures point <= |table| && Sweep(table, exclude, excess) == Swept(table, exclude, point)
    ensures |Swept(table, exclude, point).1| == excess || point == |table|
  {
    if excess == 0 || table == [] {
      point := 0;
      assert table[..0] == [] && [] + table[0..] == table;
    } else {
      var rest := SweepTakesAPrefix(table[1..], exclude, if Stays(table[0], exclude) then excess else excess - 1);
      point := rest + 1;
      SweptFirst(table, exclude, point);
    }
  }

  // ------------------------------------------------------------- racing callers

  /** A caller of `ensure` between its locked sections. */
  datatype Caller =
    | Missed(channelId: string, sessionKey: string, target: string)
    | Holding(channelId: string, sessionKey: string, target: string, connection: nat)

  /** Connections are numbered as they are opened. */
  datatype Hub = Hub(
    table: seq<Bridged>, moved: Moved, made: nat, closed: set<nat>, callers: map<nat, Caller>, max: nat)

  datatype Event =
    | Check(caller: nat, channelId: string, sessionKey: string, target: string)
    | Connect(caller: nat)
    | Insert(caller: nat)
    | Compacted(key: string, continued: string)
    | Status(key: string, busy: bool)
    | CloseAll

  function Start(max: nat): Hub {
    Hub([], map[], 0, {}, map[], max)
  }

  function Touched(table: seq<Bridged>, index: nat): seq<Bridged>
    requires index < |table|
  {
    RemoveAt(table, index) + [table[index]]
  }

  function SetOf(connections: seq<nat>): set<nat> {
    set c | c in connections
  }

  /** The loser of a race closes its own connection; the winner's entry goes in last, and the cap is applied. */
  function Inserted(hub: Hub, caller: nat): Hub
    requires caller in hub.callers && hub.callers[caller].Holding?
  {
    var h := hub.callers[caller];
    var key := Key(h.channelId, h.sessionKey);
    var callers := hub.callers - {caller};
    if HasKey(hub.table, key) then hub.(closed := hub.closed + {h.connection}, callers := callers)
    else
      var table := hub.table + [Bridged(key, h.channelId, h.sessionKey, h.connection, h.sessionKey, h.target, false)];
      var (kept, gone) := Sweep(table, key, Excess(table, hub.max));
      hub.(table := kept, closed := hub.closed + SetOf(gone), callers := callers)
  }

  /** Files an entry under the key its conversation carries on as. */
  function Refiled(table: seq<Bridged>, index: nat, continued: string): seq<Bridged>
    requires index < |table|
  {
    var entry := table[index].(key := Key(table[index].channelId, continued), sessionKey := continued);
    var rest := RemoveAt(table, index);
    match IndexOf(rest, entry.key)
    case None => rest + [entry]
    case Some(at) => rest[at := entry]
  }

  /** The key itself while something is filed there, else its channel with its current session. */
  ghost function Resolve(table: seq<Bridged>, moved: Moved, key: string): string
    requires Acyclic(moved)
  {
    if HasKey(table, key) then key
    else match SplitOnce(key)
      case Some((channelId, sessionKey)) => Key(channelId, Current(moved, sessionKey))
      case None => key
  }

  ghost function Followed(hub: Hub, key: string, continued: string): Hub
    requires Acyclic(hub.moved)
  {
    match IndexOf(hub.table, Resolve(hub.table, hub.moved, key))
    case None => hub
    case Some(index) =>
      hub.(table := Refiled(hub.table, index, continued),
           moved := hub.moved[hub.table[index].sessionKey := continued])
  }

  ghost function Step(hub: Hub, event: Event): Hub
    requires Acyclic(hub.moved)
  {
    match event
    case Check(caller, channelId, sessionKey, target) =>
      (match IndexOf(hub.table, Key(channelId, sessionKey))
       case Some(index) => hub.(table := Touched(hub.table, index))
       case None =>
         if caller in hub.callers then hub
         else hub.(callers := hub.callers[caller := Missed(channelId, sessionKey, target)]))
    case Connect(caller) =>
      if caller in hub.callers && hub.callers[caller].Missed? then
        var m := hub.callers[caller];
        hub.(callers := hub.callers[caller := Holding(m.channelId, m.sessionKey, m.target, hub.made)],
             made := hub.made + 1)
      else hub
    case Insert(caller) =>
      if caller in hub.callers && hub.callers[caller].Holding? then Inserted(hub, caller) else hub
    case Compacted(key, continued) => Followed(hub, key, continued)
    case Status(key, busy) =>
      (match IndexOf(hub.table, Resolve(hub.table, hub.moved, key))
       case None => hub
       case Some(index) => hub.(table := hub.table[index := hub.table[index].(busy := busy)]))
    case CloseAll => hub.(table := [], closed := hub.closed + SetOf(Connections(hub.table)))
  }

  // ------------------------------------------------------------- connections are conserved

  ghost predicate InTable(table: seq<Bridged>, c: nat) {
    exists b :: b in table && b.connection == c
  }

  ghost predicate Held(hub: Hub, c: nat) {
    exists caller :: caller in hub.callers && hub.callers[caller].Holding? && hub.callers[caller].connection == c
  }

  ghost predicate DistinctConnections(table: seq<Bridged>) {
    forall i, j :: 0 <= i < j < |table| ==> table[i].connection != table[j].connection
  }

  /** Every connection ever opened is in the table, closed, or held by a caller in between: exactly one of them. */
  ghost predicate Conserved(hub: Hub) {
    && (forall c: nat :: c < hub.made <==> InTable(hub.table, c) || c in hub.closed || Held(hub, c))
    && (forall c: nat :: InTable(hub.table, c) ==> c !in hub.closed && !Held(hub, c))
    && (forall c: nat :: c in hub.closed ==> !Held(hub, c))
    && DistinctConnections(hub.table)
    && (forall x, y :: x in hub.callers && y in hub.callers && x != y
          && hub.callers[x].Holding? && hub.callers[y].Holding?
          ==> hub.callers[x].connection != hub.callers[y].connection)
  }

  /** The chain from the continuation key does not come by the session of the entry that moves. */
  ghost predicate LeadsAway(hub: Hub, key: string, continued: string)
    requires Acyclic(hub.moved)
  {
    match IndexOf(hub.table, Resolve(hub.table, hub.moved, key))
    case None => true
    case Some(index) => !Passes(hub.moved, continued, hub.table[index].sessionKey)
  }

  /** No other entry is filed under the continuation key. */
  ghost predicate IsFree(hub: Hub, key: string, continued: string)
    requires Acyclic(hub.moved)
  {
    match IndexOf(hub.table, Resolve(hub.table, hub.moved, key))
    case None => true
    case Some(index) => !HasKey(RemoveAt(hub.table, index), Key(hub.table[index].channelId, continued))
  }

  /** What a continuation key has to be, wherever the entry that moves had got to. */
  ghost predicate FreshKey(hub: Hub, key: string, continued: string)
    requires Acyclic(hub.moved)
  {
    LeadsAway(hub, key, continued) && IsFree(hub, key, continued)
  }

  /** The same connections, each in one entry. */
  ghost predicate SameConnections(a: seq<Bridged>, b: seq<Bridged>) {
    && (forall c: nat :: InTable(a, c) <==> InTable(b, c))
    && (DistinctConnections(a) ==> DistinctConnections(b))
  }

  /** Taking an entry out and putting it back last, changed in anything but its connection. */
  lemma MovedLast(table: seq<Bridged>, index: nat, entry: Bridged)
    requires index < |table| && entry.connection == table[index].connection
    ensures SameConnections(table, RemoveAt(table, index) + [entry])
  {
    var rest := RemoveAt(table, index);
    var after := rest + [entry];
    assert forall i :: 0 <= i < |rest| ==> rest[i] == table[if i < index then i else i + 1];
    forall c: nat ensures InTable(table, c) <==> InTable(after, c) {
      if InTable(table, c) {
        var b :| b in table && b.connection == c;
        var i :| 0 <= i < |table| && table[i] == b;
        assert i != index ==> rest[if i < index then i else i - 1] == b;
        assert i == index ==> after[|rest|] == entry;
        assert if i == index then entry in after else b in after;
      }
      if InTable(after, c) {
        var b :| b in after && b.connection == c;
        assert if b in rest then b in table else table[index] in table;
      }
    }
  }

  lemma Changed(table: seq<Bridged>, index: nat, entry: Bridged)
    requires index < |table| && entry.connection == table[index].connection
    ensures SameConnections(table, table[index := entry])
  {
    var after := table[index := entry];
    forall c: nat ensures InTable(table, c) <==> InTable(after, c) {
      if InTable(table, c) {
        var b :| b in table && b.connection == c;
        var i :| 0 <= i < |table| && table[i] == b;
        assert after[i] in after;
      }
      if InTable(after, c) {
        var b :| b in after && b.connection == c;
        var i :| 0 <= i < |after| && after[i] == b;
        assert table[i] in table;
      }
    }
  }

  /** A sweep closes or keeps each connection, never both. */
  lemma {:induction false} SweepConserves(table: seq<Bridged>, exclude: string, excess: nat)
    requires DistinctConnections(table)
    ensures var (kept, closed) := Sweep(table, exclude, excess);
      && DistinctConnections(kept)
      && (forall c: nat :: InTable(table, c) <==> InTable(kept, c) || c in closed)
      && (forall c: nat :: InTable(kept, c) ==> c !in closed)
  {
    if excess > 0 && table != [] {
      var head, tail := table[0], table[1..];
      var stays := Stays(head, exclude);
      SweepConserves(tail, exclude, if stays then excess else excess - 1);
      var (kept, closed) := Sweep(tail, exclude, if stays then excess else excess - 1);
      HeadConnection(head, tail);
      assert table == [head] + tail;
      if stays {
        HeadConnection(head, kept);
      }
    }
  }

  lemma HeadConnection(head: Bridged, tail: seq<Bridged>)
    ensures forall c: nat :: InTable([head] + tail, c) <==> c == head.connection || InTable(tail, c)
    ensures DistinctConnections([head] + tail) <==> DistinctConnections(tail) && !InTable(tail, head.connection)
  {
    var table := [head] + tail;
    assert head in table;
    assert forall b :: b in table <==> b == head || b in tail;
    if DistinctConnections(tail) && !InTable(tail, head.connection) {
      forall i, j | 0 <= i < j < |table| ensures table[i].connection != table[j].connection {
        assert table[j] in tail;
      }
    }
    if DistinctConnections(table) {
      forall b | b in tail ensures b.connection != head.connection {
        var i :| 0 <= i < |tail| && tail[i] == b;
        assert table[i + 1] == b && table[0] == head;
      }
      forall i, j | 0 <= i < j < |tail| ensures tail[i].connection != tail[j].connection {
        assert table[i + 1] == tail[i] && table[j + 1] == tail[j];
      }
    }
  }

  lemma LastConnection(table: seq<Bridged>, last: Bridged)
    ensures forall c: nat :: InTable(table + [last], c) <==> c == last.connection || InTable(table, c)
    ensures DistinctConnections(table) && !InTable(table, last.connection) ==> DistinctConnections(table + [last])
  {
    var after := table + [last];
    assert last in after;
    assert forall b :: b in after <==> b == last || b in table;
    assert forall i :: 0 <= i < |table| ==> table[i] in table;
  }

  lemma InsertConserves(hub: Hub, caller: nat)
    requires Conserved(hub) && caller in hub.callers && hub.callers[caller].Holding?
    ensures Conserved(Inserted(hub, caller))
  {
    var h := hub.callers[caller];
    var after := Inserted(hub, caller);
    assert Held(hub, h.connection);
    HeldAfter(hub, caller);
    if !HasKey(hub.table, Key(h.channelId, h.sessionKey)) {
      var key := Key(h.channelId, h.sessionKey);
      var entry := Bridged(key, h.channelId, h.sessionKey, h.connection, h.sessionKey, h.target, false);
      LastConnection(hub.table, entry);
      SweepConserves(hub.table + [entry], key, Excess(hub.table + [entry], hub.max));
    }
  }

  /** Once a caller is done, what is held is what the others hold. */
  lemma HeldAfter(hub: Hub, caller: nat)
    requires Conserved(hub) && caller in hub.callers && hub.callers[caller].Holding?
    ensures forall c: nat :: Held(hub.(callers := hub.callers - {caller}), c) <==>
        Held(hub, c) && c != hub.callers[caller].connection
    ensures forall c: nat :: Held(Inserted(hub, caller), c) <==> Held(hub.(callers := hub.callers - {caller}), c)
  {
    var after := hub.(callers := hub.callers - {caller});
    forall c: nat ensures Held(after, c) <==> Held(hub, c) && c != hub.callers[caller].connection {
      if Held(hub, c) && c != hub.callers[caller].connection {
        var x :| x in hub.callers && hub.callers[x].Holding? && hub.callers[x].connection == c;
        assert x in after.callers;
      }
    }
  }

  lemma ConnectConserves(hub: Hub, caller: nat)
    requires Conserved(hub) && caller in hub.callers && hub.callers[caller].Missed?
    ensures Conserved(Step(hub, Connect(caller)))
    requires Acyclic(hub.moved)
  {
    var after := Step(hub, Connect(caller));
    assert !Held(hub, hub.made) && !InTable(hub.table, hub.made) && hub.made !in hub.closed;
    forall c: nat ensures Held(after, c) <==> Held(hub, c) || c == hub.made {
      if Held(hub, c) {
        var x :| x in hub.callers && hub.callers[x].Holding? && hub.callers[x].connection == c;
        assert x in after.callers && after.callers[x] == hub.callers[x];
      }
      if c == hub.made {
        assert caller in after.callers;
      }
    }
    forall x | x in hub.callers && hub.callers[x].Holding? ensures hub.callers[x].connection != hub.made {
      assert Held(hub, hub.callers[x].connection);
    }
  }

  /** A table with the same connections, under the same callers, conserves what was conserved. */
  lemma SameTableConserves(hub: Hub, after: Hub)
    requires Conserved(hub) && SameConnections(hub.table, after.table)
    requires after.closed == hub.closed && after.callers == hub.callers && after.made == hub.made
    ensures Conserved(after)
  {
    assert forall c: nat :: Held(after, c) <==> Held(hub, c);
  }

  lemma CheckConserves(hub: Hub, caller: nat, channelId: string, sessionKey: string, target: string)
    requires Conserved(hub) && Acyclic(hub.moved)
    ensures Conserved(Step(hub, Check(caller, channelId, sessionKey, target)))
  {
    var after := Step(hub, Check(caller, channelId, sessionKey, target));
    match IndexOf(hub.table, Key(channelId, sessionKey))
    case Some(index) =>
      MovedLast(hub.table, index, hub.table[index]);
      SameTableConserves(hub, after);
    case None =>
      forall c: nat ensures Held(after, c) <==> Held(hub, c) {
        if Held(hub, c) {
          var x :| x in hub.callers && hub.callers[x].Holding? && hub.callers[x].connection == c;
          assert x in after.callers && after.callers[x] == hub.callers[x];
        }
      }
  }

  lemma CloseAllConserves(hub: Hub)
    requires Conserved(hub) && Acyclic(hub.moved)
    ensures Conserved(Step(hub, CloseAll))
  {
    var after := Step(hub, CloseAll);
    var connections := Connections(hub.table);
    forall c: nat ensures c in connections <==> InTable(hub.table, c) {
      if InTable(hub.table, c) {
        var b :| b in hub.table && b.connection == c;
        var i :| 0 <= i < |hub.table| && hub.table[i] == b;
        assert connections[i] == c;
      }
      if c in connections {
        var i :| 0 <= i < |connections| && connections[i] == c;
        assert hub.table[i] in hub.table;
      }
    }
    assert forall c: nat :: Held(after, c) <==> Held(hub, c);
  }

  /**
   Racing `ensure` calls, evictions and a shutdown conserve every connection; a move does, and leaves every
   lookup finite, exactly when its continuation key is fresh.
   */
  lemma StepConserves(hub: Hub, event: Event)
    requires Conserved(hub) && Acyclic(hub.moved)
    ensures Conserved(Step(hub, event)) && Acyclic(Step(hub, event).moved) <==>
        (event.Compacted? ==> FreshKey(hub, event.key, event.continued))
  {
    match event
    case Check(caller, channelId, sessionKey, target) => CheckConserves(hub, caller, channelId, sessionKey, target);
    case Connect(caller) =>
      if caller in hub.callers && hub.callers[caller].Missed? {
        ConnectConserves(hub, caller);
      }
    case Insert(caller) =>
      if caller in hub.callers && hub.callers[caller].Holding? {
        InsertConserves(hub, caller);
      }
    case Compacted(key, continued) =>
      FollowConservesIff(hub, key, continued);
      FollowEndsIff(hub, key, continued);
    case Status(key, busy) =>
      var found := IndexOf(hub.table, Resolve(hub.table, hub.moved, key));
      if found.Some? {
        Changed(hub.table, found.value, hub.table[found.value].(busy := busy));
        SameTableConserves(hub, Step(hub, event));
      }
    case CloseAll => CloseAllConserves(hub);
  }

  /**
   Filing an entry under the key its conversation carries on as conserves every connection exactly when
   no other entry has that key: the one that had it is replaced, and its connection never closed.
   */
  lemma FollowConservesIff(hub: Hub, key: string, continued: string)
    requires Conserved(hub) && Acyclic(hub.moved)
    ensures Conserved(Followed(hub, key, continued)) <==> IsFree(hub, key, continued)
  {
    var found := IndexOf(hub.table, Resolve(hub.table, hub.moved, key));
    if found.Some? {
      var index := found.value;
      var entry := hub.table[index].(key := Key(hub.table[index].channelId, continued), sessionKey := continued);
      var rest := RemoveAt(hub.table, index);
      if HasKey(rest, entry.key) {
        ReplacedIsLost(hub, index, entry, IndexOf(rest, entry.key).value, Followed(hub, key, continued));
      } else {
        MovedLast(hub.table, index, entry);
        SameTableConserves(hub, Followed(hub, key, continued));
      }
    }
  }

  /** And it leaves every lookup finite exactly when the continuation does not lead back. */
  lemma FollowEndsIff(hub: Hub, key: string, continued: string)
    requires Acyclic(hub.moved)
    ensures Acyclic(Followed(hub, key, continued).moved) <==> LeadsAway(hub, key, continued)
  {
    var found := IndexOf(hub.table, Resolve(hub.table, hub.moved, key));
    if found.Some? {
      FollowKeepsLookupsFinite(hub.moved, hub.table[found.value].sessionKey, continued);
    }
  }

  /** A key that is nobody's yet is fresh, for an entry whose session has moved on too. */
  lemma NewKeyIsFresh(hub: Hub, key: string, continued: string)
    requires Acyclic(hub.moved) && continued !in hub.moved
    requires forall b :: b in hub.table ==> b.sessionKey != continued
    requires forall a, b :: a in hub.table && b in hub.table ==> a.key != Key(b.channelId, continued)
    ensures FreshKey(hub, key, continued)
  {
    var found := IndexOf(hub.table, Resolve(hub.table, hub.moved, key));
    if found.Some? {
      var entry := hub.table[found.value];
      assert entry in hub.table;
      UnmovedPassesItself(hub.moved, continued, entry.sessionKey);
      assert forall b :: b in RemoveAt(hub.table, found.value) ==> b in hub.table;
    }
  }

  lemma ReplacedIsLost(hub: Hub, index: nat, entry: Bridged, at: nat, after: Hub)
    requires Conserved(hub) && index < |hub.table| && entry.connection == hub.table[index].connection
    requires at < |hub.table| - 1 && after.table == RemoveAt(hub.table, index)[at := entry]
    requires after.closed == hub.closed && after.callers == hub.callers && after.made == hub.made
    ensures !Conserved(after)
  {
    var rest := RemoveAt(hub.table, index);
    assert forall i :: 0 <= i < |rest| ==> rest[i] == hub.table[if i < index then i else i + 1];
    var lost := rest[at].connection;
    assert rest[at] in hub.table && InTable(hub.table, lost);
    assert !Held(after, lost) <==> !Held(hub, lost);
    assert !InTable(after.table, lost);
  }

  /** A run of events, each continuation key fresh when it arrives; entries whose session has moved on take part. */
  ghost predicate Reaches(hub: Hub, events: seq<Event>, end: Hub)
    decreases |events|
  {
    if events == [] then hub == end
    else
      && Acyclic(hub.moved)
      && (events[0].Compacted? ==> FreshKey(hub, events[0].key, events[0].continued))
      && Reaches(Step(hub, events[0]), events[1..], end)
  }

  /**
   In every run, each connection ever opened is in the table, closed, or held by a caller between its
   check and its insert, and in exactly one of those; and every lookup of a moved conversation ends.
   */
  lemma {:induction false} ConnectionsAreConserved(hub: Hub, events: seq<Event>, end: Hub)
    requires Conserved(hub) && Acyclic(hub.moved) && Reaches(hub, events, end)
    ensures Conserved(end) && Acyclic(end.moved)
    decreases |events|
  {
    if events != [] {
      StepConserves(hub, events[0]);
      ConnectionsAreConserved(Step(hub, events[0]), events[1..], end);
    }
  }

  lemma StartConserves(max: nat)
    ensures Conserved(Start(max)) && Acyclic(Start(max).moved)
  {
    var none: Moved := map[];
    forall key ensures Finite(none, key) {
      assert Ends(none, key, 0);
    }
  }

  // ------------------------------------------------------------- shutting down

  ghost predicate AllClosed(hub: Hub) {
    forall c: nat :: c < hub.made ==> c in hub.closed
  }

  /** Closing everything closes every connection opened so far exactly when no caller is holding one. */
  lemma ShutdownClosesAllIff(hub: Hub)
    requires Conserved(hub) && Acyclic(hub.moved)
    ensures AllClosed(Step(hub, CloseAll)) <==> forall caller :: caller in hub.callers ==> hub.callers[caller].Missed?
  {
    CloseAllConserves(hub);
    var after := Step(hub, CloseAll);
    assert forall c: nat :: !InTable(after.table, c);
    forall caller | caller in hub.callers && hub.callers[caller].Holding?
      ensures hub.callers[caller].connection < hub.made && hub.callers[caller].connection !in after.closed
    {
      assert Held(after, hub.callers[caller].connection);
    }
  }

  /** With no caller in between, and none that asks again, whatever still happens leaves nothing open. */
  lemma {:induction false} NothingReopens(hub: Hub, events: seq<Event>, end: Hub)
    requires AllClosed(hub) && hub.table == [] && hub.callers == map[] && Reaches(hub, events, end)
    requires forall event :: event in events ==> !event.Check?
    ensures AllClosed(end) && end.table == [] && end.callers == map[]
    decreases |events|
  {
    if events != [] {
      assert events[0] in events && forall event :: event in events[1..] ==> event in events;
      NothingReopens(Step(hub, events[0]), events[1..], end);
    }
  }

  /**
   A caller in between is enough: once everything is closed, its connect and insert file a connection that
   nothing closes any more. So a shutdown leaves nothing open exactly when no caller is in between.
   */
  lemma LateInsertStaysOpen(hub: Hub, caller: nat)
    requires Conserved(hub) && Acyclic(hub.moved) && caller in hub.callers
    ensures var shut := Step(hub, CloseAll);
      var end := Step(Step(shut, Connect(caller)), Insert(caller));
      end.table != [] && !AllClosed(end)
  {
    var shut := Step(hub, CloseAll);
    CloseAllConserves(hub);
    StepConserves(shut, Connect(caller));
    var holding := Step(shut, Connect(caller));
    assert holding.table == [] && holding.callers[caller].Holding?;
    StepConserves(holding, Insert(caller));
    var end := Step(holding, Insert(caller));
    var h := holding.callers[caller];
    var key := Key(h.channelId, h.sessionKey);
    var entry := Bridged(key, h.channelId, h.sessionKey, h.connection, h.sessionKey, h.target, false);
    assert [] + [entry] == [entry];
    assert Sweep([entry], key, Excess([entry], hub.max)).0 == [entry];
    assert entry in end.table && InTable(end.table, entry.connection);
  }

  // ------------------------------------------------------------- conversations are found where they moved

  /** An entry is where its conversation carries on, and under the key that says so. */
  ghost predicate Live(moved: Moved, b: Bridged)
    requires Acyclic(moved)
  {
    && b.key == Key(b.channelId, b.sessionKey) && ' ' !in b.channelId
    && b.sessionKey !in moved
    && Current(moved, b.origin) == b.sessionKey
  }

  ghost predicate DistinctSessions(table: seq<Bridged>) {
    forall i, j :: 0 <= i < j < |table| ==> table[i].sessionKey != table[j].sessionKey
  }

  ghost predicate Settled(hub: Hub) {
    && Acyclic(hub.moved)
    && (forall b :: b in hub.table ==> Live(hub.moved, b))
    && DistinctSessions(hub.table)
  }

  ghost predicate HasSession(table: seq<Bridged>, sessionKey: string) {
    exists b :: b in table && b.sessionKey == sessionKey
  }

  lemma KeyIsThere(table: seq<Bridged>, b: Bridged)
    requires b in table
    ensures HasKey(table, b.key)
  {}

  /** Events of a connection opened under an earlier key find the entry where it is filed now. */
  lemma EarlierKeysResolve(hub: Hub, b: Bridged)
    requires Settled(hub) && b in hub.table
    ensures Resolve(hub.table, hub.moved, Key(b.channelId, b.origin)) == b.key
  {
    CurrentSteps(hub.moved, b.origin);
    KeySplits(b.channelId, b.origin);
    KeyIsThere(hub.table, b);
    if b.origin in hub.moved && HasKey(hub.table, Key(b.channelId, b.origin)) {
      var other := hub.table[IndexOf(hub.table, Key(b.channelId, b.origin)).value];
      assert other in hub.table;
      KeySplits(other.channelId, other.sessionKey);
    }
  }

  /** A message published on any key that leads to a live entry finds it, without opening a connection. */
  lemma EarlierSessionsFindTheEntry(hub: Hub, b: Bridged, sessionKey: string, caller: nat, target: string)
    requires Settled(hub) && b in hub.table && Current(hub.moved, sessionKey) == b.sessionKey
    ensures var after := Step(hub, Check(caller, b.channelId, Current(hub.moved, sessionKey), target));
      after.callers == hub.callers && after.table != [] && after.table[|after.table| - 1] == b
  {
    KeyIsThere(hub.table, b);
    var found := hub.table[IndexOf(hub.table, b.key).value];
    assert found in hub.table;
    KeySplits(found.channelId, found.sessionKey);
    KeySplits(b.channelId, b.sessionKey);
    SameSession(hub.table, b, found);
  }

  /** So does one that names its session as the channel does, or by the key the hub gave it: they are one ask. */
  lemma EitherNameFindsTheEntry(hub: Hub, b: Bridged, sessionKey: string, caller: nat, target: string)
    requires Settled(hub) && b in hub.table && Current(hub.moved, Namespaced(b.channelId, sessionKey)) == b.sessionKey
    ensures var named := Namespaced(b.channelId, sessionKey);
      var after := Step(hub, Check(caller, b.channelId, Current(hub.moved, Namespaced(b.channelId, named)), target));
      after.callers == hub.callers && after.table != [] && after.table[|after.table| - 1] == b
  {
    NamespacedOnce(b.channelId, sessionKey);
    EarlierSessionsFindTheEntry(hub, b, Namespaced(b.channelId, sessionKey), caller, target);
  }

  lemma SameSession(table: seq<Bridged>, a: Bridged, b: Bridged)
    requires DistinctSessions(table) && a in table && b in table && a.sessionKey == b.sessionKey
    ensures a == b
  {
    var i :| 0 <= i < |table| && table[i] == a;
    var j :| 0 <= j < |table| && table[j] == b;
  }

  /** What is left of the table when `caller`'s entry has been filed and the cap applied, that entry aside. */
  function Spared(hub: Hub, caller: nat): seq<Bridged>
    requires caller in hub.callers
  {
    var key := Key(hub.callers[caller].channelId, hub.callers[caller].sessionKey);
    Sweep(hub.table, key, if |hub.table| + 1 > hub.max then |hub.table| + 1 - hub.max else 0).0
  }

  /** An entry at the end that stays is kept there, and the sweep does to the others what it would without it. */
  lemma {:induction false} SweepKeepsTheLast(table: seq<Bridged>, last: Bridged, exclude: string, excess: nat)
    requires Stays(last, exclude)
    ensures Sweep(table + [last], exclude, excess).0 == Sweep(table, exclude, excess).0 + [last]
  {
    if table == [] {
      assert [last][1..] == [] && table + [last] == [last];
      assert excess > 0 ==> Sweep([last][1..], exclude, excess).0 == [];
    } else {
      assert (table + [last])[1..] == table[1..] + [last];
      if excess > 0 {
        SweepKeepsTheLast(table[1..], last, exclude, if Stays(table[0], exclude) then excess else excess - 1);
      }
    }
  }

  lemma InsertedTable(hub: Hub, caller: nat)
    requires caller in hub.callers && hub.callers[caller].Holding?
    requires !HasKey(hub.table, Key(hub.callers[caller].channelId, hub.callers[caller].sessionKey))
    ensures var h := hub.callers[caller];
      var key := Key(h.channelId, h.sessionKey);
      var entry := Bridged(key, h.channelId, h.sessionKey, h.connection, h.sessionKey, h.target, false);
      Inserted(hub, caller).table == Spared(hub, caller) + [entry]
  {
    var h := hub.callers[caller];
    var key := Key(h.channelId, h.sessionKey);
    var entry := Bridged(key, h.channelId, h.sessionKey, h.connection, h.sessionKey, h.target, false);
    SweepKeepsTheLast(hub.table, entry, key, Excess(hub.table + [entry], hub.max));
  }

  /** Sessions stay distinct behind a new entry exactly when none of them is its own. */
  lemma DistinctWith(table: seq<Bridged>, entry: Bridged)
    requires DistinctSessions(table)
    ensures DistinctSessions(table + [entry]) <==> !HasSession(table, entry.sessionKey)
  {
    var more := table + [entry];
    if HasSession(table, entry.sessionKey) {
      var b :| b in table && b.sessionKey == entry.sessionKey;
      var i :| 0 <= i < |table| && table[i] == b;
      assert more[i] == b && more[|table|] == entry;
    } else {
      assert forall i :: 0 <= i < |table| ==> table[i] in table && more[i] == table[i];
    }
  }

  // Whether a conversation is found, before and after an insert. A table has each key once.

  ghost predicate DistinctKeys(table: seq<Bridged>) {
    forall i, j :: 0 <= i < j < |table| ==> table[i].key != table[j].key
  }

  predicate Finds(table: seq<Bridged>, key: string, b: Bridged) {
    HasKey(table, key) && table[IndexOf(table, key).value] == b
  }

  /** Events of the entry's own connection reach it. */
  ghost predicate EventsReach(hub: Hub, b: Bridged)
    requires Acyclic(hub.moved)
  {
    Finds(hub.table, Resolve(hub.table, hub.moved, Key(b.channelId, b.origin)), b)
  }

  /** A message on the session its connection was opened for reaches it. */
  ghost predicate MessagesReach(hub: Hub, b: Bridged)
    requires Acyclic(hub.moved)
  {
    Finds(hub.table, Key(b.channelId, Current(hub.moved, b.origin)), b)
  }

  lemma FindsByKey(table: seq<Bridged>, b: Bridged)
    requires DistinctKeys(table) && b in table
    ensures forall key :: Finds(table, key, b) <==> key == b.key
  {
    var i :| 0 <= i < |table| && table[i] == b;
    KeyIsThere(table, b);
    assert table[IndexOf(table, b.key).value].key == table[i].key;
    assert IndexOf(table, b.key).value == i;
  }

  /** In a settled table every entry is found both ways. */
  lemma SettledIsFound(hub: Hub, b: Bridged)
    requires Settled(hub) && b in hub.table
    ensures DistinctKeys(hub.table) && EventsReach(hub, b) && MessagesReach(hub, b)
  {
    forall i, j | 0 <= i < j < |hub.table| ensures hub.table[i].key != hub.table[j].key {
      assert hub.table[i] in hub.table && hub.table[j] in hub.table;
      KeySplits(hub.table[i].channelId, hub.table[i].sessionKey);
      KeySplits(hub.table[j].channelId, hub.table[j].sessionKey);
    }
    EarlierKeysResolve(hub, b);
    FindsByKey(hub.table, b);
  }

  lemma {:induction false} SweepKeepsKeysDistinct(table: seq<Bridged>, exclude: string, excess: nat)
    requires DistinctKeys(table)
    ensures DistinctKeys(Sweep(table, exclude, excess).0)
  {
    if excess > 0 && table != [] {
      var stays := Stays(table[0], exclude);
      assert forall i :: 0 <= i < |table[1..]| ==> table[1..][i] == table[i + 1];
      SweepKeepsKeysDistinct(table[1..], exclude, if stays then excess else excess - 1);
      var kept := Sweep(table[1..], exclude, if stays then excess else excess - 1).0;
      forall b | b in kept ensures b.key != table[0].key {
        var i :| 0 <= i < |table[1..]| && table[1..][i] == b;
        assert table[i + 1] == b;
      }
      assert forall i :: 0 <= i < |kept| ==> kept[i] in kept;
    }
  }

  /** The entry that `caller` files, and the table it leaves behind a cap. */
  function EntryOf(hub: Hub, caller: nat): Bridged
    requires caller in hub.callers && hub.callers[caller].Holding?
  {
    var h := hub.callers[caller];
    Bridged(Key(h.channelId, h.sessionKey), h.channelId, h.sessionKey, h.connection, h.sessionKey, h.target, false)
  }

  predicate Loses(hub: Hub, caller: nat)
    requires caller in hub.callers
  {
    HasKey(hub.table, Key(hub.callers[caller].channelId, hub.callers[caller].sessionKey))
  }

  /** After an insert that does not lose: the spared entries and the new one, each key once. */
  lemma InsertedKeys(hub: Hub, caller: nat)
    requires DistinctKeys(hub.table)
    requires caller in hub.callers && hub.callers[caller].Holding? && !Loses(hub, caller)
    ensures var after := Inserted(hub, caller);
      && after.moved == hub.moved && DistinctKeys(after.table)
      && (forall b :: b in after.table <==> b in Spared(hub, caller) || b == EntryOf(hub, caller))
      && (forall b :: b in Spared(hub, caller) ==> b in hub.table && b.key != EntryOf(hub, caller).key)
  {
    var spared, entry := Spared(hub, caller), EntryOf(hub, caller);
    InsertedTable(hub, caller);
    SweepKeepsKeysDistinct(hub.table, entry.key,
        if |hub.table| + 1 > hub.max then |hub.table| + 1 - hub.max else 0);
    forall b | b in spared ensures b in hub.table && b.key != entry.key {}
    assert forall i :: 0 <= i < |spared| ==> spared[i] in spared;
    assert entry in Inserted(hub, caller).table;
  }

  /** An entry the cap spares is reached by its events after an insert exactly when its first key is not taken. */
  lemma SparedIsReachedIff(hub: Hub, caller: nat, b: Bridged)
    requires Acyclic(hub.moved) && DistinctKeys(hub.table)
    requires caller in hub.callers && hub.callers[caller].Holding? && !Loses(hub, caller)
    requires b in Spared(hub, caller) && b in hub.table && EventsReach(hub, b)
    ensures EventsReach(Inserted(hub, caller), b) <==> Key(b.channelId, b.origin) != EntryOf(hub, caller).key
  {
    var after, entry := Inserted(hub, caller), EntryOf(hub, caller);
    var first := Key(b.channelId, b.origin);
    InsertedKeys(hub, caller);
    FindsByKey(hub.table, b);
    FindsByKey(after.table, b);
    KeyIsThere(after.table, b);
    KeyIsThere(after.table, entry);
    assert Resolve(hub.table, hub.moved, first) == b.key;
    if first != entry.key {
      assert HasKey(after.table, first) ==> HasKey(hub.table, first) by {
        if HasKey(after.table, first) {
          var found := after.table[IndexOf(after.table, first).value];
          assert found in after.table;
          KeyIsThere(hub.table, found);
        }
      }
    }
  }

  /**
   An insert leaves every connection's events reaching its own entry exactly when it loses its race, or no
   entry the cap spares was opened under the key it takes: such an entry has moved on, and its events would
   reach the new one instead. `ensure` does not look.
   */
  lemma InsertKeepsEventsIff(hub: Hub, caller: nat)
    requires Acyclic(hub.moved) && DistinctKeys(hub.table) && forall b :: b in hub.table ==> EventsReach(hub, b)
    requires caller in hub.callers && hub.callers[caller].Holding?
    ensures var after := Inserted(hub, caller);
      (forall b :: b in after.table ==> EventsReach(after, b)) <==>
        Loses(hub, caller) ||
        forall b :: b in Spared(hub, caller) ==> Key(b.channelId, b.origin) != EntryOf(hub, caller).key
  {
    var after := Inserted(hub, caller);
    if Loses(hub, caller) {
      assert forall b :: b in hub.table ==> EventsReach(after, b) == EventsReach(hub, b);
    } else {
      InsertedKeys(hub, caller);
      var entry := EntryOf(hub, caller);
      FindsByKey(after.table, entry);
      KeyIsThere(after.table, entry);
      assert EventsReach(after, entry);
      forall b | b in Spared(hub, caller)
        ensures EventsReach(after, b) <==> Key(b.channelId, b.origin) != entry.key
      {
        SparedIsReachedIff(hub, caller, b);
      }
    }
  }

  /**
   And it leaves every entry reached by messages on the session it was opened for exactly when it loses its
   race, or its own session has not moved on meanwhile: a stale entry is reached by no message again.
   */
  lemma InsertKeepsMessagesIff(hub: Hub, caller: nat)
    requires Acyclic(hub.moved) && DistinctKeys(hub.table) && forall b :: b in hub.table ==> MessagesReach(hub, b)
    requires caller in hub.callers && hub.callers[caller].Holding?
    ensures var after := Inserted(hub, caller);
      (forall b :: b in after.table ==> MessagesReach(after, b)) <==>
        Loses(hub, caller) || hub.callers[caller].sessionKey !in hub.moved
  {
    var after := Inserted(hub, caller);
    if Loses(hub, caller) {
      assert forall b :: b in hub.table ==> MessagesReach(after, b) == MessagesReach(hub, b);
    } else {
      InsertedKeys(hub, caller);
      var h, entry := hub.callers[caller], EntryOf(hub, caller);
      forall b | b in Spared(hub, caller) ensures MessagesReach(after, b) {
        FindsByKey(hub.table, b);
        FindsByKey(after.table, b);
      }
      FindsByKey(after.table, entry);
      CurrentSteps(hub.moved, h.sessionKey);
      SameKey(h.channelId, Current(hub.moved, h.sessionKey), h.sessionKey);
    }
  }

  lemma SameKey(channelId: string, a: string, b: string)
    ensures Key(channelId, a) == Key(channelId, b) <==> a == b
  {
    assert Key(channelId, a)[|channelId| + 1..] == a && Key(channelId, b)[|channelId| + 1..] == b;
  }

  /**
   What keeps a table settled, an invariant stronger than being found: an insert does exactly when it loses
   its race, or its session has not moved on, no entry the cap spares has that session, and the channel's id
   can be read back off its key.
   */
  lemma InsertSettlesIff(hub: Hub, caller: nat)
    requires Settled(hub) && caller in hub.callers && hub.callers[caller].Holding?
    ensures var h := hub.callers[caller];
      Settled(Inserted(hub, caller)) <==>
        HasKey(hub.table, Key(h.channelId, h.sessionKey)) ||
        (' ' !in h.channelId && h.sessionKey !in hub.moved && !HasSession(Spared(hub, caller), h.sessionKey))
  {
    var h := hub.callers[caller];
    var key := Key(h.channelId, h.sessionKey);
    if !HasKey(hub.table, key) {
      var entry, spared := EntryOf(hub, caller), Spared(hub, caller);
      InsertedTable(hub, caller);
      SweepIsSubTable(hub.table, key, if |hub.table| + 1 > hub.max then |hub.table| + 1 - hub.max else 0);
      DistinctWith(spared, entry);
      CurrentSteps(hub.moved, h.sessionKey);
      assert entry in spared + [entry];
      assert forall b :: b in spared + [entry] <==> b in spared || b == entry;
    }
  }

  /** What a step has to meet for the table to stay settled. */
  ghost predicate Timely(hub: Hub, event: Event) {
    match event
    case Insert(caller) =>
      caller in hub.callers && hub.callers[caller].Holding? ==>
        var h := hub.callers[caller];
        HasKey(hub.table, Key(h.channelId, h.sessionKey)) ||
        (' ' !in h.channelId && h.sessionKey !in hub.moved && !HasSession(Spared(hub, caller), h.sessionKey))
    case Compacted(_, continued) => continued !in hub.moved && !HasSession(hub.table, continued)
    case _ => true
  }

  /** `after` holds entries of `before` only, each still once. */
  ghost predicate SubTable(before: seq<Bridged>, after: seq<Bridged>) {
    && (forall b :: b in after ==> b in before)
    && (DistinctSessions(before) ==> DistinctSessions(after))
  }

  lemma {:induction false} SweepIsSubTable(table: seq<Bridged>, exclude: string, excess: nat)
    ensures SubTable(table, Sweep(table, exclude, excess).0)
  {
    if excess > 0 && table != [] && DistinctSessions(table) {
      var stays := Stays(table[0], exclude);
      SweepIsSubTable(table[1..], exclude, if stays then excess else excess - 1);
      var kept := Sweep(table[1..], exclude, if stays then excess else excess - 1).0;
      assert forall i :: 0 <= i < |table[1..]| ==> table[1..][i] == table[i + 1];
      forall b | b in kept ensures b.sessionKey != table[0].sessionKey {
        var i :| 0 <= i < |table[1..]| && table[1..][i] == b;
        assert table[i + 1] == b;
      }
    }
  }

  lemma TouchedIsSubTable(table: seq<Bridged>, index: nat)
    requires index < |table|
    ensures SubTable(table, Touched(table, index))
  {
    var rest := RemoveAt(table, index);
    assert forall i :: 0 <= i < |rest| ==> rest[i] == table[if i < index then i else i + 1];
  }

  lemma WithoutEntry(table: seq<Bridged>, index: nat)
    requires DistinctSessions(table) && index < |table|
    ensures var rest := RemoveAt(table, index);
      DistinctSessions(rest) && forall b :: b in rest ==> b in table && b.sessionKey != table[index].sessionKey
  {
    var rest := RemoveAt(table, index);
    assert forall i :: 0 <= i < |rest| ==> rest[i] == table[if i < index then i else i + 1];
  }

  /** A continuation key nothing uses is fresh. */
  lemma UnusedIsFresh(hub: Hub, key: string, continued: string)
    requires Settled(hub) && Timely(hub, Compacted(key, continued))
    ensures FreshKey(hub, key, continued)
  {
    var found := IndexOf(hub.table, Resolve(hub.table, hub.moved, key));
    if found.Some? {
      var entry := hub.table[found.value];
      assert entry in hub.table;
      UnmovedPassesItself(hub.moved, continued, entry.sessionKey);
      NoSuchKey(hub, entry.channelId, continued);
      assert forall b :: b in RemoveAt(hub.table, found.value) ==> b in hub.table;
    }
  }

  /** A conversation that carries on under a key nothing uses stays findable, and so do the others. */
  lemma FollowSettles(hub: Hub, key: string, continued: string)
    requires Settled(hub) && Timely(hub, Compacted(key, continued))
    ensures FreshKey(hub, key, continued) && Settled(Followed(hub, key, continued))
  {
    UnusedIsFresh(hub, key, continued);
    var found := IndexOf(hub.table, Resolve(hub.table, hub.moved, key));
    if found.Some? {
      var entry := hub.table[found.value];
      var after := entry.(key := Key(entry.channelId, continued), sessionKey := continued);
      assert entry in hub.table;
      FollowKeepsLookupsFinite(hub.moved, entry.sessionKey, continued);
      WithoutEntry(hub.table, found.value);
      var rest := RemoveAt(hub.table, found.value);
      assert !HasKey(rest, after.key);
      RefiledSettles(hub, rest, after, entry.sessionKey, continued);
    }
  }

  lemma NoSuchKey(hub: Hub, channelId: string, sessionKey: string)
    requires Settled(hub) && ' ' !in channelId && !HasSession(hub.table, sessionKey)
    ensures !HasKey(hub.table, Key(channelId, sessionKey))
  {
    KeySplits(channelId, sessionKey);
    forall b | b in hub.table ensures b.key != Key(channelId, sessionKey) {
      KeySplits(b.channelId, b.sessionKey);
    }
  }

  lemma RefiledSettles(hub: Hub, rest: seq<Bridged>, after: Bridged, left: string, continued: string)
    requires Settled(hub) && left !in hub.moved && continued !in hub.moved && left != continued
    requires DistinctSessions(rest)
    requires forall b :: b in rest ==> b in hub.table && b.sessionKey != left && b.sessionKey != continued
    requires after.key == Key(after.channelId, continued) && ' ' !in after.channelId && after.sessionKey == continued
    requires Current(hub.moved, after.origin) == left && Acyclic(hub.moved[left := continued])
    ensures Settled(hub.(table := rest + [after], moved := hub.moved[left := continued]))
  {
    CurrentSteps(hub.moved, continued);
    FollowKeepsLookupsFinite(hub.moved, left, continued);
    var table := rest + [after];
    forall b | b in rest ensures !Passes(hub.moved, b.origin, left) {
      PassesAnEnd(hub.moved, b.origin, left);
    }
    PassesAnEnd(hub.moved, after.origin, left);
    assert forall b :: b in table <==> b == after || b in rest;
    assert forall i :: 0 <= i < |rest| ==> rest[i] in rest;
  }

  lemma StepSettles(hub: Hub, event: Event)
    requires Settled(hub) && Timely(hub, event)
    ensures Settled(Step(hub, event))
  {
    match event
    case Check(caller, channelId, sessionKey, target) =>
      var found := IndexOf(hub.table, Key(channelId, sessionKey));
      if found.Some? {
        TouchedIsSubTable(hub.table, found.value);
      }
    case Insert(caller) =>
      if caller in hub.callers && hub.callers[caller].Holding? {
        InsertSettlesIff(hub, caller);
      }
    case Compacted(key, continued) => FollowSettles(hub, key, continued);
    case Status(key, busy) =>
      var found := IndexOf(hub.table, Resolve(hub.table, hub.moved, key));
      if found.Some? {
        var entry := hub.table[found.value];
        assert entry in hub.table;
        assert forall b :: b in hub.table[found.value := entry.(busy := busy)] ==>
            b in hub.table || b == entry.(busy := busy);
      }
    case _ =>
  }

  ghost predicate ReachesInTime(hub: Hub, events: seq<Event>, end: Hub)
    decreases |events|
  {
    if events == [] then hub == end
    else Acyclic(hub.moved) && Timely(hub, events[0]) && ReachesInTime(Step(hub, events[0]), events[1..], end)
  }

  /**
   While no insert is stale and each continuation key is unused, every reachable table is settled: no
   entry's session has moved on, lookups end, and each connection's events reach its own entry.
   */
  lemma {:induction false} ConversationsResolve(hub: Hub, events: seq<Event>, end: Hub, b: Bridged)
    requires Settled(hub) && ReachesInTime(hub, events, end) && b in end.table
    ensures Settled(end) && b.sessionKey !in end.moved
    ensures Resolve(end.table, end.moved, Key(b.channelId, b.origin)) == b.key
    decreases |events|
  {
    if events == [] {
      EarlierKeysResolve(end, b);
    } else {
      StepSettles(hub, events[0]);
      ConversationsResolve(Step(hub, events[0]), events[1..], end, b);
    }
  }

  // The race is real: two callers miss, the first connects and its conversation moves on, and then
  // the second inserts under the old key.

  const LIVE := Bridged("t t:1", "t", "t:1", 0, "t:1", "you", false)
  const MOVED_ON := Bridged("t c", "t", "c", 0, "t:1", "you", false)
  const STALE := Bridged("t t:1", "t", "t:1", 1, "t:1", "you", false)
  const MISSED := Caller.Missed("t", "t:1", "you")

  const RACE := [Check(7, "t", "t:1", "you"), Check(1, "t", "t:1", "you"), Connect(1), Insert(1),
                 Compacted("t t:1", "c"), Connect(7), Insert(7)]

  function RaceState(n: nat): Hub {
    match n
    case 0 => Start(2)
    case 1 => Hub([], map[], 0, {}, map[7 := MISSED], 2)
    case 2 => Hub([], map[], 0, {}, map[7 := MISSED, 1 := MISSED], 2)
    case 3 => Hub([], map[], 1, {}, map[7 := MISSED, 1 := Holding("t", "t:1", "you", 0)], 2)
    case 4 => Hub([LIVE], map[], 1, {}, map[7 := MISSED], 2)
    case 5 => Hub([MOVED_ON], map["t:1" := "c"], 1, {}, map[7 := MISSED], 2)
    case 6 => Hub([MOVED_ON], map["t:1" := "c"], 2, {}, map[7 := Holding("t", "t:1", "you", 1)], 2)
    case _ => Hub([MOVED_ON, STALE], map["t:1" := "c"], 2, {}, map[], 2)
  }

  lemma RaceLookups()
    ensures var none: Moved := map[]; Acyclic(none) && Current(none, "c") == "c"
    ensures Acyclic(map["t:1" := "c"])
    ensures Key("t", "t:1") == "t t:1" && Key("t", "c") == "t c"
  {
    StartConserves(2);
    var none: Moved := map[];
    CurrentSteps(none, "c");
    UnmovedPassesItself(none, "c", "t:1");
    FollowKeepsLookupsFinite(none, "t:1", "c");
    assert none["t:1" := "c"] == map["t:1" := "c"];
  }

  lemma RaceMove()
    ensures Acyclic(RaceState(4).moved) && FreshKey(RaceState(4), "t t:1", "c")
    ensures Followed(RaceState(4), "t t:1", "c") == RaceState(5)
  {
    RaceLookups();
    assert RemoveAt([LIVE], 0) == [] && [] + [MOVED_ON] == [MOVED_ON];
    assert Refiled([LIVE], 0, "c") == [MOVED_ON];
  }

  lemma RaceAsks()
    ensures Acyclic(map[])
    ensures Step(RaceState(0), RACE[0]) == RaceState(1) && Step(RaceState(1), RACE[1]) == RaceState(2)
  {
    RaceLookups();
    var none: Moved := map[];
    assert RaceState(0).moved == none;
    assert map[7 := MISSED][1 := MISSED] == map[7 := MISSED, 1 := MISSED];
  }

  lemma RaceConnects()
    ensures Acyclic(map[]) && Step(RaceState(2), RACE[2]) == RaceState(3)
  {
    RaceLookups();
  }

  lemma RaceConnectsLate()
    ensures Acyclic(map["t:1" := "c"]) && Step(RaceState(5), RACE[5]) == RaceState(6)
  {
    RaceLookups();
  }

  lemma RaceFiles()
    ensures Acyclic(map[]) && Step(RaceState(3), RACE[3]) == RaceState(4)
  {
    RaceLookups();
    assert [] + [LIVE] == [LIVE];
    RaceInsert(RaceState(3), 1, RaceState(4));
  }

  lemma RaceFilesLate()
    ensures Acyclic(map["t:1" := "c"]) && Step(RaceState(6), RACE[6]) == RaceState(7)
  {
    RaceLookups();
    assert [MOVED_ON] + [STALE] == [MOVED_ON, STALE];
    RaceInsert(RaceState(6), 7, RaceState(7));
  }

  lemma RaceStep(n: nat)
    requires n < 7
    ensures Acyclic(RaceState(n).moved) &&
        (RACE[n].Compacted? ==> FreshKey(RaceState(n), RACE[n].key, RACE[n].continued))
    ensures Step(RaceState(n), RACE[n]) == RaceState(n + 1)
  {
    if n < 2 {
      RaceAsks();
    } else if n == 2 {
      RaceConnects();
    } else if n == 3 {
      RaceFiles();
    } else if n == 4 {
      RaceMove();
    } else if n == 5 {
      RaceConnectsLate();
    } else {
      RaceFilesLate();
    }
  }

  lemma RaceInsert(hub: Hub, caller: nat, after: Hub)
    requires caller in hub.callers && hub.callers[caller].Holding?
    requires !HasKey(hub.table, Key(hub.callers[caller].channelId, hub.callers[caller].sessionKey))
    requires var h := hub.callers[caller];
      after.table == hub.table + [Bridged(Key(h.channelId, h.sessionKey), h.channelId, h.sessionKey, h.connection,
          h.sessionKey, h.target, false)]
    requires |after.table| <= hub.max && after == hub.(table := after.table, callers := hub.callers - {caller})
    ensures Inserted(hub, caller) == after
  {
    assert SetOf([]) == {};
  }

  /** At the end of that run the live entry's own connection reaches the stale one. */
  lemma {:induction false} StaleInsertHidesTheLiveEntry(n: nat)
    requires n <= 7
    ensures Reaches(RaceState(n), RACE[n..], RaceState(7))
    ensures var end := RaceState(7);
      && Acyclic(end.moved) && end.table == [MOVED_ON, STALE]
      && Resolve(end.table, end.moved, Key(MOVED_ON.channelId, MOVED_ON.origin)) == STALE.key
    decreases 7 - n
  {
    RaceStep(6);
    KeyIsThere(RaceState(7).table, STALE);
    if n < 7 {
      RaceStep(n);
      assert RACE[n..][1..] == RACE[n + 1..] && RACE[n..][0] == RACE[n];
      StaleInsertHidesTheLiveEntry(n + 1);
    }
  }

  /** All through that run connections are conserved. */
  lemma RaceConserves()
    ensures Conserved(RaceState(7)) && Acyclic(RaceState(7).moved)
  {
    StaleInsertHidesTheLiveEntry(0);
    assert RACE[0..] == RACE;
    StartConserves(2);
    ConnectionsAreConserved(RaceState(0), RACE, RaceState(7));
  }

  lemma StaleIsResolved()
    ensures Acyclic(RaceState(7).moved)
    ensures var hub := RaceState(7); IndexOf(hub.table, Resolve(hub.table, hub.moved, "t t:1")) == Some(1)
  {
    RaceLookups();
    KeyIsThere(RaceState(7).table, STALE);
  }

  /**
   Its events go to the stale entry, so the live conversation's next move takes that one along, over the key
   it had already moved from. The run goes on: all is conserved so far, and a new key is fresh.
   */
  lemma StaleEntryMayMove()
    ensures Acyclic(RaceState(7).moved) && "t:1" in RaceState(7).moved
    ensures IndexOf(RaceState(7).table, Resolve(RaceState(7).table, RaceState(7).moved, "t t:1")) == Some(1)
    ensures FreshKey(RaceState(7), "t t:1", "d")
  {
    StaleIsResolved();
    var hub := RaceState(7);
    assert RemoveAt(hub.table, 1) == [MOVED_ON];
    assert Key("t", "d") == "t d" && "t d"[2] == 'd' && "t c"[2] == 'c';
    UnmovedPassesItself(hub.moved, "d", "t:1");
  }

  /** Whatever happens, a table has each key once. */
  lemma KeysStayDistinct(hub: Hub, event: Event)
    requires Acyclic(hub.moved) && DistinctKeys(hub.table)
    ensures DistinctKeys(Step(hub, event).table)
  {
    match event
    case Check(caller, channelId, sessionKey, target) =>
      var found := IndexOf(hub.table, Key(channelId, sessionKey));
      if found.Some? {
        AloneUnderItsKey(hub.table, found.value);
        PutLast(hub.table, found.value, hub.table[found.value]);
      }
    case Insert(caller) =>
      if caller in hub.callers && hub.callers[caller].Holding? && !Loses(hub, caller) {
        InsertedKeys(hub, caller);
      }
    case Compacted(key, continued) =>
      var found := IndexOf(hub.table, Resolve(hub.table, hub.moved, key));
      if found.Some? {
        RefiledKeys(hub.table, found.value, continued);
      }
    case _ =>
  }

  lemma AloneUnderItsKey(table: seq<Bridged>, index: nat)
    requires DistinctKeys(table) && index < |table|
    ensures DistinctKeys(RemoveAt(table, index)) && !HasKey(RemoveAt(table, index), table[index].key)
  {
    var rest := RemoveAt(table, index);
    assert forall i :: 0 <= i < |rest| ==> rest[i] == table[if i < index then i else i + 1];
  }

  lemma RefiledKeys(table: seq<Bridged>, index: nat, continued: string)
    requires DistinctKeys(table) && index < |table|
    ensures DistinctKeys(Refiled(table, index, continued))
  {
    AloneUnderItsKey(table, index);
    var key := Key(table[index].channelId, continued);
    if !HasKey(RemoveAt(table, index), key) {
      PutLast(table, index, table[index].(key := key, sessionKey := continued));
    }
  }

  lemma PutLast(table: seq<Bridged>, index: nat, entry: Bridged)
    requires DistinctKeys(table) && index < |table| && !HasKey(RemoveAt(table, index), entry.key)
    ensures DistinctKeys(RemoveAt(table, index) + [entry])
  {
    AloneUnderItsKey(table, index);
    var rest := RemoveAt(table, index);
    assert forall i :: 0 <= i < |rest| ==> rest[i] in rest;
  }

  // ------------------------------------------------------------- the bridge itself

  /** While the table is over the cap: finds the first idle entry, takes it out and closes it. */
  method Evict(table: seq<Bridged>, exclude: string, max: nat) returns (kept: seq<Bridged>, closed: seq<nat>)
    ensures (kept, closed) == Sweep(table, exclude, Excess(table, max))
    ensures |kept| <= max || forall b :: b in kept ==> Stays(b, exclude)
  {
    kept, closed := table, [];
    while |kept| > max
      invariant |kept| <= |table|
      invariant Sweep(table, exclude, Excess(table, max)).0 == Sweep(kept, exclude, Excess(kept, max)).0
      invariant Sweep(table, exclude, Excess(table, max)).1 == closed + Sweep(kept, exclude, Excess(kept, max)).1
    {
      SweepStep(kept, exclude, Excess(kept, max));
      var victim := Position(kept, (b: Bridged) => !Stays(b, exclude));
      if victim.None? {
        assert closed + Sweep(kept, exclude, Excess(kept, max)).1 == closed;
        return;
      }
      closed := closed + [kept[victim.value].connection];
      kept := RemoveAt(kept, victim.value);
    }
    assert closed + Sweep(kept, exclude, 0).1 == closed;
  }

  class SessionBridge {
    const max: nat
    var table: seq<Bridged>
    var moved: Moved
    ghost var made: nat
    ghost var closed: set<nat>
    ghost var callers: map<nat, Caller>

    ghost function Contents(): Hub
      reads this
    {
      Hub(table, moved, made, closed, callers, max)
    }

    ghost predicate Valid()
      reads this
    {
      Acyclic(moved)
    }

    constructor (max: nat)
      ensures Valid() && Contents() == Start(max)
    {
      this.max := max;
      table, moved, made, closed, callers := [], map[], 0, {}, map[];
      new;
      StartConserves(max);
    }

    /** Follows the chain to its last key. */
    method CurrentKey(sessionKey: string) returns (key: string)
      requires Valid()
      ensures key == Current(moved, sessionKey)
    {
      key := sessionKey;
      assert Finite(moved, key);
      ghost var n: nat :| Ends(moved, key, n);
      while key in moved
        invariant Ends(moved, key, n) && Current(moved, key) == Current(moved, sessionKey)
        decreases n
      {
        CurrentSteps(moved, key);
        key := moved[key];
        n := n - 1;
      }
      CurrentSteps(moved, key);
    }

    /** The first locked section of `ensure`: a hit moves to the most recently used end. */
    method Lookup(ghost caller: nat, channelId: string, sessionKey: string,
          ghost target: string) returns (connection: Option<nat>)
      requires Valid() && caller !in callers
      modifies this`table, this`callers
      ensures Valid() && Contents() == Step(old(Contents()), Check(caller, channelId, sessionKey, target))
      ensures match IndexOf(old(table), Key(channelId, sessionKey))
        case Some(index) => connection == Some(old(table)[index].connection)
        case None => connection.None?
    {
      var index := IndexOf(table, Key(channelId, sessionKey));
      if index.Some? {
        connection := Some(table[index.value].connection);
        table := Touched(table, index.value);
      } else {
        connection := None;
        callers := callers[caller := Missed(channelId, sessionKey, target)];
      }
    }

    /** The second: the loser of a race closes what it opened, the winner's connection is kept. */
    method InsertOrClose(ghost caller: nat, channelId: string, sessionKey: string, target: string,
          connection: nat) returns (kept: nat)
      requires Valid() && caller in callers && callers[caller] == Holding(channelId, sessionKey, target, connection)
      modifies this
      ensures Valid() && Contents() == Inserted(old(Contents()), caller)
      ensures match IndexOf(old(table), Key(channelId, sessionKey))
        case Some(index) => kept == old(table)[index].connection
        case None => kept == connection
    {
      var key := Key(channelId, sessionKey);
      callers := callers - {caller};
      var existing := IndexOf(table, key);
      if existing.Some? {
        closed := closed + {connection};
        return table[existing.value].connection;
      }
      var kept', gone := Evict(table + [Bridged(key, channelId, sessionKey, connection, sessionKey, target, false)],
          key, max);
      table, closed := kept', closed + SetOf(gone);
      return connection;
    }

    method ResolveKey(key: string) returns (r: string)
      requires Valid()
      ensures r == Resolve(table, moved, key)
    {
      if HasKey(table, key) {
        return key;
      }
      match SplitOnce(key)
      case None => return key;
      case Some((channelId, sessionKey)) =>
        var current := CurrentKey(sessionKey);
        return Key(channelId, current);
    }

    /** What a `session.compacted` event does to the table, `key` being the one its connection has. */
    method Follow(key: string, continued: string)
      requires Valid()
      modifies this`table, this`moved
      ensures Contents() == Followed(old(Contents()), key, continued)
      ensures Valid() <==> LeadsAway(old(Contents()), key, continued)
    {
      var resolved := ResolveKey(key);
      var index := IndexOf(table, resolved);
      if index.Some? {
        FollowKeepsLookupsFinite(moved, table[index.value].sessionKey, continued);
        moved := moved[table[index.value].sessionKey := continued];
        table := Refiled(table, index.value, continued);
      }
    }

    /** A `session.status` event marks the entry busy, or idle and open to eviction. */
    method NoteStatus(key: string, busy: bool)
      requires Valid()
      modifies this`table
      ensures Valid() && Contents() == Step(old(Contents()), Status(key, busy))
    {
      var resolved := ResolveKey(key);
      var index := IndexOf(table, resolved);
      if index.Some? {
        table := table[index.value := table[index.value].(busy := busy)];
      }
    }

    method CloseAll()
      requires Valid()
      modifies this`table, this`closed
      ensures Valid() && Contents() == Step(old(Contents()), Event.CloseAll)
    {
      closed := closed + SetOf(Connections(table));
      table := [];
    }
  }
}
