/**
 Whom the bridge spares (crates/channels/src/manager.rs): what a sweep, a status event and an insert do to the
 entries' own fields, and what is known of every entry after any run, from what was asked for and said of it.
 */
module BusySessions {
  import opened Common
  import opened Bridge

  // ------------------------------------------------------------- one sweep

  /** No turn is running there, and it is not the entry the room is made for. */
  predicate MayGo(b: Bridged, exclude: string) {
    !b.busy && b.key != exclude
  }

  /** The entries that may go, or those that may not, in order. */
  function Sorted(table: seq<Bridged>, exclude: string, going: bool): seq<Bridged> {
    if table == [] then []
    else (if MayGo(table[0], exclude) == going then [table[0]] else []) + Sorted(table[1..], exclude, going)
  }

  /**
   Up to `point` every entry that may go has gone and every other has stayed, in order; from there on all stay.
   It went on until `excess` were gone or the table was through.
   */
  ghost predicate SweptTo(table: seq<Bridged>, exclude: string, excess: nat, point: nat, kept: seq<Bridged>,
        closed: seq<nat>) {
    && point <= |table|
    && kept == Sorted(table[..point], exclude, false) + table[point..]
    && closed == Connections(Sorted(table[..point], exclude, true))
    && |closed| <= excess && (|closed| == excess || point == |table|)
  }

  lemma {:induction false} SortedIs(table: seq<Bridged>, exclude: string)
    ensures Sorted(table, exclude, false) == Staying(table, exclude)
    ensures Connections(Sorted(table, exclude, true)) == Idle(table, exclude)
  {
    if table != [] {
      SortedIs(table[1..], exclude);
      var gone := Sorted(table[1..], exclude, true);
      assert Connections([table[0]] + gone) == [table[0].connection] + Connections(gone);
      assert Connections([] + gone) == Connections(gone);
    }
  }

  lemma SweepGoesTo(table: seq<Bridged>, exclude: string, excess: nat) returns (point: nat)
    ensures var (kept, closed) := Sweep(table, exclude, excess);
      SweptTo(table, exclude, excess, point, kept, closed)
  {
    point := SweepTakesAPrefix(table, exclude, excess);
    SortedIs(table[..point], exclude);
  }

  /**
   Who is closed: only entries with no turn running, and never the excluded one. A sweep that leaves the table
   over the cap has left nothing else behind.
   */
  lemma {:induction false} BusyIsNotSwept(table: seq<Bridged>, exclude: string, excess: nat)
    ensures var (kept, closed) := Sweep(table, exclude, excess);
      && (forall c :: c in closed ==> exists b :: b in table && b.connection == c && !b.busy && b.key != exclude)
      && (|closed| < excess ==> forall b :: b in kept ==> b.busy || b.key == exclude)
      && (forall b :: b in table ==> b in kept || (b.connection in closed && !b.busy && b.key != exclude))
  {
    if excess > 0 && table != [] {
      BusyIsNotSwept(table[1..], exclude, if MayGo(table[0], exclude) then excess - 1 else excess);
      assert table == [table[0]] + table[1..];
    }
  }

  // ------------------------------------------------------------- one event of a session

  /** The first entry filed under `key` is at `i`. */
  predicate FiledAt(table: seq<Bridged>, key: string, i: nat) {
    i < |table| && table[i].key == key && forall j :: 0 <= j < i ==> table[j].key != key
  }

  /** `status` is about this entry: the one its key resolves to. */
  ghost predicate IsAbout(hub: Hub, key: string, i: nat)
    requires Acyclic(hub.moved)
  {
    FiledAt(hub.table, Resolve(hub.table, hub.moved, key), i)
  }

  /** Entry `b` with the flag it was given, and nothing else changed. */
  predicate Flagged(b: Bridged, busy: bool, after: Bridged) {
    && after.busy == busy && after.key == b.key && after.channelId == b.channelId && after.sessionKey == b.sessionKey
    && after.connection == b.connection && after.origin == b.origin && after.target == b.target
  }

  /** A status gives the entry it is about the flag it carries, and changes nothing else. */
  lemma StatusIsNoted(hub: Hub, key: string, busy: bool)
    requires Acyclic(hub.moved)
    ensures var after := Step(hub, Status(key, busy));
      && |after.table| == |hub.table| && after == hub.(table := after.table)
      && forall i :: 0 <= i < |hub.table| ==>
           if IsAbout(hub, key, i) then Flagged(hub.table[i], busy, after.table[i])
           else after.table[i] == hub.table[i]
  {
    var resolved := Resolve(hub.table, hub.moved, key);
    forall i: nat | FiledAt(hub.table, resolved, i) ensures IndexOf(hub.table, resolved) == Some(i) {
      assert hub.table[i] in hub.table;
    }
  }

  // ------------------------------------------------------------- what was asked for and said

  datatype Ask = Ask(channelId: string, sessionKey: string, target: string)

  /** What each caller asked for, what each connection was opened for, and which were last said to be busy. */
  datatype Ledger = Ledger(asked: map<nat, Ask>, openings: map<nat, Ask>, busy: set<nat>)

  const BLANK := Ledger(map[], map[], {})

  ghost function Entered(hub: Hub, event: Event, l: Ledger): Ledger
    requires Acyclic(hub.moved)
  {
    match event
    case Check(caller, channelId, sessionKey, target) =>
      if caller in hub.callers || (exists b :: b in hub.table && b.key == channelId + " " + sessionKey) then l
      else l.(asked := l.asked[caller := Ask(channelId, sessionKey, target)])
    case Connect(caller) =>
      if caller in l.asked && caller in hub.callers && hub.callers[caller].Missed?
      then l.(openings := l.openings[hub.made := l.asked[caller]]) else l
    case Status(key, busy) =>
      if exists i: nat :: IsAbout(hub, key, i) then
        var i: nat :| IsAbout(hub, key, i);
        var c := hub.table[i].connection;
        l.(busy := if busy then l.busy + {c} else l.busy - {c})
      else l
    case _ => l
  }

  /** The ledger of a run. */
  ghost function Ledgers(hub: Hub, events: seq<Event>, end: Hub, l: Ledger): Ledger
    requires Reaches(hub, events, end)
    decreases |events|
  {
    if events == [] then l else Ledgers(Step(hub, events[0]), events[1..], end, Entered(hub, events[0], l))
  }

  /** A caller between its check and its insert holds what it asked for. */
  ghost predicate HoldsWhatItAsked(caller: nat, c: Caller, l: Ledger) {
    && caller in l.asked && Ask(c.channelId, c.sessionKey, c.target) == l.asked[caller]
    && (c.Holding? ==>
          c.connection in l.openings && l.openings[c.connection] == l.asked[caller] && c.connection !in l.busy)
  }

  /** An entry is its connection's: opened for its channel and target, and as busy as was last said. */
  ghost predicate IsAsSaid(b: Bridged, l: Ledger) {
    && b.connection in l.openings && Ask(b.channelId, b.origin, b.target) == l.openings[b.connection]
    && b.key == b.channelId + " " + b.sessionKey
    && (b.busy <==> b.connection in l.busy)
  }

  ghost predicate Agrees(hub: Hub, l: Ledger) {
    && (forall b :: b in hub.table ==> IsAsSaid(b, l))
    && (forall caller :: caller in hub.callers ==> HoldsWhatItAsked(caller, hub.callers[caller], l))
    && (forall c :: c in l.busy || c in l.openings ==> c < hub.made)
  }

  lemma CheckAgrees(hub: Hub, caller: nat, channelId: string, sessionKey: string, target: string, l: Ledger)
    requires Acyclic(hub.moved) && Conserved(hub) && Agrees(hub, l)
    ensures var event := Check(caller, channelId, sessionKey, target);
      Agrees(Step(hub, event), Entered(hub, event, l))
  {
    var key := Key(channelId, sessionKey);
    match IndexOf(hub.table, key)
    case Some(index) =>
      assert hub.table[index] in hub.table;
    case None =>
      forall b | b in hub.table ensures b.key != key {
        assert !((b: Bridged) => b.key == key)(b);
      }
  }

  lemma StatusIsSaid(hub: Hub, key: string, busy: bool, l: Ledger, j: nat)
    requires Acyclic(hub.moved) && Conserved(hub) && Agrees(hub, l) && j < |hub.table|
    ensures var after, m := Step(hub, Status(key, busy)), Entered(hub, Status(key, busy), l);
      |after.table| == |hub.table| && IsAsSaid(after.table[j], m)
  {
    StatusIsNoted(hub, key, busy);
    assert hub.table[j] in hub.table && IsAsSaid(hub.table[j], l);
    if i: nat :| IsAbout(hub, key, i) {
      assert i != j ==> hub.table[i].connection != hub.table[j].connection;
    }
  }

  lemma StatusAgrees(hub: Hub, key: string, busy: bool, l: Ledger)
    requires Acyclic(hub.moved) && Conserved(hub) && Agrees(hub, l)
    ensures Agrees(Step(hub, Status(key, busy)), Entered(hub, Status(key, busy), l))
  {
    var after, m := Step(hub, Status(key, busy)), Entered(hub, Status(key, busy), l);
    forall b | b in after.table ensures IsAsSaid(b, m) {
      var j :| 0 <= j < |after.table| && after.table[j] == b;
      StatusIsNoted(hub, key, busy);
      StatusIsSaid(hub, key, busy, l, j);
    }
    forall i: nat | IsAbout(hub, key, i) ensures InTable(hub.table, hub.table[i].connection) {
      assert hub.table[i] in hub.table;
    }
    forall caller | caller in after.callers ensures HoldsWhatItAsked(caller, after.callers[caller], m) {
      assert HoldsWhatItAsked(caller, hub.callers[caller], l);
      assert after.callers[caller].Holding? ==> Held(hub, after.callers[caller].connection);
    }
  }

  lemma ConnectAgrees(hub: Hub, caller: nat, l: Ledger)
    requires Acyclic(hub.moved) && Conserved(hub) && Agrees(hub, l)
    ensures Agrees(Step(hub, Connect(caller)), Entered(hub, Connect(caller), l))
  {
    var after, m := Step(hub, Connect(caller)), Entered(hub, Connect(caller), l);
    forall x | x in after.callers ensures HoldsWhatItAsked(x, after.callers[x], m) {
      assert x in hub.callers && HoldsWhatItAsked(x, hub.callers[x], l);
    }
  }

  lemma InsertAgrees(hub: Hub, caller: nat, l: Ledger)
    requires Acyclic(hub.moved) && Conserved(hub) && Agrees(hub, l)
    ensures Agrees(Step(hub, Insert(caller)), l)
  {
    var after := Step(hub, Insert(caller));
    if caller in hub.callers && hub.callers[caller].Holding? {
      var c := hub.callers[caller];
      assert HoldsWhatItAsked(caller, c, l) && Held(hub, c.connection);
      forall b | b in after.table ensures IsAsSaid(b, l) {
        assert b in hub.table
          || b == Bridged(Key(c.channelId, c.sessionKey), c.channelId, c.sessionKey, c.connection, c.sessionKey,
                          c.target, false);
      }
    }
    forall x | x in after.callers ensures HoldsWhatItAsked(x, after.callers[x], l) {
      assert HoldsWhatItAsked(x, hub.callers[x], l);
    }
  }

  lemma MoveAgrees(hub: Hub, key: string, continued: string, l: Ledger)
    requires Acyclic(hub.moved) && Conserved(hub) && Agrees(hub, l)
    ensures Agrees(Step(hub, Compacted(key, continued)), l)
  {
    var after := Step(hub, Compacted(key, continued));
    match IndexOf(hub.table, Resolve(hub.table, hub.moved, key))
    case None =>
    case Some(index) =>
      var b := hub.table[index];
      assert b in hub.table && IsAsSaid(b, l);
      forall x | x in after.table ensures IsAsSaid(x, l) {
        assert x in hub.table || x == b.(key := Key(b.channelId, continued), sessionKey := continued);
      }
  }

  lemma StepAgrees(hub: Hub, event: Event, l: Ledger)
    requires Acyclic(hub.moved) && Conserved(hub) && Agrees(hub, l)
    ensures Agrees(Step(hub, event), Entered(hub, event, l))
  {
    match event
    case Check(caller, channelId, sessionKey, target) => CheckAgrees(hub, caller, channelId, sessionKey, target, l);
    case Connect(caller) => ConnectAgrees(hub, caller, l);
    case Insert(caller) => InsertAgrees(hub, caller, l);
    case Compacted(key, continued) => MoveAgrees(hub, key, continued, l);
    case Status(key, busy) => StatusAgrees(hub, key, busy, l);
    case CloseAll =>
  }

  lemma {:induction false} RunAgrees(hub: Hub, events: seq<Event>, end: Hub, l: Ledger)
    requires Conserved(hub) && Acyclic(hub.moved) && Reaches(hub, events, end) && Agrees(hub, l)
    ensures Agrees(end, Ledgers(hub, events, end, l)) && Conserved(end) && Acyclic(end.moved)
    decreases |events|
  {
    if events != [] {
      StepConserves(hub, events[0]);
      StepAgrees(hub, events[0], l);
      RunAgrees(Step(hub, events[0]), events[1..], end, Entered(hub, events[0], l));
    }
  }

  /**
   In every run from an empty table, every entry is what was asked for and said of it: it is filed under its
   channel and its session, its connection was opened for that channel and target, and it is busy exactly when
   the last status about it said so.
   */
  lemma EntriesAreAsSaid(max: nat, events: seq<Event>, end: Hub, b: Bridged)
    requires Reaches(Start(max), events, end) && b in end.table
    ensures IsAsSaid(b, Ledgers(Start(max), events, end, BLANK))
  {
    StartConserves(max);
    RunAgrees(Start(max), events, end, BLANK);
  }

  // ------------------------------------------------------------- no insert ends a turn

  /**
   What an insert comes to. The loser of a race closes its own connection. The winner's entry goes in last, not
   busy; whoever is closed for it was not busy when last heard of, and if it leaves more than the cap, all the
   others are.
   */
  ghost predicate InsertSpares(hub: Hub, c: Caller, after: Hub, busy: set<nat>)
    requires c.Holding?
  {
    var key := c.channelId + " " + c.sessionKey;
    var mine := Bridged(key, c.channelId, c.sessionKey, c.connection, c.sessionKey, c.target, false);
    if exists b :: b in hub.table && b.key == key then
      after.table == hub.table && after.closed == hub.closed + {c.connection}
    else
      && after.table != [] && after.table[|after.table| - 1] == mine
      && (forall b :: b in after.table ==> b in hub.table || b == mine)
      && (forall b :: b in hub.table ==> b in after.table || (b.connection in after.closed && b.connection !in busy))
      && (forall x :: x in after.closed && x !in hub.closed ==> x !in busy)
      && (|after.table| > hub.max ==> forall b :: b in after.table ==> b.connection in busy || b == mine)
      && (|hub.table| < hub.max ==> after.table == hub.table + [mine])
  }

  lemma InsertIsSparing(hub: Hub, caller: nat, l: Ledger)
    requires Acyclic(hub.moved) && Conserved(hub) && Agrees(hub, l)
    requires caller in hub.callers && hub.callers[caller].Holding?
    ensures InsertSpares(hub, hub.callers[caller], Step(hub, Insert(caller)), l.busy)
  {
    var c := hub.callers[caller];
    var key := Key(c.channelId, c.sessionKey);
    var mine := Bridged(key, c.channelId, c.sessionKey, c.connection, c.sessionKey, c.target, false);
    if exists b :: b in hub.table && b.key == key {
      assert HasKey(hub.table, key);
    } else {
      var table, excess := hub.table + [mine], Excess(hub.table + [mine], hub.max);
      var (kept, gone) := Sweep(table, key, excess);
      assert Step(hub, Insert(caller)).table == kept;
      BusyIsNotSwept(table, key, excess);
      SweepKeepsTheLast(hub.table, mine, key, excess);
      forall b | b in table && b.key != key ensures b in hub.table && IsAsSaid(b, l) {}
    }
  }

  /**
   No insert ends a turn: in every run from an empty table, a caller that files its connection closes none whose
   last status said it was busy, and goes over the cap only when all the others are.
   */
  lemma NoInsertEndsATurn(max: nat, events: seq<Event>, hub: Hub, caller: nat)
    requires Reaches(Start(max), events, hub) && caller in hub.callers && hub.callers[caller].Holding?
    ensures Acyclic(hub.moved)
    ensures InsertSpares(hub, hub.callers[caller], Step(hub, Insert(caller)),
        Ledgers(Start(max), events, hub, BLANK).busy)
  {
    StartConserves(max);
    RunAgrees(Start(max), events, hub, BLANK);
    InsertIsSparing(hub, caller, Ledgers(Start(max), events, hub, BLANK));
  }

  // ------------------------------------------------------------- the least recently used go first

  /** When each connection was last used: found by a caller, filed by one, or moved on with its conversation. */
  datatype Uses = Uses(now: nat, last: map<nat, nat>)

  /** The connection an event uses. */
  ghost predicate UsedBy(hub: Hub, event: Event, c: nat)
    requires Acyclic(hub.moved)
  {
    match event
    case Check(_, channelId, sessionKey, _) =>
      exists i: nat :: FiledAt(hub.table, channelId + " " + sessionKey, i) && hub.table[i].connection == c
    case Insert(caller) =>
      && caller in hub.callers && hub.callers[caller].Holding? && hub.callers[caller].connection == c
      && forall b :: b in hub.table ==> b.key != hub.callers[caller].channelId + " " + hub.callers[caller].sessionKey
    case Compacted(key, _) => exists i: nat :: IsAbout(hub, key, i) && hub.table[i].connection == c
    case _ => false
  }

  ghost function UsedNext(hub: Hub, event: Event, u: Uses): Uses
    requires Acyclic(hub.moved)
  {
    if exists c: nat :: UsedBy(hub, event, c) then
      var c: nat :| UsedBy(hub, event, c);
      Uses(u.now + 1, u.last[c := u.now])
    else u.(now := u.now + 1)
  }

  ghost function UsesOf(hub: Hub, events: seq<Event>, end: Hub, u: Uses): Uses
    requires Reaches(hub, events, end)
    decreases |events|
  {
    if events == [] then u else UsesOf(Step(hub, events[0]), events[1..], end, UsedNext(hub, events[0], u))
  }

  /** Earlier entries were used earlier. */
  ghost predicate ByUse(table: seq<Bridged>, u: Uses) {
    && (forall b :: b in table ==> b.connection in u.last && u.last[b.connection] < u.now)
    && forall i, j :: 0 <= i < j < |table| ==> u.last[table[i].connection] < u.last[table[j].connection]
  }

  /** `b` was last used after the connection `c`. */
  ghost predicate UsedAfter(b: Bridged, c: nat, u: Uses) {
    c in u.last && b.connection in u.last && u.last[c] < u.last[b.connection]
  }

  /** Whatever was closed was last used before any entry that was left and could have gone. */
  ghost predicate OldestClosed(closed: seq<nat>, kept: seq<Bridged>, exclude: string, u: Uses) {
    forall c, b :: c in closed && b in kept && MayGo(b, exclude) ==> UsedAfter(b, c, u)
  }

  lemma TailByUse(table: seq<Bridged>, u: Uses)
    requires table != [] && ByUse(table, u)
    ensures ByUse(table[1..], u) && forall b :: b in table[1..] ==> UsedAfter(b, table[0].connection, u)
  {
    assert forall b :: b in table[1..] ==> b in table;
    forall b | b in table[1..] ensures UsedAfter(b, table[0].connection, u) {
      var j :| 0 <= j < |table[1..]| && table[1..][j] == b;
      assert table[j + 1] == b;
    }
  }

  lemma HeadByUse(head: Bridged, kept: seq<Bridged>, u: Uses)
    requires ByUse(kept, u) && ByUse([head], u) && forall b :: b in kept ==> UsedAfter(b, head.connection, u)
    ensures ByUse([head] + kept, u)
  {
    assert [head][0] in [head];
    forall b | b in [head] + kept ensures b.connection in u.last && u.last[b.connection] < u.now {
      assert b in [head] || b in kept;
    }
  }

  lemma {:induction false} SweepKeepsOrder(table: seq<Bridged>, exclude: string, excess: nat, u: Uses)
    requires ByUse(table, u)
    ensures ByUse(Sweep(table, exclude, excess).0, u)
  {
    if excess > 0 && table != [] {
      TailByUse(table, u);
      var rest := if MayGo(table[0], exclude) then excess - 1 else excess;
      SweepKeepsOrder(table[1..], exclude, rest, u);
      HeadByUse(table[0], Sweep(table[1..], exclude, rest).0, u);
    }
  }

  lemma {:induction false} SweepClosesOldest(table: seq<Bridged>, exclude: string, excess: nat, u: Uses)
    requires ByUse(table, u)
    ensures var (kept, closed) := Sweep(table, exclude, excess); OldestClosed(closed, kept, exclude, u)
  {
    if excess > 0 && table != [] {
      TailByUse(table, u);
      SweepClosesOldest(table[1..], exclude, if MayGo(table[0], exclude) then excess - 1 else excess, u);
    }
  }

  /** A fresh use of one entry puts it behind the rest, whose order stays. */
  lemma UsedLast(rest: seq<Bridged>, entry: Bridged, u: Uses)
    requires ByUse(rest, u) && forall b :: b in rest ==> b.connection != entry.connection
    ensures ByUse(rest + [entry], Uses(u.now + 1, u.last[entry.connection := u.now]))
  {}

  lemma LaterIsFine(table: seq<Bridged>, u: Uses)
    requires ByUse(table, u)
    ensures ByUse(table, u.(now := u.now + 1))
  {}

  lemma TakenOut(table: seq<Bridged>, index: nat, u: Uses)
    requires index < |table| && ByUse(table, u) && DistinctConnections(table)
    ensures ByUse(RemoveAt(table, index), u)
    ensures forall b :: b in RemoveAt(table, index) ==> b.connection != table[index].connection
  {
    var rest := RemoveAt(table, index);
    assert forall i :: 0 <= i < |rest| ==> rest[i] == table[if i < index then i else i + 1];
  }

  lemma OnlyUsed(hub: Hub, event: Event, u: Uses, c: nat)
    requires Acyclic(hub.moved) && UsedBy(hub, event, c)
    ensures UsedNext(hub, event, u) == Uses(u.now + 1, u.last[c := u.now])
  {}

  /** The first entry filed under a key is the one that is found. */
  lemma FoundIs(table: seq<Bridged>, key: string, i: nat)
    ensures FiledAt(table, key, i) <==> IndexOf(table, key) == Some(i)
  {
    if i < |table| && IndexOf(table, key).None? {
      assert !((b: Bridged) => b.key == key)(table[i]);
    }
  }

  lemma CheckKeepsOrder(hub: Hub, event: Event, u: Uses)
    requires Acyclic(hub.moved) && Conserved(hub) && ByUse(hub.table, u) && event.Check?
    ensures ByUse(Step(hub, event).table, UsedNext(hub, event, u))
  {
    var key := Key(event.channelId, event.sessionKey);
    match IndexOf(hub.table, key)
    case Some(index) =>
      FoundIs(hub.table, key, index);
      OnlyUsed(hub, event, u, hub.table[index].connection);
      TakenOut(hub.table, index, u);
      UsedLast(RemoveAt(hub.table, index), hub.table[index], u);
    case None =>
      forall i: nat ensures !FiledAt(hub.table, key, i) {
        FoundIs(hub.table, key, i);
      }
      LaterIsFine(hub.table, u);
  }

  lemma MoveKeepsOrder(hub: Hub, event: Event, u: Uses)
    requires Acyclic(hub.moved) && Conserved(hub) && ByUse(hub.table, u)
    requires event.Compacted? && FreshKey(hub, event.key, event.continued)
    ensures ByUse(Step(hub, event).table, UsedNext(hub, event, u))
  {
    var key := Resolve(hub.table, hub.moved, event.key);
    match IndexOf(hub.table, key)
    case Some(index) =>
      var b := hub.table[index];
      FoundIs(hub.table, key, index);
      assert IsAbout(hub, event.key, index);
      OnlyUsed(hub, event, u, b.connection);
      TakenOut(hub.table, index, u);
      UsedLast(RemoveAt(hub.table, index), b.(key := Key(b.channelId, event.continued), sessionKey := event.continued),
          u);
    case None =>
      forall i: nat ensures !IsAbout(hub, event.key, i) {
        FoundIs(hub.table, key, i);
      }
      LaterIsFine(hub.table, u);
  }

  lemma InsertKeepsOrder(hub: Hub, event: Event, u: Uses)
    requires Acyclic(hub.moved) && Conserved(hub) && ByUse(hub.table, u) && event.Insert?
    ensures ByUse(Step(hub, event).table, UsedNext(hub, event, u))
  {
    LaterIsFine(hub.table, u);
    if event.caller in hub.callers && hub.callers[event.caller].Holding? {
      var c := hub.callers[event.caller];
      var key := Key(c.channelId, c.sessionKey);
      if !HasKey(hub.table, key) {
        var mine := Bridged(key, c.channelId, c.sessionKey, c.connection, c.sessionKey, c.target, false);
        forall b | b in hub.table ensures b.key != key && b.connection != c.connection {
          assert !((x: Bridged) => x.key == key)(b);
          assert InTable(hub.table, b.connection) && Held(hub, c.connection);
        }
        OnlyUsed(hub, event, u, c.connection);
        UsedLast(hub.table, mine, u);
        SweepKeepsOrder(hub.table + [mine], key, Excess(hub.table + [mine], hub.max), UsedNext(hub, event, u));
      }
    }
  }

  lemma StepKeepsOrder(hub: Hub, event: Event, u: Uses)
    requires Acyclic(hub.moved) && Conserved(hub) && ByUse(hub.table, u)
    requires event.Compacted? ==> FreshKey(hub, event.key, event.continued)
    ensures ByUse(Step(hub, event).table, UsedNext(hub, event, u))
  {
    match event
    case Check(_, _, _, _) => CheckKeepsOrder(hub, event, u);
    case Insert(_) => InsertKeepsOrder(hub, event, u);
    case Compacted(_, _) => MoveKeepsOrder(hub, event, u);
    case Status(key, busy) =>
      StatusIsNoted(hub, key, busy);
      var after := Step(hub, event).table;
      assert forall i :: 0 <= i < |after| ==>
        hub.table[i] in hub.table && after[i].connection == hub.table[i].connection;
    case _ =>
  }

  lemma {:induction false} RunKeepsOrder(hub: Hub, events: seq<Event>, end: Hub, u: Uses)
    requires Conserved(hub) && Acyclic(hub.moved) && Reaches(hub, events, end) && ByUse(hub.table, u)
    ensures ByUse(end.table, UsesOf(hub, events, end, u)) && Conserved(end) && Acyclic(end.moved)
    decreases |events|
  {
    if events != [] {
      StepConserves(hub, events[0]);
      StepKeepsOrder(hub, events[0], u);
      RunKeepsOrder(Step(hub, events[0]), events[1..], end, UsedNext(hub, events[0], u));
    }
  }

  /** What an insert closes for room was last used before any entry it leaves with no turn running. */
  ghost predicate OldestMadeRoom(hub: Hub, mine: nat, after: Hub, u: Uses) {
    forall c, b ::
      (c in after.closed && c !in hub.closed && c != mine && b in after.table && !b.busy && b.connection != mine) ==>
        UsedAfter(b, c, u)
  }

  lemma RoomIsOldest(table: seq<Bridged>, mine: Bridged, excess: nat, u: Uses)
    requires ByUse(table, u) && forall b :: b in table ==> b.key != mine.key && b.connection != mine.connection
    ensures var (kept, closed) := Sweep(table + [mine], mine.key, excess);
      forall c, b :: c in closed && c != mine.connection && b in kept && !b.busy && b.connection != mine.connection
        ==> UsedAfter(b, c, u)
  {
    var all := Uses(u.now + 1, u.last[mine.connection := u.now]);
    var (kept, closed) := Sweep(table + [mine], mine.key, excess);
    UsedLast(table, mine, u);
    SweepClosesOldest(table + [mine], mine.key, excess, all);
    forall c, b | c in closed && c != mine.connection && b in kept && !b.busy && b.connection != mine.connection
      ensures UsedAfter(b, c, u)
    {
      assert b in table && MayGo(b, mine.key);
      assert UsedAfter(b, c, all);
    }
  }

  lemma InsertClosesOldest(hub: Hub, caller: nat, u: Uses)
    requires Acyclic(hub.moved) && Conserved(hub) && ByUse(hub.table, u)
    requires caller in hub.callers && hub.callers[caller].Holding?
    ensures OldestMadeRoom(hub, hub.callers[caller].connection, Step(hub, Insert(caller)), u)
  {
    var c := hub.callers[caller];
    var key := Key(c.channelId, c.sessionKey);
    if !HasKey(hub.table, key) {
      var mine := Bridged(key, c.channelId, c.sessionKey, c.connection, c.sessionKey, c.target, false);
      forall b | b in hub.table ensures b.key != key && b.connection != c.connection {
        assert !((x: Bridged) => x.key == key)(b);
        assert InTable(hub.table, b.connection) && Held(hub, c.connection);
      }
      RoomIsOldest(hub.table, mine, Excess(hub.table + [mine], hub.max), u);
    }
  }

  /**
   The least recently used go first: in every run from an empty table, a connection that an insert closes for
   room was last used before that of any entry it leaves with no turn running.
   */
  lemma LeastRecentlyUsedGoFirst(max: nat, events: seq<Event>, hub: Hub, caller: nat)
    requires Reaches(Start(max), events, hub) && caller in hub.callers && hub.callers[caller].Holding?
    ensures Acyclic(hub.moved)
    ensures OldestMadeRoom(hub, hub.callers[caller].connection, Step(hub, Insert(caller)),
        UsesOf(Start(max), events, hub, Uses(0, map[])))
  {
    StartConserves(max);
    RunKeepsOrder(Start(max), events, hub, Uses(0, map[]));
    InsertClosesOldest(hub, caller, UsesOf(Start(max), events, hub, Uses(0, map[])));
  }

  // ------------------------------------------------------------- one name for a conversation

  /** What a channel calls a session: without the channel's own prefix, and by default when it is not named. */
  function Named(channelId: string, sessionKey: string): string {
    if sessionKey == "" then "default"
    else if channelId + ":" <= sessionKey then sessionKey[|channelId| + 1..] else sessionKey
  }

  /** Two names of a channel are one session exactly when they differ in no more than its prefix. */
  lemma OneNameEach(channelId: string, a: string, b: string)
    ensures Namespaced(channelId, a) == Namespaced(channelId, b) <==> Named(channelId, a) == Named(channelId, b)
    ensures Namespaced(channelId, a) == channelId + ":" + Named(channelId, a)
  {
    NamedAfterPrefix(channelId, a);
    NamedAfterPrefix(channelId, b);
    var prefix := channelId + ":";
    assert (prefix + Named(channelId, a))[|prefix|..] == Named(channelId, a);
    assert (prefix + Named(channelId, b))[|prefix|..] == Named(channelId, b);
  }

  lemma NamedAfterPrefix(channelId: string, sessionKey: string)
    ensures Namespaced(channelId, sessionKey) == channelId + ":" + Named(channelId, sessionKey)
  {
    assert (channelId + ":")[|channelId|] == ':';
    assert forall i :: 0 <= i < |"default"| ==> "default"[i] != ':';
  }
}
