/**
 The context report in the provider's tokens (crates/agent/src/context.rs): four sections scaled by one
 ratio and rounded so that they still add up. Ratios are reals.
 */
module ContextScale {

  const SECTIONS: nat := 4

  datatype ContextBreakdown = ContextBreakdown(systemPrompt: nat, tools: nat, messages: nat, runtimeBlock: nat)

  function Sections(b: ContextBreakdown): (r: seq<nat>)
    ensures |r| == SECTIONS
  {
    [b.systemPrompt, b.tools, b.messages, b.runtimeBlock]
  }

  function Total(b: ContextBreakdown): nat {
    b.systemPrompt + b.tools + b.messages + b.runtimeBlock
  }

  /** To the nearest whole number, a half away from zero, of a number that is not negative. */
  function Round(x: real): int {
    (x + 0.5).Floor
  }

  /** What flooring `x` loses. */
  function Lost(x: real): (r: real)
    ensures 0.0 <= r < 1.0
  {
    x - x.Floor as real
  }

  /** The sections times the ratio, before any rounding. */
  function Exact(b: ContextBreakdown, ratio: real): (r: seq<real>)
    ensures |r| == SECTIONS
  {
    [b.systemPrompt as real * ratio, b.tools as real * ratio, b.messages as real * ratio,
        b.runtimeBlock as real * ratio]
  }

  /** A token count scaled by a ratio, to the nearest whole token. */
  function Rounded(tokens: nat, ratio: real): int {
    Round(tokens as real * ratio)
  }

  /** The scaled total, rounded once. */
  function Target(b: ContextBreakdown, ratio: real): int {
    Rounded(Total(b), ratio)
  }

  function Losses(exact: seq<real>): (r: seq<real>)
    ensures |r| == |exact| && forall i :: 0 <= i < |r| ==> r[i] == Lost(exact[i])
  {
    seq(|exact|, i requires 0 <= i < |exact| => Lost(exact[i]))
  }

  // ------------------------------------------------------------- who comes first

  /** A larger loss first; among equals, the earlier section. */
  predicate Before(lost: seq<real>, i: nat, j: nat)
    requires i < |lost| && j < |lost|
  {
    lost[i] > lost[j] || (lost[i] == lost[j] && i < j)
  }

  function Ahead(lost: seq<real>, i: nat): set<nat>
    requires i < |lost|
  {
    set j: nat | j < |lost| && Before(lost, j, i)
  }

  /** How many sections come before section `i`. */
  function Rank(lost: seq<real>, i: nat): nat
    requires i < |lost|
  {
    |Ahead(lost, i)|
  }

  ghost predicate InRange(order: seq<nat>, n: nat) {
    forall k :: 0 <= k < |order| ==> order[k] < n
  }

  /** Every index below `n`, each once. */
  ghost predicate Indices(order: seq<nat>, n: nat) {
    InRange(order, n) && multiset(order) == multiset(seq(n, (i: nat) => i))
  }

  ghost predicate SortedBy(lost: seq<real>, order: seq<nat>)
    requires InRange(order, |lost|)
  {
    forall a, b :: 0 <= a < b < |order| ==> Before(lost, order[a], order[b])
  }

  lemma IndicesAreExactly(order: seq<nat>, n: nat)
    requires Indices(order, n)
    ensures |order| == n && forall i: nat :: i < n ==> i in order
  {
    var all := seq(n, (i: nat) => i);
    assert |multiset(order)| == |order| && |multiset(all)| == n;
    forall i: nat | i < n ensures i in order {
      assert all[i] == i && i in all;
      assert i in multiset(all);
      assert i in multiset(order);
    }
  }

  function Elements(s: seq<nat>): set<nat> {
    set i | i in s
  }

  lemma {:induction false} PrefixSize(lost: seq<real>, order: seq<nat>, k: nat)
    requires k <= |order| && InRange(order, |lost|) && SortedBy(lost, order)
    ensures |Elements(order[..k])| == k
  {
    if k > 0 {
      PrefixSize(lost, order, k - 1);
      assert order[..k] == order[..k - 1] + [order[k - 1]];
      assert order[k - 1] !in order[..k - 1] by {
        assert forall a :: 0 <= a < k - 1 ==> Before(lost, order[a], order[k - 1]);
      }
      assert Elements(order[..k]) == Elements(order[..k - 1]) + {order[k - 1]};
    }
  }

  /** A sorted order lists the sections by rank. */
  lemma OrderIsByRank(lost: seq<real>, order: seq<nat>, k: nat)
    requires Indices(order, |lost|) && k < |order| && SortedBy(lost, order)
    ensures Rank(lost, order[k]) == k
  {
    IndicesAreExactly(order, |lost|);
    PrefixSize(lost, order, k);
    forall j: nat ensures j in Ahead(lost, order[k]) <==> j in Elements(order[..k]) {
      if j < |lost| {
        assert j in order;
        var at :| 0 <= at < |order| && order[at] == j;
        if at < k {
          assert order[..k][at] == j && Before(lost, j, order[k]);
        } else if at > k {
          assert Before(lost, order[k], j);
        }
      }
    }
    assert Ahead(lost, order[k]) == Elements(order[..k]);
  }

  /** `order` with its element at `n` moved down to `at`. */
  function Moved(order: seq<nat>, n: nat, at: nat): seq<nat>
    requires at <= n < |order|
  {
    order[..at] + [order[n]] + order[at..n] + order[n + 1..]
  }

  lemma PartsSwap(a: seq<nat>, b: seq<nat>, c: seq<nat>, d: seq<nat>)
    ensures multiset(a + c + b + d) == multiset(a + b + c + d)
  {}

  lemma MovedKeepsAll(order: seq<nat>, n: nat, at: nat)
    requires at <= n < |order|
    ensures multiset(Moved(order, n, at)) == multiset(order)
  {
    PartsSwap(order[..at], order[at..n], [order[n]], order[n + 1..]);
    assert order == order[..at] + order[at..n] + [order[n]] + order[n + 1..];
  }

  /** The first `n` places sorted, and every later section still in its own. */
  ghost predicate SortedUpTo(lost: seq<real>, order: seq<nat>, n: nat) {
    && n <= |order| == |lost| && Indices(order, |lost|)
    && (forall i :: n <= i < |order| ==> order[i] == i) && (forall i :: 0 <= i < n ==> order[i] < n)
    && SortedBy(lost, order[..n])
  }

  lemma MovedIsOrdered(lost: seq<real>, order: seq<nat>, n: nat, at: nat, a: nat, b: nat)
    requires SortedUpTo(lost, order, n) && at <= n < |order| && a < b <= n
    requires forall k :: at <= k < n ==> lost[order[k]] < lost[n]
    requires at > 0 ==> lost[order[at - 1]] >= lost[n]
    ensures InRange(Moved(order, n, at), |lost|) && Before(lost, Moved(order, n, at)[a], Moved(order, n, at)[b])
  {
    var moved, sorted := Moved(order, n, at), order[..n];
    if b < at {
      assert moved[a] == sorted[a] && moved[b] == sorted[b];
    } else if a > at {
      assert moved[a] == sorted[a - 1] && moved[b] == sorted[b - 1];
    } else if a == at {
      assert moved[a] == n && moved[b] == order[b - 1];
    } else if b == at {
      assert moved[a] == sorted[a] && moved[b] == n;
      assert a == at - 1 || Before(lost, sorted[a], sorted[at - 1]);
    } else {
      assert moved[a] == sorted[a] && moved[b] == sorted[b - 1];
    }
  }

  lemma MovedStaysInRange(lost: seq<real>, order: seq<nat>, n: nat, at: nat)
    requires at <= n < |order| && InRange(order, |lost|)
    ensures InRange(Moved(order, n, at), |lost|)
  {}

  lemma MovedIsSorted(lost: seq<real>, order: seq<nat>, n: nat, at: nat)
    requires SortedUpTo(lost, order, n) && at <= n < |order|
    requires forall k :: at <= k < n ==> lost[order[k]] < lost[n]
    requires at > 0 ==> lost[order[at - 1]] >= lost[n]
    ensures SortedUpTo(lost, Moved(order, n, at), n + 1)
  {
    MovedKeepsAll(order, n, at);
    var moved := Moved(order, n, at);
    var sorted := moved[..n + 1];
    MovedStaysInRange(lost, order, n, at);
    forall a, b | 0 <= a < b < |sorted| ensures Before(lost, sorted[a], sorted[b]) {
      MovedIsOrdered(lost, order, n, at, a, b);
    }
  }

  /** `sort_by` is stable and in place: an insertion sort stands for it. */
  method SortByLoss(lost: seq<real>, order: array<nat>)
    requires order.Length == |lost| && forall i :: 0 <= i < order.Length ==> order[i] == i
    modifies order
    ensures Indices(order[..], |lost|) && SortedBy(lost, order[..])
  {
    assert order[..] == seq(|lost|, (i: nat) => i);
    var n := 0;
    while n < order.Length
      invariant 0 <= n <= order.Length && SortedUpTo(lost, order[..], n)
    {
      ghost var before := order[..];
      var at := SinkIn(lost, order, n);
      MovedIsSorted(lost, before, n, at);
      n := n + 1;
    }
    assert order[..][..n] == order[..];
  }

  lemma OneFurther(order: seq<nat>, n: nat, at: nat)
    requires 0 < at <= n < |order|
    ensures Moved(order, n, at)[at - 1 := order[n]][at := order[at - 1]] == Moved(order, n, at - 1)
  {}

  /** Moves section `n` down past the sections that lost less. */
  method SinkIn(lost: seq<real>, order: array<nat>, n: nat) returns (at: nat)
    requires n < order.Length == |lost| && order[n] == n && InRange(order[..], |lost|)
    modifies order
    ensures at <= n && order[..] == Moved(old(order[..]), n, at)
    ensures forall k :: at <= k < n ==> lost[old(order[..])[k]] < lost[n]
    ensures at > 0 ==> lost[old(order[..])[at - 1]] >= lost[n]
  {
    ghost var before := order[..];
    at := n;
    while at > 0 && lost[order[at - 1]] < lost[n]
      invariant 0 <= at <= n && order[..] == Moved(before, n, at)
      invariant forall k :: at <= k < n ==> lost[before[k]] < lost[n]
    {
      ghost var now := order[..];
      assert now[at - 1] == before[at - 1] && now[at] == n;
      order[at - 1], order[at] := order[at], order[at - 1];
      assert order[..] == now[at - 1 := n][at := before[at - 1]];
      OneFurther(before, n, at);
      at := at - 1;
    }
    assert at > 0 ==> order[..][at - 1] == before[at - 1];
  }

  // ------------------------------------------------------------- how many there are to give

  function Floors(exact: seq<real>): int
    requires |exact| == SECTIONS
  {
    exact[0].Floor + exact[1].Floor + exact[2].Floor + exact[3].Floor
  }

  /** The tokens the floors lost, to be given back. */
  function Short(exact: seq<real>, target: int): int
    requires |exact| == SECTIONS
  {
    target - Floors(exact)
  }

  /** The losers: sections whose scaled value is not whole. */
  function Losers(lost: seq<real>, n: nat): set<nat>
    requires n <= |lost|
  {
    set i: nat | i < n && lost[i] > 0.0
  }

  function Sum(xs: seq<real>, n: nat): real
    requires n <= |xs|
  {
    if n == 0 then 0.0 else Sum(xs, n - 1) + xs[n - 1]
  }

  lemma {:induction false} LossIsBounded(lost: seq<real>, n: nat)
    requires n <= |lost| && forall i :: 0 <= i < |lost| ==> 0.0 <= lost[i] < 1.0
    ensures 0.0 <= Sum(lost, n) <= |Losers(lost, n)| as real && |Losers(lost, n)| <= n
  {
    if n > 0 {
      LossIsBounded(lost, n - 1);
      if lost[n - 1] > 0.0 {
        assert Losers(lost, n) == Losers(lost, n - 1) + {n - 1};
      } else {
        assert Losers(lost, n) == Losers(lost, n - 1);
      }
    }
  }

  function Added(exact: seq<real>): real
    requires |exact| == SECTIONS
  {
    exact[0] + exact[1] + exact[2] + exact[3]
  }

  lemma ScalingDistributes(b: ContextBreakdown, ratio: real)
    ensures Target(b, ratio) == Round(Added(Exact(b, ratio)))
  {
    var p, t, m, r := b.systemPrompt as real, b.tools as real, b.messages as real, b.runtimeBlock as real;
    assert Total(b) as real == p + t + m + r;
    assert (p + t + m + r) * ratio == p * ratio + t * ratio + m * ratio + r * ratio;
  }

  lemma RoundOfWholePlus(whole: int, rest: real)
    ensures Round(whole as real + rest) == whole + Round(rest)
  {}

  lemma FloorsAndLosses(exact: seq<real>)
    requires |exact| == SECTIONS
    ensures Added(exact) == Floors(exact) as real + Sum(Losses(exact), SECTIONS)
  {
    var lost := Losses(exact);
    assert Sum(lost, 1) == lost[0] && Sum(lost, 2) == lost[0] + lost[1];
    assert Sum(lost, SECTIONS) == lost[0] + lost[1] + lost[2] + lost[3];
  }

  /** There is never more to give than there are sections that lost something. */
  lemma ShortIsCovered(exact: seq<real>)
    requires |exact| == SECTIONS
    ensures 0 <= Short(exact, Round(Added(exact))) <= |Losers(Losses(exact), SECTIONS)| <= SECTIONS
  {
    LossIsBounded(Losses(exact), SECTIONS);
    FloorsAndLosses(exact);
    RoundOfWholePlus(Floors(exact), Sum(Losses(exact), SECTIONS));
  }

  // ------------------------------------------------------------- the scaled report

  /** Section `i` scaled: its floor, and one more when it is among the first `Short` by loss. */
  function ScaledSection(exact: seq<real>, target: int, i: nat): int
    requires |exact| == SECTIONS && i < SECTIONS
  {
    exact[i].Floor + if Rank(Losses(exact), i) < Short(exact, target) then 1 else 0
  }

  /** A section whose scaled value is whole, an empty one among them, is that value. */
  lemma WholeSectionsAreExact(exact: seq<real>, i: nat)
    requires |exact| == SECTIONS && i < SECTIONS && Lost(exact[i]) == 0.0
    ensures ScaledSection(exact, Round(Added(exact)), i) as real == exact[i]
  {
    var lost := Losses(exact);
    ShortIsCovered(exact);
    assert Losers(lost, SECTIONS) <= Ahead(lost, i);
    SubsetIsNoLarger(Losers(lost, SECTIONS), Ahead(lost, i));
  }

  lemma {:induction false} SubsetIsNoLarger(a: set<nat>, b: set<nat>)
    requires a <= b
    ensures |a| <= |b|
  {
    if a != {} {
      var x :| x in a;
      SubsetIsNoLarger(a - {x}, b - {x});
    }
  }

  /** No section is raised while one that lost more, or as much and comes earlier, is not. */
  lemma LargerLossesComeFirst(exact: seq<real>, target: int, i: nat, j: nat)
    requires |exact| == SECTIONS && i < SECTIONS && j < SECTIONS && Before(Losses(exact), i, j)
    requires ScaledSection(exact, target, j) > exact[j].Floor
    ensures ScaledSection(exact, target, i) == exact[i].Floor + 1
  {
    var lost := Losses(exact);
    assert Ahead(lost, i) <= Ahead(lost, j);
    SubsetIsNoLarger(Ahead(lost, i), Ahead(lost, j));
  }

  lemma RanksDiffer(lost: seq<real>, i: nat, j: nat)
    requires i < |lost| && j < |lost| && Before(lost, i, j)
    ensures Rank(lost, i) < Rank(lost, j)
  {
    assert Ahead(lost, i) <= Ahead(lost, j) - {i} && i in Ahead(lost, j);
    SubsetIsNoLarger(Ahead(lost, i), Ahead(lost, j) - {i});
  }

  lemma RankIsBelow(lost: seq<real>, i: nat)
    requires i < |lost| == SECTIONS
    ensures Rank(lost, i) < SECTIONS
  {
    var others := {0, 1, 2, 3} - {i};
    assert |others| == 3;
    SubsetIsNoLarger(Ahead(lost, i), others);
  }

  /** Each rank is some section's, so as many are raised as there is to give. */
  lemma RanksAreAll(lost: seq<real>, short: nat)
    requires |lost| == SECTIONS && short <= SECTIONS
    ensures (if Rank(lost, 0) < short then 1 else 0) + (if Rank(lost, 1) < short then 1 else 0)
        + (if Rank(lost, 2) < short then 1 else 0) + (if Rank(lost, 3) < short then 1 else 0) == short
  {
    forall i: nat | i < SECTIONS ensures Rank(lost, i) < SECTIONS {
      RankIsBelow(lost, i);
    }
    forall i: nat, j: nat | i < j < SECTIONS ensures Rank(lost, i) != Rank(lost, j) {
      if Before(lost, i, j) {
        RanksDiffer(lost, i, j);
      } else {
        RanksDiffer(lost, j, i);
      }
    }
    AllOfFour(Rank(lost, 0), Rank(lost, 1), Rank(lost, 2), Rank(lost, 3), short);
  }

  lemma AllOfFour(a: nat, b: nat, c: nat, d: nat, n: nat)
    requires a < 4 && b < 4 && c < 4 && d < 4 && a != b && a != c && a != d && b != c && b != d && c != d && n <= 4
    ensures (if a < n then 1 else 0) + (if b < n then 1 else 0) + (if c < n then 1 else 0) + (if d < n then 1 else 0)
        == n
  {}

  /** A share is less than a token away from its own exact value. */
  lemma ShareIsNear(exact: seq<real>, i: nat)
    requires |exact| == SECTIONS && i < SECTIONS
    ensures -1.0 < ScaledSection(exact, Round(Added(exact)), i) as real - exact[i] < 1.0
  {
    if Lost(exact[i]) == 0.0 {
      WholeSectionsAreExact(exact, i);
    }
  }

  /** What the four shares come to. */
  function SharesOf(exact: seq<real>, target: int): int
    requires |exact| == SECTIONS
  {
    ScaledSection(exact, target, 0) + ScaledSection(exact, target, 1) + ScaledSection(exact, target, 2)
    + ScaledSection(exact, target, 3)
  }

  /** As many tokens are shared out as there are. */
  lemma SharesAddUp(exact: seq<real>)
    requires |exact| == SECTIONS
    ensures SharesOf(exact, Round(Added(exact))) == Round(Added(exact))
  {
    ShortIsCovered(exact);
    RanksAreAll(Losses(exact), Short(exact, Round(Added(exact))));
  }

  lemma RoundIsNearest(x: real)
    ensures -0.5 < Round(x) as real - x <= 0.5
  {}

  lemma TargetIsNearest(b: ContextBreakdown, ratio: real)
    ensures var whole := (b.systemPrompt + b.tools + b.messages + b.runtimeBlock) as real * ratio;
      -0.5 < Target(b, ratio) as real - whole <= 0.5
  {
    RoundIsNearest(Total(b) as real * ratio);
  }

  lemma ExactSection(b: ContextBreakdown, ratio: real, i: nat)
    requires i < SECTIONS
    ensures Exact(b, ratio)[i] == Sections(b)[i] as real * ratio
  {}

  /** A share of the report is less than a token away from its section's exact value. */
  lemma ShareOfTheReport(b: ContextBreakdown, ratio: real, i: nat)
    requires i < SECTIONS
    ensures -1.0 < ScaledSection(Exact(b, ratio), Target(b, ratio), i) as real - Exact(b, ratio)[i] < 1.0
  {
    ScalingDistributes(b, ratio);
    ShareIsNear(Exact(b, ratio), i);
  }

  lemma SharesAreTheTarget(b: ContextBreakdown, ratio: real)
    ensures SharesOf(Exact(b, ratio), Target(b, ratio)) == Target(b, ratio)
  {
    ScalingDistributes(b, ratio);
    SharesAddUp(Exact(b, ratio));
  }

  /**
   The report adds up: its sections, scaled one by one, come together to the whole scaled at once, to the nearest
   token.
   */
  lemma TheReportAddsUp(b: ContextBreakdown, ratio: real)
    ensures var whole := (b.systemPrompt + b.tools + b.messages + b.runtimeBlock) as real * ratio;
      var shared := SharesOf(Exact(b, ratio), Target(b, ratio));
      -0.5 < shared as real - whole <= 0.5
  {
    SharesAreTheTarget(b, ratio);
    TargetIsNearest(b, ratio);
  }

  ghost predicate NotNegative(exact: seq<real>) {
    forall i :: 0 <= i < |exact| ==> exact[i] >= 0.0
  }

  lemma ProductIsNotNegative(x: nat, ratio: real)
    requires ratio > 0.0
    ensures x as real * ratio >= 0.0
  {}

  lemma ExactIsNotNegative(b: ContextBreakdown, ratio: real)
    requires ratio > 0.0
    ensures NotNegative(Exact(b, ratio))
  {
    ProductIsNotNegative(b.systemPrompt, ratio);
    ProductIsNotNegative(b.tools, ratio);
    ProductIsNotNegative(b.messages, ratio);
    ProductIsNotNegative(b.runtimeBlock, ratio);
  }

  method FloorsOf(exact: seq<real>) returns (floors: array<nat>)
    requires NotNegative(exact)
    ensures fresh(floors) && floors.Length == |exact|
    ensures forall i :: 0 <= i < |exact| ==> floors[i] == exact[i].Floor
  {
    floors := new nat[|exact|];
    for i := 0 to |exact|
      invariant forall j :: 0 <= j < i ==> floors[j] == exact[j].Floor
    {
      floors[i] := exact[i].Floor;
    }
  }

  method OrderOf(lost: seq<real>) returns (order: array<nat>)
    ensures fresh(order) && Indices(order[..], |lost|) && SortedBy(lost, order[..])
  {
    order := new nat[|lost|];
    for i := 0 to |lost|
      invariant forall j :: 0 <= j < i ==> order[j] == j
    {
      order[i] := i;
    }
    SortByLoss(lost, order);
  }

  function Ranks(lost: seq<real>): (r: seq<nat>)
    ensures |r| == |lost| && forall i :: 0 <= i < |r| ==> r[i] == Rank(lost, i)
  {
    seq(|lost|, i requires 0 <= i < |lost| => Rank(lost, i))
  }

  /** Section `order[k]` is the one of rank `k`. */
  ghost predicate ListsByRank(ranks: seq<nat>, order: seq<nat>) {
    && |order| == |ranks|
    && forall k :: 0 <= k < |order| ==>
      order[k] < |ranks| && ranks[order[k]] == k && forall i :: 0 <= i < |ranks| && ranks[i] == k ==> i == order[k]
  }

  lemma OrderGivesRanks(lost: seq<real>, order: seq<nat>)
    requires Indices(order, |lost|) && SortedBy(lost, order)
    ensures ListsByRank(Ranks(lost), order)
  {
    IndicesAreExactly(order, |lost|);
    forall k: nat | k < |order|
      ensures Rank(lost, order[k]) == k && forall i: nat :: i < |lost| && Rank(lost, i) == k ==> i == order[k]
    {
      OrderIsByRank(lost, order, k);
      forall i: nat | i < |lost| && Rank(lost, i) == k ensures i == order[k] {
        assert i in order;
        var at :| 0 <= at < |order| && order[at] == i;
        OrderIsByRank(lost, order, at);
      }
    }
  }

  /** `base` with the sections of the first `k` ranks raised by one. */
  ghost predicate Raised(base: seq<int>, ranks: seq<nat>, floors: seq<nat>, k: nat) {
    && |base| == |ranks| == |floors|
    && forall i :: 0 <= i < |floors| ==> floors[i] == base[i] + if ranks[i] < k then 1 else 0
  }

  function AddedUp(floors: seq<nat>): nat
    requires |floors| == SECTIONS
  {
    floors[0] + floors[1] + floors[2] + floors[3]
  }

  lemma OneMore(floors: seq<nat>, at: nat)
    requires |floors| == SECTIONS && at < SECTIONS
    ensures AddedUp(floors[at := floors[at] + 1]) == AddedUp(floors) + 1
  {}

  /** Gives one token to each of the first `short` sections of `order`. */
  method Raise(ghost ranks: seq<nat>, floors: array<nat>, order: array<nat>, short: nat)
    requires floors != order && floors.Length == |ranks| == SECTIONS && short <= SECTIONS
    requires ListsByRank(ranks, order[..])
    modifies floors
    ensures Raised(old(floors[..]), ranks, floors[..], short)
    ensures AddedUp(floors[..]) == AddedUp(old(floors[..])) + short
  {
    ghost var base := floors[..];
    for k := 0 to short
      invariant Raised(base, ranks, floors[..], k) && AddedUp(floors[..]) == AddedUp(base) + k
    {
      ghost var before := floors[..];
      assert order[..][k] == order[k];
      OneMore(before, order[k]);
      floors[order[k]] := floors[order[k]] + 1;
      assert floors[..] == before[order[k] := before[order[k]] + 1];
    }
  }

  /** The floors, with what they lost given back by largest remainder. */
  method Shared(exact: seq<real>, target: int) returns (scaled: ContextBreakdown)
    requires |exact| == SECTIONS && NotNegative(exact) && 0 <= Short(exact, target) <= SECTIONS
    ensures Total(scaled) == target
    ensures forall i :: 0 <= i < SECTIONS ==> Sections(scaled)[i] == ScaledSection(exact, target, i)
  {
    var floors := FloorsOf(exact);
    var order := OrderOf(Losses(exact));
    OrderGivesRanks(Losses(exact), order[..]);
    Raise(Ranks(Losses(exact)), floors, order, Short(exact, target));
    scaled := ContextBreakdown(floors[0], floors[1], floors[2], floors[3]);
    assert Sections(scaled) == floors[..];
  }

  /**
   The sections of the report, scaled by a positive ratio: they add up to the scaled total rounded once,
   and each is its floor or one more, the largest losses first.
   */
  method Scaled(b: ContextBreakdown, ratio: real) returns (scaled: ContextBreakdown)
    requires ratio > 0.0
    ensures Total(scaled) == Target(b, ratio)
    ensures forall i :: 0 <= i < SECTIONS ==>
      Sections(scaled)[i] == ScaledSection(Exact(b, ratio), Target(b, ratio), i)
  {
    var exact := Exact(b, ratio);
    ExactIsNotNegative(b, ratio);
    ScalingDistributes(b, ratio);
    ShortIsCovered(exact);
    scaled := Shared(exact, Target(b, ratio));
  }
}
