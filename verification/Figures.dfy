/**
 The running totals of a turn (`TurnState::note_step`, `TurnState::take_step` and
 `accumulate_usage` of crates/agent/src/agent_loop.rs): every result is counted once for the turn
 and once for the step whose rows it ends up on.
 */
module Figures {
  import opened Common
  import opened Messages

  const U64_MAX: nat := 0xFFFF_FFFF_FFFF_FFFF
  const MAX_SAFE_INTEGER: nat := 0x1F_FFFF_FFFF_FFFF

  const EMPTY_USAGE := Usage(0, 0, 0, None, None)

  function SaturatingAdd(a: nat, b: nat): nat {
    if a + b > U64_MAX then U64_MAX else a + b
  }

  function SumOptional(a: Option<nat>, b: Option<nat>): Option<nat> {
    match (a, b)
    case (None, other) => other
    case (other, None) => other
    case (Some(x), Some(y)) => Some(SaturatingAdd(x, y))
  }

  function AccumulateUsage(total: Usage, next: Usage): Usage {
    Usage(SaturatingAdd(total.promptTokens, next.promptTokens),
          SaturatingAdd(total.completionTokens, next.completionTokens),
          SaturatingAdd(total.totalTokens, next.totalTokens),
          SumOptional(total.cachedTokens, next.cachedTokens),
          SumOptional(total.reasoningTokens, next.reasoningTokens))
  }

  function Safe(value: nat): nat {
    if value > MAX_SAFE_INTEGER then MAX_SAFE_INTEGER else value
  }

  function SafeOptional(value: Option<nat>): Option<nat> {
    match value
    case None => None
    case Some(v) => Some(Safe(v))
  }

  function SafeStats(stats: StepStats): StepStats {
    var usage := stats.usage;
    StepStats(
      Usage(Safe(usage.promptTokens), Safe(usage.completionTokens), Safe(usage.totalTokens),
            SafeOptional(usage.cachedTokens), SafeOptional(usage.reasoningTokens)),
      SafeOptional(stats.generationTokens))
  }

  /** The turn's totals, the step not written yet, and every step written so far. */
  datatype Totals = Totals(usage: Usage, generationTokens: nat, pending: Option<StepStats>, steps: seq<StepStats>)

  const NO_FIGURES := Totals(EMPTY_USAGE, 0, None, [])

  /** The step's figures with one more call folded in. */
  function Folded(pending: Option<StepStats>, call: StepStats): StepStats {
    match pending
    case None => call
    case Some(stats) =>
      StepStats(AccumulateUsage(stats.usage, call.usage), SumOptional(stats.generationTokens, call.generationTokens))
  }

  /** One result: `timed` when it reported a window to generate tokens in. */
  function Noted(t: Totals, usage: Usage, timed: bool): Totals {
    var call := StepStats(usage, if timed then Some(usage.completionTokens) else None);
    t.(usage := AccumulateUsage(t.usage, usage),
       generationTokens :=
         if timed then SaturatingAdd(t.generationTokens, usage.completionTokens) else t.generationTokens,
       pending := Some(Folded(t.pending, call)))
  }

  /** The pending step, finished for the row that will carry it. */
  function StepTaken(pending: Option<StepStats>): Option<StepStats> {
    match pending
    case None => None
    case Some(stats) => Some(SafeStats(stats))
  }

  /** The step's rows reached the store. */
  function Recorded(t: Totals): Totals {
    t.(pending := None, steps := if t.pending.None? then t.steps else t.steps + [SafeStats(t.pending.value)])
  }

  // ------------------------------------------------------------- the steps sum to the turn

  function PlusOptional(a: Option<nat>, b: Option<nat>): Option<nat> {
    match (a, b)
    case (None, other) => other
    case (other, None) => other
    case (Some(x), Some(y)) => Some(x + y)
  }

  /** Addition with no ceiling: what the figures are meant to be. */
  function Plus(a: StepStats, b: StepStats): StepStats {
    StepStats(
      Usage(a.usage.promptTokens + b.usage.promptTokens,
            a.usage.completionTokens + b.usage.completionTokens,
            a.usage.totalTokens + b.usage.totalTokens,
            PlusOptional(a.usage.cachedTokens, b.usage.cachedTokens),
            PlusOptional(a.usage.reasoningTokens, b.usage.reasoningTokens)),
      PlusOptional(a.generationTokens, b.generationTokens))
  }

  const NOTHING := StepStats(EMPTY_USAGE, None)

  function Sum(steps: seq<StepStats>): StepStats {
    if steps == [] then NOTHING else Plus(Sum(steps[..|steps| - 1]), steps[|steps| - 1])
  }

  function OrZero(value: Option<nat>): nat {
    if value.Some? then value.value else 0
  }

  predicate FitsOptional(value: Option<nat>) {
    value.Some? ==> value.value <= MAX_SAFE_INTEGER
  }

  /** Every figure is one the wire can carry. */
  predicate Fits(usage: Usage, generationTokens: nat) {
    && usage.promptTokens <= MAX_SAFE_INTEGER && usage.completionTokens <= MAX_SAFE_INTEGER
    && usage.totalTokens <= MAX_SAFE_INTEGER
    && FitsOptional(usage.cachedTokens) && FitsOptional(usage.reasoningTokens)
    && generationTokens <= MAX_SAFE_INTEGER
  }

  function PendingOf(t: Totals): StepStats {
    if t.pending.None? then NOTHING else t.pending.value
  }

  /** Below the clamp, the turn's figures are those of its written steps and the pending one. */
  ghost predicate AddsUp(t: Totals) {
    Fits(t.usage, t.generationTokens) ==>
      var all := Plus(Sum(t.steps), PendingOf(t));
      t.usage == all.usage && t.generationTokens == OrZero(all.generationTokens)
  }

  lemma PlusIsAssociative(a: StepStats, b: StepStats, c: StepStats)
    ensures Plus(Plus(a, b), c) == Plus(a, Plus(b, c))
  {}

  /** A total that fits was not cut on the way: each addend fits, and the sum is exact. */
  lemma FittingSumIsExact(total: Usage, next: Usage, generation: nat)
    requires Fits(AccumulateUsage(total, next), generation)
    ensures Fits(total, generation) && Fits(next, generation)
    ensures AccumulateUsage(total, next) == Plus(StepStats(total, None), StepStats(next, None)).usage
  {}

  lemma NotedAddsUp(t: Totals, usage: Usage, timed: bool)
    requires AddsUp(t)
    ensures AddsUp(Noted(t, usage, timed))
  {
    var r := Noted(t, usage, timed);
    var call := StepStats(usage, if timed then Some(usage.completionTokens) else None);
    if Fits(r.usage, r.generationTokens) {
      FittingSumIsExact(t.usage, usage, r.generationTokens);
      PlusIsAssociative(Sum(t.steps), PendingOf(t), call);
      FoldedIsPlus(t, call);
    }
  }

  lemma FoldedIsPlus(t: Totals, call: StepStats)
    requires AddsUp(t) && Fits(t.usage, t.generationTokens)
    requires Fits(AccumulateUsage(t.usage, call.usage), t.generationTokens + OrZero(call.generationTokens))
    ensures Folded(t.pending, call) == Plus(PendingOf(t), call)
  {}

  lemma RecordedAddsUp(t: Totals)
    requires AddsUp(t)
    ensures AddsUp(Recorded(t)) && Recorded(t).pending.None?
  {
    var r := Recorded(t);
    if Fits(t.usage, t.generationTokens) && t.pending.Some? {
      assert SafeStats(t.pending.value) == t.pending.value;
      assert r.steps[..|r.steps| - 1] == t.steps;
    }
  }
}
