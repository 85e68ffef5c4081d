/**
 What one request carries and what the context meter says of it (crates/agent/src/agent_loop.rs:2182-2277,
 crates/agent/src/context.rs:217-328): the window, the attachments and the scaling put together.
 */
module Requests {
  import opened Common
  import opened Messages
  import Attachments
  import ContextScale
  import History
  import HistoryWindow
  import TurnLoop

  // ------------------------------------------------------------- every request is legal

  /** Reading attachments changes no role, no call and no tool row. */
  lemma {:induction false} ShownStaysAnswered(messages: seq<ChatMessage>, shown: seq<ChatMessage>)
    requires |messages| == |shown| && forall i :: 0 <= i < |messages| ==> Attachments.Shows(messages[i], shown[i])
    requires History.Answered(messages)
    ensures History.Answered(shown)
    decreases |messages|
  {
    if messages != [] {
      assert Attachments.Shows(messages[0], shown[0]);
      var n := if messages[0].Assistant? then |messages[0].toolCalls| else 0;
      var was, now := messages[1..1 + n], shown[1..1 + n];
      forall i | 0 <= i < |was| ensures now[i] == was[i] {
        assert was[i].Tool?;
        assert Attachments.Shows(messages[1 + i], shown[1 + i]);
      }
      assert now == was;
      ShownStaysAnswered(messages[1 + n..], shown[1 + n..]);
    }
  }

  /** The messages one request carries for its history. */
  function HistoryOf(
    pricer: HistoryWindow.Pricer, memo: HistoryWindow.Memo, records: seq<HistoryWindow.Record>,
    openingSeq: Option<int>,
    budget: Option<nat>, env: Attachments.Env, views: nat -> Attachments.Disk, options: Attachments.Options,
    cache: Option<Attachments.Cache>): seq<ChatMessage>
  {
    var kept := HistoryWindow.Windowed(pricer, memo, records, openingSeq, budget).0;
    Attachments.Materialised(env, views, options, HistoryWindow.MessagesOf(kept), cache).0
  }

  /**
   From store to wire: of an answerable history, cut to any budget and materialised over any disk, a
   provider is sent at most 500 messages, every call with its result and every result with its call, and
   no file reference.
   */
  lemma RequestsAreLegal(
      pricer: HistoryWindow.Pricer, memo: HistoryWindow.Memo, records: seq<HistoryWindow.Record>,
      openingSeq: Option<int>,
      budget: Option<nat>, env: Attachments.Env, views: nat -> Attachments.Disk, options: Attachments.Options,
      cache: Option<Attachments.Cache>)
    requires History.Answered(HistoryWindow.MessagesOf(records)) && Attachments.PaidCache(cache)
    ensures var sent := HistoryOf(pricer, memo, records, openingSeq, budget, env, views, options, cache);
      && |sent| <= HistoryWindow.DEFAULT_MAX_HISTORY_MESSAGES
      && !History.HasOrphan(sent, {}) && History.Unanswered(sent, {}) == {}
      && forall message :: message in sent ==> Attachments.NoFiles(Attachments.PartsOf(message))
  {
    var kept := HistoryWindow.Windowed(pricer, memo, records, openingSeq, budget).0;
    var messages := HistoryWindow.MessagesOf(kept);
    var sent := HistoryOf(pricer, memo, records, openingSeq, budget, env, views, options, cache);
    HistoryWindow.RequestIsLegal(pricer, memo, records, openingSeq, budget);
    Attachments.RequestIsMaterialised(env, views, options, messages, cache);
    ShownStaysAnswered(messages, sent);
    History.AnsweredIsLegal(sent, {}, {});
    forall message | message in sent ensures Attachments.NoFiles(Attachments.PartsOf(message)) {
      var i :| 0 <= i < |sent| && sent[i] == message;
      assert Attachments.Shows(messages[i], sent[i]);
    }
  }

  /** So after any turn, lost or not, the next request on its session is legal. */
  lemma TurnsLeaveLegalRequests(
      config: TurnLoop.Config, script: nat -> TurnLoop.Input, t: TurnLoop.Turn, closing: TurnLoop.Closing,
      pricer: HistoryWindow.Pricer, memo: HistoryWindow.Memo, records: seq<HistoryWindow.Record>,
      openingSeq: Option<int>,
      budget: Option<nat>, env: Attachments.Env, views: nat -> Attachments.Disk, options: Attachments.Options)
    requires TurnLoop.Opening(t)
    requires HistoryWindow.MessagesOf(records) == TurnLoop.RunTurn(config, script, t, closing).0.store
    ensures var sent := HistoryOf(pricer, memo, records, openingSeq, budget, env, views, options, Some(map[]));
      !History.HasOrphan(sent, {}) && History.Unanswered(sent, {}) == {}
  {
    TurnLoop.EveryTurn(config, script, t, closing);
    RequestsAreLegal(pricer, memo, records, openingSeq, budget, env, views, options, Some(map[]));
  }

  // ------------------------------------------------------------- the meter says what is sent

  /** A request's estimate as the meter shows it: scaled by the calibration when there is one. */
  function Reported(calibration: Option<real>, estimate: nat): int {
    match calibration
    case None => estimate
    case Some(ratio) => ContextScale.Rounded(estimate, ratio)
  }

  /** A report of an estimate: the estimate itself, or each section of it scaled, by largest remainder. */
  ghost predicate Reports(breakdown: ContextScale.ContextBreakdown, estimate: ContextScale.ContextBreakdown,
        calibration: Option<real>) {
    match calibration
    case None => breakdown == estimate
    case Some(ratio) =>
      forall i :: 0 <= i < ContextScale.SECTIONS ==>
        ContextScale.Sections(breakdown)[i] ==
          ContextScale.ScaledSection(ContextScale.Exact(estimate, ratio), ContextScale.Target(estimate, ratio), i)
  }

  /** Whether `shown` is `tokens` at a ratio, give or take less than `within`. */
  predicate Near(shown: int, tokens: nat, ratio: real, within: real) {
    -within <= shown as real - tokens as real * ratio <= within
  }

  /**
   What the meter shows of a measured request is what the request is estimated at, section by section: as it is
   before any provider counted, else less than a token off each section and no more than half a one off the whole.
   */
  lemma TheMeterIsNear(breakdown: ContextScale.ContextBreakdown, estimate: ContextScale.ContextBreakdown, ratio: real)
    requires Reports(breakdown, estimate, Some(ratio))
    ensures Near(breakdown.systemPrompt, estimate.systemPrompt, ratio, 1.0)
    ensures Near(breakdown.tools, estimate.tools, ratio, 1.0)
    ensures Near(breakdown.messages, estimate.messages, ratio, 1.0)
    ensures Near(breakdown.runtimeBlock, estimate.runtimeBlock, ratio, 1.0)
    ensures Near(ContextScale.Total(breakdown), ContextScale.Total(estimate), ratio, 0.5)
  {
    SectionIsNear(breakdown, estimate, ratio, 0);
    SectionIsNear(breakdown, estimate, ratio, 1);
    SectionIsNear(breakdown, estimate, ratio, 2);
    SectionIsNear(breakdown, estimate, ratio, 3);
    WholeIsNear(breakdown, estimate, ratio);
  }

  lemma SectionIsNear(breakdown: ContextScale.ContextBreakdown, estimate: ContextScale.ContextBreakdown, ratio: real,
        i: nat)
    requires Reports(breakdown, estimate, Some(ratio)) && i < ContextScale.SECTIONS
    ensures Near(ContextScale.Sections(breakdown)[i], ContextScale.Sections(estimate)[i], ratio, 1.0)
  {
    ContextScale.ShareOfTheReport(estimate, ratio, i);
    ContextScale.ExactSection(estimate, ratio, i);
  }

  lemma WholeIsNear(breakdown: ContextScale.ContextBreakdown, estimate: ContextScale.ContextBreakdown, ratio: real)
    requires Reports(breakdown, estimate, Some(ratio))
    ensures Near(ContextScale.Total(breakdown), ContextScale.Total(estimate), ratio, 0.5)
    ensures ContextScale.Total(breakdown) == Reported(Some(ratio), ContextScale.Total(estimate))
  {
    var exact, target := ContextScale.Exact(estimate, ratio), ContextScale.Target(estimate, ratio);
    assert ContextScale.Total(breakdown) == ContextScale.SharesOf(exact, target) by {
      assert ContextScale.Sections(breakdown)[0] == ContextScale.ScaledSection(exact, target, 0);
      assert ContextScale.Sections(breakdown)[1] == ContextScale.ScaledSection(exact, target, 1);
      assert ContextScale.Sections(breakdown)[2] == ContextScale.ScaledSection(exact, target, 2);
      assert ContextScale.Sections(breakdown)[3] == ContextScale.ScaledSection(exact, target, 3);
    }
    ContextScale.SharesAreTheTarget(estimate, ratio);
    ContextScale.RoundIsNearest(ContextScale.Total(estimate) as real * ratio);
  }

  method ScaledReport(estimate: ContextScale.ContextBreakdown,
        calibration: Option<real>) returns (breakdown: ContextScale.ContextBreakdown)
    requires calibration.Some? ==> calibration.value > 0.0
    ensures Reports(breakdown, estimate, calibration)
    ensures ContextScale.Total(breakdown) == Reported(calibration, ContextScale.Total(estimate))
  {
    breakdown := estimate;
    if calibration.Some? {
      breakdown := ContextScale.Scaled(estimate, calibration.value);
    }
  }

  /** The measured window is the one the request carries, and its sections add up to the request's estimate. */
  method MeasureRecords(
      records: seq<HistoryWindow.Record>, fixed: ContextScale.ContextBreakdown, cost: HistoryWindow.FixedCost,
      openingSeq: Option<int>, prices: HistoryWindow.RowPrices)
    returns (kept: seq<HistoryWindow.Record>, breakdown: ContextScale.ContextBreakdown)
    requires fixed.messages == 0 && cost.promptTokens == ContextScale.Total(fixed)
    requires cost.calibration.Some? ==> cost.calibration.value > 0.0
    modifies prices
    ensures var (window, _, memo) :=
        HistoryWindow.Windowed(prices.pricer, old(prices.byId), records, openingSeq, HistoryWindow.HistoryBudget(cost));
      var (sizes, after) := HistoryWindow.Priced(prices.pricer, memo, window);
      && kept == window && prices.byId == after
      && Reports(breakdown, fixed.(messages := HistoryWindow.Sum(sizes)), cost.calibration)
      && ContextScale.Total(breakdown) == Reported(cost.calibration, cost.promptTokens + HistoryWindow.Sum(sizes))
  {
    var trimmed;
    kept, trimmed := HistoryWindow.WindowRecords(records, openingSeq, HistoryWindow.HistoryBudget(cost), prices);
    var sizes := prices.OfAll(kept);
    var messageTokens := HistoryWindow.SumOf(sizes, 0);
    assert sizes[0..] == sizes;
    breakdown := ScaledReport(fixed.(messages := messageTokens), cost.calibration);
  }

  lemma RoundUpTo(x: real, limit: int)
    requires x <= limit as real
    ensures ContextScale.Round(x) <= limit
  {}

  lemma SmallerRatio(x: nat, a: real, b: real)
    requires a <= b
    ensures x as real * a <= x as real * b
  {}

  /** A request that fits is reported as fitting, with room for its completion. */
  lemma MeterStaysInTheWindow(cost: HistoryWindow.FixedCost, used: nat)
    requires HistoryWindow.Fits(cost, used)
    ensures Reported(cost.calibration, cost.promptTokens + used) + cost.maxOutputTokens <= cost.contextWindowTokens
  {
    var estimate, room := cost.promptTokens + used, cost.contextWindowTokens - cost.maxOutputTokens;
    var shown := match cost.calibration case None => 1.0 case Some(ratio) => ratio;
    SmallerRatio(estimate, shown, HistoryWindow.Ratio(cost));
    RoundUpTo(estimate as real * shown, room);
  }
}
