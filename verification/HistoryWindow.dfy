/**
 How much of the stored history a request has room for (crates/agent/src/history_window.rs, and
 `history_window_start` of crates/core/src/history.rs). Token ratios are reals.
 */
module HistoryWindow {
  import opened Common
  import opened Messages
  import Attachments
  import History

  const HISTORY_BUDGET_FACTOR := 0.9
  const MIN_BUDGET_RATIO := 0.75
  const DEFAULT_MAX_HISTORY_MESSAGES: nat := 500

  datatype Record = Record(id: string, sequence: int, turnId: Option<string>, message: ChatMessage)

  function MessagesOf(records: seq<Record>): (r: seq<ChatMessage>)
    ensures |r| == |records|
  {
    seq(|records|, i requires 0 <= i < |records| => records[i].message)
  }

  // ------------------------------------------------------------- the budget

  datatype FixedCost = FixedCost(
    contextWindowTokens: nat, promptTokens: nat, maxOutputTokens: nat, calibration: Option<real>)

  /** Provider tokens per estimated token, as far as the budget believes it. */
  function Ratio(cost: FixedCost): (r: real)
    ensures r >= MIN_BUDGET_RATIO
  {
    match cost.calibration
    case None => 1.0
    case Some(ratio) => if ratio < MIN_BUDGET_RATIO then MIN_BUDGET_RATIO else ratio
  }

  /** The provider's tokens left once prompt and completion have theirs. */
  function LeftOver(cost: FixedCost): real {
    cost.contextWindowTokens as real - cost.promptTokens as real * Ratio(cost) - cost.maxOutputTokens as real
  }

  function AtLeastZero(x: real): (r: real)
    ensures r >= 0.0
  {
    if x < 0.0 then 0.0 else x
  }

  lemma QuotientIsPositive(x: real, y: real)
    requires x >= 0.0 && y > 0.0
    ensures x / y >= 0.0
  {}

  function HistoryBudget(cost: FixedCost): Option<nat> {
    if cost.contextWindowTokens == 0 then None
    else
      var share := AtLeastZero(LeftOver(cost)) * HISTORY_BUDGET_FACTOR;
      QuotientIsPositive(share, Ratio(cost));
      Some((share / Ratio(cost)).Floor)
  }

  /** Dividing by a positive ratio and flooring is the largest count whose product stays within. */
  lemma FloorOfQuotient(used: nat, share: real, ratio: real)
    requires share >= 0.0 && ratio > 0.0
    ensures used <= (share / ratio).Floor <==> used as real * ratio <= share
  {
    var q := share / ratio;
    assert q * ratio == share;
    if used as real <= q {
      assert used as real * ratio <= q * ratio;
    } else {
      assert used as real * ratio > q * ratio;
    }
  }

  /** The budget is exactly the most history that stays within nine tenths of what the fixed costs leave. */
  lemma BudgetIsTheMostThatFits(cost: FixedCost, used: nat)
    requires HistoryBudget(cost).Some?
    ensures used <= HistoryBudget(cost).value <==>
      used as real * Ratio(cost) <= HISTORY_BUDGET_FACTOR * AtLeastZero(LeftOver(cost))
  {
    FloorOfQuotient(used, AtLeastZero(LeftOver(cost)) * HISTORY_BUDGET_FACTOR, Ratio(cost));
  }

  /** Prompt and history, scaled to the provider's tokens, fit the window with the completion. */
  ghost predicate Fits(cost: FixedCost, used: nat) {
    (cost.promptTokens + used) as real * Ratio(cost) + cost.maxOutputTokens as real <= cost.contextWindowTokens as real
  }

  /** Where the fixed costs fit the window, a history within budget fits beside them. */
  lemma WithinBudgetFits(cost: FixedCost, used: nat)
    requires HistoryBudget(cost).Some? && used <= HistoryBudget(cost).value && LeftOver(cost) >= 0.0
    ensures Fits(cost, used)
  {
    BudgetIsTheMostThatFits(cost, used);
    var prompt, history, ratio := cost.promptTokens as real, used as real, Ratio(cost);
    assert (prompt + history) * ratio == prompt * ratio + history * ratio;
  }

  // ------------------------------------------------------------- prices

  /** How rows are priced: the estimator over a message's body, the type table, and whether images are sent. */
  datatype Pricer = Pricer(estimate: ChatMessage -> nat, mimeFor: string -> string, images: bool)

  type Memo = map<string, nat>

  function AttachedTokens(pricer: Pricer, parts: seq<ContentPart>): nat {
    if parts == [] then 0
    else
      var first :=
        if parts[0].File? then
          Attachments.AttachmentTokens(pricer.mimeFor, parts[0].file,
              Attachments.DEFAULT_OPTIONS.(images := pricer.images))
        else 0;
      first + AttachedTokens(pricer, parts[1..])
  }

  function PriceOf(pricer: Pricer, message: ChatMessage): nat {
    pricer.estimate(message) + AttachedTokens(pricer, Attachments.PartsOf(message))
  }

  function PricesOf(pricer: Pricer, records: seq<Record>): (r: seq<nat>)
    ensures |r| == |records|
  {
    if records == [] then [] else [PriceOf(pricer, records[0].message)] + PricesOf(pricer, records[1..])
  }

  /** One row's price by the memo, which keeps what it is first asked about an id. */
  function Recall(pricer: Pricer, memo: Memo, record: Record): nat {
    if record.id in memo then memo[record.id] else PriceOf(pricer, record.message)
  }

  /** Every row's price, and the memo afterwards. */
  function Priced(pricer: Pricer, memo: Memo, records: seq<Record>): (r: (seq<nat>, Memo))
    ensures |r.0| == |records|
    decreases |records|
  {
    if records == [] then ([], memo)
    else
      var first := Recall(pricer, memo, records[0]);
      var (rest, after) := Priced(pricer, memo[records[0].id := first], records[1..]);
      ([first] + rest, after)
  }

  /** A stored row never changes: an id names one message. */
  ghost predicate OneRowPerId(rows: set<Record>) {
    forall a, b :: a in rows && b in rows && a.id == b.id ==> a.message == b.message
  }

  ghost predicate Faithful(pricer: Pricer, memo: Memo, rows: set<Record>) {
    forall row :: row in rows && row.id in memo ==> memo[row.id] == PriceOf(pricer, row.message)
  }

  /** While ids name one row each, the memo changes no price, over any number of calls. */
  lemma {:induction false} MemoIsTransparent(pricer: Pricer, memo: Memo, records: seq<Record>, rows: set<Record>)
    requires OneRowPerId(rows) && Faithful(pricer, memo, rows) && forall record :: record in records ==> record in rows
    ensures Priced(pricer, memo, records).0 == PricesOf(pricer, records)
    ensures Faithful(pricer, Priced(pricer, memo, records).1, rows)
    decreases |records|
  {
    if records != [] {
      var record := records[0];
      assert record in records;
      MemoIsTransparent(pricer, memo[record.id := Recall(pricer, memo, record)], records[1..], rows);
    }
  }

  class RowPrices {
    const pricer: Pricer
    var byId: Memo

    constructor (pricer: Pricer)
      ensures this.pricer == pricer && byId == map[]
    {
      this.pricer, byId := pricer, map[];
    }

    method Of(record: Record) returns (tokens: nat)
      modifies this
      ensures tokens == Recall(pricer, old(byId), record) && byId == old(byId)[record.id := tokens]
    {
      if record.id in byId {
        assert byId == byId[record.id := byId[record.id]];
        return byId[record.id];
      }
      var attached := 0;
      var parts := Attachments.PartsOf(record.message);
      var i := 0;
      assert parts[0..] == parts;
      while i < |parts|
        invariant 0 <= i <= |parts|
        invariant attached + AttachedTokens(pricer, parts[i..]) == AttachedTokens(pricer, parts)
      {
        assert parts[i..][1..] == parts[i + 1..];
        if parts[i].File? {
          var options := Attachments.DEFAULT_OPTIONS.(images := pricer.images);
          attached := attached + Attachments.AttachmentTokens(pricer.mimeFor, parts[i].file, options);
        }
        i := i + 1;
      }
      tokens := pricer.estimate(record.message) + attached;
      byId := byId[record.id := tokens];
    }

    method OfAll(records: seq<Record>) returns (sizes: seq<nat>)
      modifies this
      ensures (sizes, byId) == Priced(pricer, old(byId), records)
    {
      sizes := [];
      var i := 0;
      ghost var whole := Priced(pricer, byId, records);
      assert records[0..] == records && [] + whole.0 == whole.0;
      while i < |records|
        invariant 0 <= i <= |records|
        invariant var rest := Priced(pricer, byId, records[i..]); whole == (sizes + rest.0, rest.1)
      {
        assert records[i..][1..] == records[i + 1..];
        ghost var before := byId;
        var size := Of(records[i]);
        ghost var rest := Priced(pricer, byId, records[i + 1..]);
        assert Priced(pricer, before, records[i..]) == ([size] + rest.0, rest.1);
        assert sizes + ([size] + rest.0) == (sizes + [size]) + rest.0;
        sizes := sizes + [size];
        i := i + 1;
      }
      assert records[i..] == [] && sizes + [] == sizes;
    }
  }

  // ------------------------------------------------------------- the cut

  function Sum(sizes: seq<nat>): nat {
    if sizes == [] then 0 else sizes[0] + Sum(sizes[1..])
  }

  /** Where the window may start: a user row of no turn, or with no row of its turn before it. */
  predicate OpensTurn(records: seq<Record>, index: nat)
    requires index < |records|
  {
    && records[index].message.User?
    && (records[index].turnId.None? || index == 0 || records[index - 1].turnId != records[index].turnId)
  }

  /** The first turn opening from `from` on that fits with everything after it, or `floor`. */
  function LeastCut(records: seq<Record>, sizes: seq<nat>, from: nat, floor: nat, budget: nat): (r: nat)
    requires from <= floor <= |records| == |sizes|
    ensures from <= r <= floor
    decreases floor - from
  {
    if from == floor then floor
    else if OpensTurn(records, from) && Sum(sizes[from..]) <= budget then from
    else LeastCut(records, sizes, from + 1, floor, budget)
  }

  lemma SumFrom(sizes: seq<nat>, i: nat)
    requires i < |sizes|
    ensures Sum(sizes[i..]) == sizes[i] + Sum(sizes[i + 1..])
  {
    assert sizes[i..][1..] == sizes[i + 1..];
  }

  lemma {:induction false} LongerCostsMore(sizes: seq<nat>, i: nat, j: nat)
    requires i <= j <= |sizes|
    ensures Sum(sizes[j..]) <= Sum(sizes[i..])
    decreases j - i
  {
    if i < j {
      SumFrom(sizes, i);
      LongerCostsMore(sizes, i + 1, j);
    }
  }

  /** Where the suffix from `index` is over budget, nothing up to it is a cut. */
  lemma {:induction false} NothingFitsBefore(records: seq<Record>, sizes: seq<nat>, from: nat, index: nat,
        floor: nat, budget: nat)
    requires from <= index < floor <= |records| == |sizes| && Sum(sizes[index..]) > budget
    ensures LeastCut(records, sizes, from, floor, budget) == LeastCut(records, sizes, index + 1, floor, budget)
    decreases index - from
  {
    LongerCostsMore(sizes, from, index);
    if from < index {
      NothingFitsBefore(records, sizes, from + 1, index, floor, budget);
    }
  }

  /** The greedy walk back from the newest row finds the least cut. */
  method WalkBack(records: seq<Record>, sizes: seq<nat>, floor: nat, budget: nat) returns (start: nat)
    requires floor <= |records| == |sizes|
    ensures start == LeastCut(records, sizes, 0, floor, budget)
  {
    var used := SumOf(sizes, floor);
    start := floor;
    var index := floor;
    while index > 0
      invariant 0 <= index <= floor && used == Sum(sizes[index..])
      invariant start == LeastCut(records, sizes, index, floor, budget)
    {
      index := index - 1;
      SumFrom(sizes, index);
      used := used + sizes[index];
      if used > budget {
        NothingFitsBefore(records, sizes, 0, index, floor, budget);
        return;
      }
      if OpensTurn(records, index) {
        start := index;
      }
    }
  }

  method SumOf(sizes: seq<nat>, from: nat) returns (total: nat)
    requires from <= |sizes|
    ensures total == Sum(sizes[from..])
  {
    total := 0;
    var i := |sizes|;
    while i > from
      invariant from <= i <= |sizes| && total == Sum(sizes[i..])
    {
      i := i - 1;
      SumFrom(sizes, i);
      total := total + sizes[i];
    }
  }

  /** The least turn opening before `floor` that fits, else `floor`: every earlier turn opening is over budget. */
  lemma {:induction false} LeastCutIsOptimal(records: seq<Record>, sizes: seq<nat>, from: nat, floor: nat, budget: nat)
    requires from <= floor <= |records| == |sizes|
    ensures var cut := LeastCut(records, sizes, from, floor, budget);
      && (cut == floor || (OpensTurn(records, cut) && Sum(sizes[cut..]) <= budget))
      && forall i: nat :: from <= i < cut && OpensTurn(records, i) ==> Sum(sizes[i..]) > budget
    decreases floor - from
  {
    if from < floor && !(OpensTurn(records, from) && Sum(sizes[from..]) <= budget) {
      LeastCutIsOptimal(records, sizes, from + 1, floor, budget);
    }
  }

  /** A larger budget never keeps less. */
  lemma CutIsMonotone(records: seq<Record>, sizes: seq<nat>, floor: nat, budget: nat, larger: nat)
    requires floor <= |records| == |sizes| && budget <= larger
    ensures LeastCut(records, sizes, 0, floor, larger) <= LeastCut(records, sizes, 0, floor, budget)
  {
    LeastCutIsOptimal(records, sizes, 0, floor, budget);
    LeastCutIsOptimal(records, sizes, 0, floor, larger);
  }

  ghost predicate Contiguous(records: seq<Record>, turn: string) {
    forall i, j, k :: 0 <= i < j < k < |records| && records[i].turnId == records[k].turnId == Some(turn) ==>
      records[j].turnId == Some(turn)
  }

  /** A turn whose rows lie together is kept whole or dropped whole. */
  lemma TurnsAreKeptWhole(records: seq<Record>, sizes: seq<nat>, floor: nat, budget: nat, turn: string, i: nat, k: nat)
    requires floor <= |records| == |sizes| && Contiguous(records, turn)
    requires floor == |records| || OpensTurn(records, floor)
    requires i < |records| && k < |records| && records[i].turnId == records[k].turnId == Some(turn)
    ensures var cut := LeastCut(records, sizes, 0, floor, budget); i < cut <==> k < cut
  {
    var cut := LeastCut(records, sizes, 0, floor, budget);
    LeastCutIsOptimal(records, sizes, 0, floor, budget);
    if cut < |records| && cut > 0 {
      assert OpensTurn(records, cut);
      assert !(records[cut - 1].turnId == records[cut].turnId == Some(turn));
    }
  }

  /** What is kept is within budget exactly when the turn being answered is. */
  lemma CutFitsIff(records: seq<Record>, sizes: seq<nat>, floor: nat, budget: nat)
    requires floor <= |records| == |sizes|
    ensures Sum(sizes[LeastCut(records, sizes, 0, floor, budget)..]) <= budget <==> Sum(sizes[floor..]) <= budget
  {
    var cut := LeastCut(records, sizes, 0, floor, budget);
    LeastCutIsOptimal(records, sizes, 0, floor, budget);
    LongerCostsMore(sizes, cut, floor);
  }

  // ------------------------------------------------------------- the window

  /** Where older turns end: the opening row, past the end for a turn not stored yet, `None` when it is not here. */
  function FloorOf(records: seq<Record>, openingSeq: Option<int>): (r: Option<nat>)
    ensures r.Some? ==> r.value <= |records|
  {
    match openingSeq
    case None => Some(|records|)
    case Some(sequence) => Position(records, (record: Record) => record.sequence == sequence)
  }

  /** A cut of zero keeps everything; any other is followed by the trim to a legal start. */
  function Trimmed(records: seq<Record>, cut: nat): (r: nat)
    requires cut <= |records|
    ensures cut <= r <= |records|
  {
    if cut == 0 then 0 else cut + History.LegalStart(MessagesOf(records[cut..]))
  }

  function TokenWindow(pricer: Pricer, memo: Memo, records: seq<Record>, openingSeq: Option<int>,
        budget: nat): (r: (nat, Memo))
    ensures r.0 <= |records|
  {
    match FloorOf(records, openingSeq)
    case None => (0, memo)
    case Some(floor) =>
      var (sizes, after) := Priced(pricer, memo, records);
      (Trimmed(records, LeastCut(records, sizes, 0, floor, budget)), after)
  }

  /** The newest `cap` rows (0 keeps all), from their first user message if there is one. */
  function NewestFromUser(messages: seq<ChatMessage>, cap: nat): (r: nat)
    ensures r <= |messages| && (cap > 0 ==> |messages| - r <= cap)
  {
    var newest := if cap > 0 && |messages| > cap then |messages| - cap else 0;
    match Position(messages[newest..], (message: ChatMessage) => message.User?)
    case None => newest
    case Some(first) => newest + first
  }

  function HistoryWindowStart(messages: seq<ChatMessage>, cap: nat): (r: nat)
    ensures r <= |messages|
  {
    var start := NewestFromUser(messages, cap);
    start + History.LegalStart(messages[start..])
  }

  method FindHistoryWindowStart(messages: seq<ChatMessage>, cap: nat) returns (start: nat)
    ensures start == HistoryWindowStart(messages, cap)
  {
    start := 0;
    if cap > 0 && |messages| > cap {
      start := |messages| - cap;
    }
    var first := Position(messages[start..], (message: ChatMessage) => message.User?);
    if first.Some? && first.value > 0 {
      start := start + first.value;
    }
    var trim := History.FindLegalStart(messages[start..]);
    start := start + trim;
  }

  method TokenWindowStart(records: seq<Record>, openingSeq: Option<int>, budget: nat,
        prices: RowPrices) returns (start: nat)
    modifies prices
    ensures (start, prices.byId) == TokenWindow(prices.pricer, old(prices.byId), records, openingSeq, budget)
  {
    var floor := |records|;
    if openingSeq.Some? {
      var found := Position(records, (record: Record) => record.sequence == openingSeq.value);
      if found.None? {
        return 0;
      }
      floor := found.value;
    }
    assert FloorOf(records, openingSeq) == Some(floor);
    var sizes := prices.OfAll(records);
    start := WalkBack(records, sizes, floor, budget);
    if start == 0 {
      return;
    }
    var trim := History.FindLegalStart(MessagesOf(records[start..]));
    start := start + trim;
  }

  /** The rows a request carries, whether the budget dropped any, and the memo afterwards. */
  function Windowed(pricer: Pricer, memo: Memo, records: seq<Record>, openingSeq: Option<int>,
        budget: Option<nat>): (seq<Record>, bool, Memo) {
    var capped := records[HistoryWindowStart(MessagesOf(records), DEFAULT_MAX_HISTORY_MESSAGES)..];
    match budget
    case None => (capped, false, memo)
    case Some(tokens) =>
      var (start, after) := TokenWindow(pricer, memo, capped, openingSeq, tokens);
      (capped[start..], start > 0, after)
  }

  method WindowRecords(records: seq<Record>, openingSeq: Option<int>, budget: Option<nat>, prices: RowPrices)
    returns (kept: seq<Record>, trimmed: bool)
    modifies prices
    ensures (kept, trimmed, prices.byId) == Windowed(prices.pricer, old(prices.byId), records, openingSeq, budget)
  {
    var first := FindHistoryWindowStart(MessagesOf(records), DEFAULT_MAX_HISTORY_MESSAGES);
    kept := records[first..];
    var start := 0;
    if budget.Some? {
      start := TokenWindowStart(kept, openingSeq, budget.value, prices);
    }
    kept := kept[start..];
    trimmed := start > 0;
  }

  // ------------------------------------------------------------- what a request carries

  /** The rest of a block of tool rows, then an answerable history: any suffix of an answerable one. */
  ghost predicate AnsweredAfter(rows: seq<ChatMessage>, tools: nat) {
    tools <= |rows| && (forall i :: 0 <= i < tools ==> rows[i].Tool?) && History.Answered(rows[tools..])
  }

  lemma {:induction false} SuffixOfAnswered(rows: seq<ChatMessage>, from: nat) returns (tools: nat)
    requires History.Answered(rows) && from <= |rows|
    ensures AnsweredAfter(rows[from..], tools)
    decreases |rows|
  {
    if from == 0 {
      tools := 0;
      assert rows[from..][0..] == rows;
    } else {
      var n := 1 + if rows[0].Assistant? then |rows[0].toolCalls| else 0;
      if from < n {
        tools := n - from;
        assert forall i :: 0 <= i < tools ==> rows[from..][i] == rows[1..n][from - 1 + i];
        assert rows[from..][tools..] == rows[n..];
      } else {
        tools := SuffixOfAnswered(rows[n..], from - n);
        assert rows[n..][from - n..] == rows[from..];
      }
    }
  }

  lemma {:induction false} ScanSkipsTools(rows: seq<ChatMessage>, tools: nat, index: nat)
    requires AnsweredAfter(rows, tools) && index <= tools
    ensures History.LegalStartFrom(rows, index, {}, index) == tools
    decreases tools - index
  {
    if index < tools {
      ScanSkipsTools(rows, tools, index + 1);
    } else {
      History.AnsweredIsLegal(rows[tools..], {}, {});
      History.ScanStaysPut(rows, tools, {}, tools);
    }
  }

  /**
   Wherever an answerable history is cut, trimming to a legal start drops just the tool rows the cut
   stranded and leaves an answerable history; a cut at a user message strands none.
   */
  lemma CutsOfAnsweredAreAnswered(rows: seq<ChatMessage>, from: nat)
    requires History.Answered(rows) && from <= |rows|
    ensures var start := from + History.LegalStart(rows[from..]);
      && History.Answered(rows[start..])
      && (forall i :: from <= i < start ==> rows[i].Tool?)
  {
    var tools := SuffixOfAnswered(rows, from);
    ScanSkipsTools(rows[from..], tools, 0);
    assert rows[from..][tools..] == rows[from + tools..];
    assert forall i :: from <= i < from + tools ==> rows[i] == rows[from..][i - from];
  }

  lemma MessagesOfSuffix(records: seq<Record>, from: nat)
    requires from <= |records|
    ensures MessagesOf(records[from..]) == MessagesOf(records)[from..]
  {}

  lemma TrimLeavesNoOrphan(messages: seq<ChatMessage>, from: nat)
    requires from <= |messages|
    ensures !History.HasOrphan(messages[from + History.LegalStart(messages[from..])..], {})
  {
    var trim := History.LegalStart(messages[from..]);
    History.LegalStartIsLegal(messages[from..]);
    assert messages[from..][trim..] == messages[from + trim..];
  }

  /** Whatever is stored, the cap leaves at most `cap` rows and no result without its call. */
  lemma CapIsLegal(messages: seq<ChatMessage>, cap: nat)
    ensures var start := HistoryWindowStart(messages, cap);
      && !History.HasOrphan(messages[start..], {})
      && (cap > 0 ==> |messages| - start <= cap)
      && (History.Answered(messages) ==> History.Answered(messages[start..]))
  {
    var from := NewestFromUser(messages, cap);
    TrimLeavesNoOrphan(messages, from);
    if History.Answered(messages) {
      CutsOfAnsweredAreAnswered(messages, from);
    }
  }

  lemma TrimIsLegal(records: seq<Record>, cut: nat)
    requires cut <= |records| && !History.HasOrphan(MessagesOf(records), {})
    ensures !History.HasOrphan(MessagesOf(records[Trimmed(records, cut)..]), {})
    ensures History.Answered(MessagesOf(records)) ==>
      History.Answered(MessagesOf(records[Trimmed(records, cut)..]))
      && forall i :: cut <= i < Trimmed(records, cut) ==> records[i].message.Tool?
  {
    var messages := MessagesOf(records);
    MessagesOfSuffix(records, cut);
    MessagesOfSuffix(records, Trimmed(records, cut));
    if cut == 0 {
      assert messages[0..] == messages;
    } else {
      TrimLeavesNoOrphan(messages, cut);
      if History.Answered(messages) {
        CutsOfAnsweredAreAnswered(messages, cut);
        assert forall i :: 0 <= i < |records| ==> messages[i] == records[i].message;
      }
    }
  }

  lemma TokenWindowIsLegal(pricer: Pricer, memo: Memo, records: seq<Record>, openingSeq: Option<int>, budget: nat)
    requires !History.HasOrphan(MessagesOf(records), {})
    ensures var start := TokenWindow(pricer, memo, records, openingSeq, budget).0;
      && !History.HasOrphan(MessagesOf(records[start..]), {})
      && (History.Answered(MessagesOf(records)) ==> History.Answered(MessagesOf(records[start..])))
  {
    var floor := FloorOf(records, openingSeq);
    if floor.Some? {
      TrimIsLegal(records, LeastCut(records, Priced(pricer, memo, records).0, 0, floor.value, budget));
    } else {
      assert records[0..] == records;
    }
  }

  /**
   Whatever is stored and whatever the budget, a request carries a suffix of the stored rows, at most 500
   of them, with no tool result whose call was cut away; and all of a turn loop's history that it
   carries stays answerable, every call with its result.
   */
  lemma RequestIsLegal(pricer: Pricer, memo: Memo, records: seq<Record>, openingSeq: Option<int>, budget: Option<nat>)
    ensures var kept := Windowed(pricer, memo, records, openingSeq, budget).0;
      && |kept| <= DEFAULT_MAX_HISTORY_MESSAGES && |kept| <= |records| && kept == records[|records| - |kept|..]
      && !History.HasOrphan(MessagesOf(kept), {})
      && (History.Answered(MessagesOf(records)) ==> History.Answered(MessagesOf(kept)))
  {
    var first := HistoryWindowStart(MessagesOf(records), DEFAULT_MAX_HISTORY_MESSAGES);
    CapIsLegal(MessagesOf(records), DEFAULT_MAX_HISTORY_MESSAGES);
    MessagesOfSuffix(records, first);
    if budget.Some? {
      TokenWindowIsLegal(pricer, memo, records[first..], openingSeq, budget.value);
    }
  }

  /**
   On a turn loop's history, cutting costs nothing but whole older turns: the window starts at the least
   cut itself, and the turn being answered, which its user message opens, is in it whole.
   */
  lemma TheTurnIsKept(pricer: Pricer, memo: Memo, records: seq<Record>, openingSeq: Option<int>, budget: nat)
    requires History.Answered(MessagesOf(records)) && FloorOf(records, openingSeq).Some?
    requires var floor := FloorOf(records, openingSeq).value; floor == |records| || records[floor].message.User?
    ensures var floor := FloorOf(records, openingSeq).value;
      var sizes := Priced(pricer, memo, records).0;
      TokenWindow(pricer, memo, records, openingSeq, budget).0 == LeastCut(records, sizes, 0, floor, budget) <= floor
  {
    var floor := FloorOf(records, openingSeq).value;
    var sizes := Priced(pricer, memo, records).0;
    var cut := LeastCut(records, sizes, 0, floor, budget);
    LeastCutIsOptimal(records, sizes, 0, floor, budget);
    History.AnsweredIsLegal(MessagesOf(records), {}, {});
    TrimIsLegal(records, cut);
  }

  lemma KeptIsWithinBudget(pricer: Pricer, memo: Memo, records: seq<Record>, openingSeq: Option<int>, budget: nat,
        rows: set<Record>)
    requires OneRowPerId(rows) && Faithful(pricer, memo, rows) && forall record :: record in records ==> record in rows
    requires FloorOf(records, openingSeq).Some?
    requires Sum(PricesOf(pricer, records)[FloorOf(records, openingSeq).value..]) <= budget
    ensures Sum(PricesOf(pricer, records)[TokenWindow(pricer, memo, records, openingSeq, budget).0..]) <= budget
  {
    var floor := FloorOf(records, openingSeq).value;
    var sizes := PricesOf(pricer, records);
    MemoIsTransparent(pricer, memo, records, rows);
    CutFitsIff(records, sizes, floor, budget);
    LongerCostsMore(sizes, LeastCut(records, sizes, 0, floor, budget),
        TokenWindow(pricer, memo, records, openingSeq, budget).0);
  }

  /**
   With a faithful memo and a turn that fits on its own, the whole request fits the context window: the
   prompt and the history it carries, scaled, and the completion.
   */
  lemma RequestFits(pricer: Pricer, memo: Memo, cost: FixedCost, records: seq<Record>, openingSeq: Option<int>,
        rows: set<Record>)
    requires OneRowPerId(rows) && Faithful(pricer, memo, rows) && forall record :: record in records ==> record in rows
    requires HistoryBudget(cost).Some? && LeftOver(cost) >= 0.0 && FloorOf(records, openingSeq).Some?
    requires Sum(PricesOf(pricer, records)[FloorOf(records, openingSeq).value..]) <= HistoryBudget(cost).value
    ensures var start := TokenWindow(pricer, memo, records, openingSeq, HistoryBudget(cost).value).0;
      Fits(cost, Sum(PricesOf(pricer, records)[start..]))
  {
    var budget := HistoryBudget(cost).value;
    KeptIsWithinBudget(pricer, memo, records, openingSeq, budget, rows);
    var start := TokenWindow(pricer, memo, records, openingSeq, budget).0;
    WithinBudgetFits(cost, Sum(PricesOf(pricer, records)[start..]));
  }
}
