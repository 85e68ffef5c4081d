/**
 Which rows a request carries (crates/agent/src/history_window.rs, crates/core/src/history.rs), by their places in
 the stored history: stated on the rows, the budget and the prices, for every history.
 */
module WindowRows {
  import opened Common
  import opened Messages
  import opened HistoryWindow
  import Attachments
  import History

  // ------------------------------------------------------------- results with their calls

  predicate DeclaresCall(message: ChatMessage, id: string) {
    message.Assistant? && exists call :: call in message.toolCalls && call.id == id
  }

  /** A tool result at `i` follows, from `from` on, an assistant row that declared its call. */
  predicate FollowsItsCall(messages: seq<ChatMessage>, from: nat, i: nat)
    requires from <= i < |messages|
  {
    messages[i].Tool? ==> exists j :: from <= j < i && DeclaresCall(messages[j], messages[i].callId)
  }

  /** From `from` on, every tool result follows its call. */
  ghost predicate Clean(messages: seq<ChatMessage>, from: nat) {
    forall i :: from <= i < |messages| ==> FollowsItsCall(messages, from, i)
  }

  /** The first place, from `from` on, that leaves no result without its call. */
  ghost predicate FirstClean(messages: seq<ChatMessage>, from: nat, start: nat) {
    && from <= start <= |messages| && Clean(messages, start)
    && forall s: nat :: from <= s < start ==> !Clean(messages, s)
  }

  /** Where the scan stands: what was declared since `start`, all clean so far, and nothing before `start` will do. */
  ghost predicate Scanned(messages: seq<ChatMessage>, index: nat, declared: set<string>, start: nat) {
    && start <= index <= |messages|
    && (forall id :: id in declared <==> exists j :: start <= j < index && DeclaresCall(messages[j], id))
    && (forall i :: start <= i < index ==> FollowsItsCall(messages, start, i))
    && (forall s: nat :: s < start ==> !Clean(messages, s))
  }

  /** A result that follows no call of its own from `start` on follows none from later either. */
  lemma OrphanSpoils(messages: seq<ChatMessage>, index: nat, declared: set<string>, start: nat)
    requires Scanned(messages, index, declared, start) && index < |messages|
    requires History.Orphaned(messages[index], declared)
    ensures Scanned(messages, index + 1, {}, index + 1)
  {
    forall s: nat | s < index + 1 ensures !Clean(messages, s) {
      if s >= start {
        assert !FollowsItsCall(messages, s, index);
      }
    }
  }

  lemma DeclaredNext(messages: seq<ChatMessage>, index: nat, declared: set<string>, start: nat)
    requires Scanned(messages, index, declared, start) && index < |messages|
    requires !History.Orphaned(messages[index], declared)
    ensures Scanned(messages, index + 1, History.Declares(messages[index], declared), start)
  {
    var next := History.Declares(messages[index], declared);
    forall id ensures id in next <==> id in declared || DeclaresCall(messages[index], id) {}
    assert FollowsItsCall(messages, start, index);
  }

  lemma {:induction false} ScanFindsFirst(messages: seq<ChatMessage>, index: nat, declared: set<string>, start: nat)
    requires Scanned(messages, index, declared, start)
    ensures FirstClean(messages, 0, History.LegalStartFrom(messages, index, declared, start))
    decreases |messages| - index
  {
    if index < |messages| {
      if History.Orphaned(messages[index], declared) {
        OrphanSpoils(messages, index, declared, start);
        ScanFindsFirst(messages, index + 1, {}, index + 1);
      } else {
        DeclaredNext(messages, index, declared, start);
        ScanFindsFirst(messages, index + 1, History.Declares(messages[index], declared), start);
      }
    }
  }

  lemma CleanFrom(messages: seq<ChatMessage>, from: nat, start: nat)
    requires from + start <= |messages|
    ensures Clean(messages[from..], start) <==> Clean(messages, from + start)
  {
    var rows := messages[from..];
    forall i | start <= i < |rows|
      ensures FollowsItsCall(rows, start, i) <==> FollowsItsCall(messages, from + start, from + i)
    {
      if FollowsItsCall(messages, from + start, from + i) && rows[i].Tool? {
        var j :| from + start <= j < from + i && DeclaresCall(messages[j], rows[i].callId);
        assert DeclaresCall(rows[j - from], rows[i].callId);
      }
      if FollowsItsCall(rows, start, i) && rows[i].Tool? {
        var j :| start <= j < i && DeclaresCall(rows[j], rows[i].callId);
        assert DeclaresCall(messages[from + j], rows[i].callId);
      }
    }
    if Clean(rows, start) {
      var to := from + start;
      forall i | to <= i < |messages| ensures FollowsItsCall(messages, to, i) {
        assert FollowsItsCall(rows, start, i - from);
      }
    }
  }

  /**
   The trim to a legal start gives up no row it could keep: it starts at the first place from which every tool
   result follows its call.
   */
  lemma LegalStartIsFirst(messages: seq<ChatMessage>, from: nat)
    requires from <= |messages|
    ensures FirstClean(messages, from, from + History.LegalStart(messages[from..]))
  {
    var rows := messages[from..];
    ScanFindsFirst(rows, 0, {}, 0);
    var start := History.LegalStart(rows);
    CleanFrom(messages, from, start);
    forall s: nat | from <= s < from + start ensures !Clean(messages, s) {
      CleanFrom(messages, from, s - from);
    }
  }

  /** A history has no orphan exactly when every tool result follows its call. */
  lemma NoOrphanIsClean(messages: seq<ChatMessage>)
    ensures !History.HasOrphan(messages, {}) <==> Clean(messages, 0)
  {
    History.LegalStartIsLegal(messages);
    LegalStartIsFirst(messages, 0);
    assert messages[0..] == messages;
  }

  // ------------------------------------------------------------- the newest rows

  /** The newest `cap` rows, all of them when it is 0, from the first of them that a user wrote. */
  ghost predicate NewestRows(messages: seq<ChatMessage>, cap: nat, start: nat) {
    var newest := if cap > 0 && |messages| > cap then |messages| - cap else 0;
    && newest <= start <= |messages|
    && (forall i :: newest <= i < start ==> !messages[i].User?)
    && (if exists i :: newest <= i < |messages| && messages[i].User? then start < |messages| && messages[start].User?
        else start == newest)
  }

  ghost predicate CappedAt(messages: seq<ChatMessage>, cap: nat, start: nat) {
    exists from :: NewestRows(messages, cap, from) && FirstClean(messages, from, start)
  }

  lemma NewestIs(messages: seq<ChatMessage>, cap: nat)
    ensures NewestRows(messages, cap, NewestFromUser(messages, cap))
  {
    var newest := if cap > 0 && |messages| > cap then |messages| - cap else 0;
    var rows := messages[newest..];
    match Position(rows, (message: ChatMessage) => message.User?)
    case None =>
      forall i | newest <= i < |messages| ensures !messages[i].User? {
        assert messages[i] in rows;
      }
    case Some(first) =>
      assert messages[newest + first].User?;
      forall i | newest <= i < newest + first ensures !messages[i].User? {
        assert messages[i] == rows[i - newest];
      }
  }

  /** The cap keeps the newest rows, from a user's on, and drops of those only what the cut stranded. */
  lemma CapKeeps(messages: seq<ChatMessage>, cap: nat)
    ensures CappedAt(messages, cap, HistoryWindowStart(messages, cap))
  {
    var from := NewestFromUser(messages, cap);
    NewestIs(messages, cap);
    LegalStartIsFirst(messages, from);
    assert NewestRows(messages, cap, from) && FirstClean(messages, from, HistoryWindowStart(messages, cap));
  }

  // ------------------------------------------------------------- the rows within the budget

  /** What the rows from `i` on cost together. */
  function Cost(prices: seq<nat>, i: nat): nat
    requires i <= |prices|
    decreases |prices| - i
  {
    if i == |prices| then 0 else prices[i] + Cost(prices, i + 1)
  }

  lemma {:induction false} CostIsSum(prices: seq<nat>, i: nat)
    requires i <= |prices|
    ensures Cost(prices, i) == Sum(prices[i..])
    decreases |prices| - i
  {
    if i < |prices| {
      SumFrom(prices, i);
      CostIsSum(prices, i + 1);
    }
  }

  /** A user's row that begins a turn: none of its own turn is before it. */
  predicate BeginsTurn(records: seq<Record>, i: nat)
    requires i < |records|
  {
    records[i].message.User? &&
    (records[i].turnId == None || i == 0 || records[i - 1].turnId != records[i].turnId)
  }

  /** The turn being answered begins at `floor`: the row stored as `opening`, or past the end while there is none. */
  predicate AnsweredAt(records: seq<Record>, opening: Option<int>, floor: nat) {
    if opening.None? then floor == |records|
    else
      && floor < |records| && records[floor].sequence == opening.value
      && forall i :: 0 <= i < floor ==> records[i].sequence != opening.value
  }

  /** The first turn that fits the budget with all that follows it, or the one being answered when none before does. */
  ghost predicate CutAt(records: seq<Record>, prices: seq<nat>, floor: nat, budget: nat, cut: nat)
    requires floor <= |records| == |prices|
  {
    && cut <= floor
    && (cut < floor ==> BeginsTurn(records, cut) && Cost(prices, cut) <= budget)
    && forall i: nat :: i < cut && BeginsTurn(records, i) ==> Cost(prices, i) > budget
  }

  /** A cut at the very front is none; any other gives up what it stranded. */
  ghost predicate StartsAt(records: seq<Record>, cut: nat, start: nat) {
    if cut == 0 then start == 0 else FirstClean(MessagesOf(records), cut, start)
  }

  /** Where the budget lets history start: at the front when the turn being answered is not among the rows. */
  ghost predicate BudgetedAt(records: seq<Record>, prices: seq<nat>, opening: Option<int>, budget: nat, start: nat)
    requires |records| == |prices|
  {
    if forall floor: nat :: floor <= |records| ==> !AnsweredAt(records, opening, floor) then start == 0
    else exists floor: nat, cut: nat :: floor <= |records| && AnsweredAt(records, opening, floor)
           && CutAt(records, prices, floor, budget, cut) && StartsAt(records, cut, start)
  }

  lemma FloorIs(records: seq<Record>, opening: Option<int>, floor: nat)
    requires floor <= |records|
    ensures AnsweredAt(records, opening, floor) <==> FloorOf(records, opening) == Some(floor)
  {
    if opening.Some? {
      if FloorOf(records, opening).None? && floor < |records| {
        assert records[floor] in records;
        assert !((record: Record) => record.sequence == opening.value)(records[floor]);
      }
    }
  }

  lemma CutIs(records: seq<Record>, prices: seq<nat>, floor: nat, budget: nat)
    requires floor <= |records| == |prices|
    ensures CutAt(records, prices, floor, budget, LeastCut(records, prices, 0, floor, budget))
  {
    var cut := LeastCut(records, prices, 0, floor, budget);
    LeastCutIsOptimal(records, prices, 0, floor, budget);
    CostIsSum(prices, cut);
    forall i: nat | i < cut && BeginsTurn(records, i) ensures Cost(prices, i) > budget {
      assert OpensTurn(records, i);
      CostIsSum(prices, i);
    }
  }

  lemma StartIs(records: seq<Record>, cut: nat)
    requires cut <= |records|
    ensures StartsAt(records, cut, Trimmed(records, cut))
  {
    MessagesOfSuffix(records, cut);
    LegalStartIsFirst(MessagesOf(records), cut);
  }

  lemma BudgetKeeps(pricer: Pricer, memo: Memo, records: seq<Record>, opening: Option<int>, budget: nat)
    ensures BudgetedAt(records, Priced(pricer, memo, records).0, opening, budget,
        TokenWindow(pricer, memo, records, opening, budget).0)
  {
    var prices := Priced(pricer, memo, records).0;
    match FloorOf(records, opening)
    case None =>
      forall floor: nat | floor <= |records| ensures !AnsweredAt(records, opening, floor) {
        FloorIs(records, opening, floor);
      }
    case Some(floor) =>
      FloorIs(records, opening, floor);
      CutIs(records, prices, floor, budget);
      StartIs(records, LeastCut(records, prices, 0, floor, budget));
  }

  /**
   The rows a request carries, place by place: the newest 500 from a user's on; of those, when there is a budget,
   from the first turn that fits it with all that follows, and never past the turn being answered; and each time
   less only what the cut stranded. It reports a trim exactly when the budget dropped rows.
   */
  lemma TheRowsCarried(pricer: Pricer, memo: Memo, records: seq<Record>, opening: Option<int>, budget: Option<nat>)
    returns (capped: nat, start: nat)
    ensures capped <= |records| && CappedAt(MessagesOf(records), 500, capped)
    ensures var rows := records[capped..];
      var (kept, trimmed, after) := Windowed(pricer, memo, records, opening, budget);
      && start <= |rows| && kept == rows[start..] && (trimmed <==> start > 0)
      && (if budget.None? then start == 0
          else BudgetedAt(rows, Priced(pricer, memo, rows).0, opening, budget.value, start))
  {
    capped := HistoryWindowStart(MessagesOf(records), 500);
    CapKeeps(MessagesOf(records), 500);
    var rows := records[capped..];
    if budget.Some? {
      BudgetKeeps(pricer, memo, rows, opening, budget.value);
      start := TokenWindow(pricer, memo, rows, opening, budget.value).0;
    } else {
      start := 0;
      assert rows[0..] == rows;
    }
  }

  // ------------------------------------------------------------- prices

  /** What one attached file is priced at: an image that is shown, or the text of it, four bytes to a token. */
  predicate FileCosts(pricer: Pricer, file: FilePart, tokens: nat) {
    if file.sizeBytes.None? || file.sizeBytes == Some(0) then tokens == 0
    else
      var size := file.sizeBytes.value;
      var listed := pricer.mimeFor(file.path);
      var mimeType := if listed == "application/octet-stream" then file.mimeType else listed;
      if "image/" <= mimeType then tokens == if pricer.images && size <= 4_194_304 then 1800 else 0
      else if size <= 32_768 then 4 * (tokens - 1) < size <= 4 * tokens else tokens == 0
  }

  /** What each part of a row adds to its price. */
  ghost predicate PartsCost(pricer: Pricer, parts: seq<ContentPart>, tokens: seq<nat>) {
    && |tokens| == |parts|
    && forall i :: 0 <= i < |parts| ==>
         if parts[i].File? then FileCosts(pricer, parts[i].file, tokens[i]) else tokens[i] == 0
  }

  lemma {:induction false} CostOfTail(first: nat, rest: seq<nat>, i: nat)
    requires i <= |rest|
    ensures Cost([first] + rest, i + 1) == Cost(rest, i)
    decreases |rest| - i
  {
    if i < |rest| {
      CostOfTail(first, rest, i + 1);
    }
  }

  lemma {:induction false} PartsArePriced(pricer: Pricer, parts: seq<ContentPart>) returns (tokens: seq<nat>)
    ensures PartsCost(pricer, parts, tokens) && AttachedTokens(pricer, parts) == Cost(tokens, 0)
  {
    if parts == [] {
      tokens := [];
    } else {
      var rest := PartsArePriced(pricer, parts[1..]);
      var first := AttachedTokens(pricer, parts) - AttachedTokens(pricer, parts[1..]);
      tokens := [first] + rest;
      CostOfTail(first, rest, 0);
    }
  }

  /** A row costs what the estimator makes of it and what each file attached to it adds. */
  lemma RowCosts(pricer: Pricer, message: ChatMessage) returns (tokens: seq<nat>)
    ensures var parts := if message.User? || message.Assistant? then message.content else [];
      PartsCost(pricer, parts, tokens) && PriceOf(pricer, message) == pricer.estimate(message) + Cost(tokens, 0)
  {
    tokens := PartsArePriced(pricer, Attachments.PartsOf(message));
  }

  /** A price once given stands: what the memo has is used, what it has not is priced once, and nothing is forgotten. */
  lemma {:induction false} PricesStand(pricer: Pricer, memo: Memo, records: seq<Record>, i: nat)
    requires i < |records|
    ensures var (prices, after) := Priced(pricer, memo, records);
      var id := records[i].id;
      && (id in memo ==> prices[i] == memo[id])
      && (id !in memo ==>
            exists j: nat :: j <= i && records[j].id == id && prices[i] == PriceOf(pricer, records[j].message))
      && id in after && after[id] == prices[i]
      && (forall known :: known in memo ==> known in after && after[known] == memo[known])
    decreases |records|
  {
    var first := Recall(pricer, memo, records[0]);
    var next := memo[records[0].id := first];
    var (rest, after) := Priced(pricer, next, records[1..]);
    if i > 0 {
      PricesStand(pricer, next, records[1..], i - 1);
      var id := records[i].id;
      if id !in next {
        var j: nat :| j <= i - 1 && records[1..][j].id == id && rest[i - 1] == PriceOf(pricer, records[1..][j].message);
        assert records[j + 1].id == id;
      } else if id !in memo {
        assert records[0].id == id;
      }
    } else if |records| > 1 {
      NothingForgotten(pricer, next, records[1..]);
    }
  }

  lemma {:induction false} NothingForgotten(pricer: Pricer, memo: Memo, records: seq<Record>)
    ensures forall known :: known in memo ==>
      known in Priced(pricer, memo, records).1 && Priced(pricer, memo, records).1[known] == memo[known]
    decreases |records|
  {
    if records != [] {
      NothingForgotten(pricer, memo[records[0].id := Recall(pricer, memo, records[0])], records[1..]);
    }
  }

  // ------------------------------------------------------------- the budget

  /** Provider tokens to an estimated one: as measured, but never below three quarters; one before any measure. */
  predicate BelievedRatio(cost: FixedCost, ratio: real) {
    if cost.calibration.None? then ratio == 1.0
    else ratio >= 0.75 && ratio >= cost.calibration.value && (ratio == 0.75 || ratio == cost.calibration.value)
  }

  /** What `used` tokens of history come to at the provider, within nine tenths of what the fixed costs leave. */
  predicate WithinNineTenths(cost: FixedCost, ratio: real, used: nat) {
    var left := cost.contextWindowTokens as real - cost.promptTokens as real * ratio - cost.maxOutputTokens as real;
    used as real * ratio <= (if left < 0.0 then 0.0 else left) * 0.9
  }

  /** There is a budget exactly when the window has a size, and then it is the most history that fits. */
  lemma TheBudget(cost: FixedCost, ratio: real)
    requires BelievedRatio(cost, ratio)
    ensures HistoryBudget(cost).None? <==> cost.contextWindowTokens == 0
    ensures HistoryBudget(cost).Some? ==>
      forall used: nat :: used <= HistoryBudget(cost).value <==> WithinNineTenths(cost, ratio, used)
  {
    if HistoryBudget(cost).Some? {
      forall used: nat ensures used <= HistoryBudget(cost).value <==> WithinNineTenths(cost, ratio, used) {
        BudgetIsTheMostThatFits(cost, used);
      }
    }
  }
}
