/**
 Legal windows of stored history (crates/core/src/history.rs): where a window may start so that
 every tool result in it follows the assistant message that declared its call.
 */
module History {
  import opened Common
  import opened Messages

  function CallIds(calls: seq<ToolCall>): set<string> {
    set call | call in calls :: call.id
  }

  /** `declared` after one more message. */
  function Declares(message: ChatMessage, declared: set<string>): set<string> {
    if message.Assistant? then declared + CallIds(message.toolCalls) else declared
  }

  predicate Orphaned(message: ChatMessage, declared: set<string>) {
    message.Tool? && message.callId !in declared
  }

  /** Some tool result follows no assistant message that declared it. */
  predicate HasOrphan(messages: seq<ChatMessage>, declared: set<string>) {
    messages != [] &&
    (Orphaned(messages[0], declared) || HasOrphan(messages[1..], Declares(messages[0], declared)))
  }

  /** The declared calls no later tool result answers, `pending` of them before `messages`. */
  function Unanswered(messages: seq<ChatMessage>, pending: set<string>): set<string> {
    if messages == [] then pending
    else match messages[0]
      case Tool(id, _, _, _) => Unanswered(messages[1..], pending - {id})
      case _ => Unanswered(messages[1..], Declares(messages[0], pending))
  }

  /** The scan of `find_legal_start` from `index` on. */
  function LegalStartFrom(messages: seq<ChatMessage>, index: nat, declared: set<string>, start: nat): (r: nat)
    requires start <= index <= |messages|
    ensures start <= r <= |messages|
    decreases |messages| - index
  {
    if index == |messages| then start
    else if Orphaned(messages[index], declared) then LegalStartFrom(messages, index + 1, {}, index + 1)
    else LegalStartFrom(messages, index + 1, Declares(messages[index], declared), start)
  }

  function LegalStart(messages: seq<ChatMessage>): (r: nat)
    ensures r <= |messages|
  {
    LegalStartFrom(messages, 0, {}, 0)
  }

  method FindLegalStart(messages: seq<ChatMessage>) returns (start: nat)
    ensures start == LegalStart(messages)
  {
    var declared: set<string> := {};
    start := 0;
    for index := 0 to |messages|
      invariant start <= index
      invariant LegalStart(messages) == LegalStartFrom(messages, index, declared, start)
    {
      match messages[index]
      case Assistant(_, toolCalls, _) => declared := declared + CallIds(toolCalls);
      case Tool(id, _, _, _) =>
        if id !in declared {
          start := index + 1;
          declared := {};
        }
      case _ =>
    }
  }

  /** The rest of the scan ends where the window it leaves has no orphan. */
  lemma {:induction false} ScanLeavesNoOrphan(messages: seq<ChatMessage>, index: nat, declared: set<string>, start: nat)
    requires start <= index <= |messages|
    requires HasOrphan(messages[start..], {}) == HasOrphan(messages[index..], declared)
    ensures !HasOrphan(messages[LegalStartFrom(messages, index, declared, start)..], {})
    decreases |messages| - index
  {
    if index < |messages| {
      assert messages[index..][1..] == messages[index + 1..];
      if Orphaned(messages[index], declared) {
        ScanLeavesNoOrphan(messages, index + 1, {}, index + 1);
      } else {
        ScanLeavesNoOrphan(messages, index + 1, Declares(messages[index], declared), start);
      }
    }
  }

  lemma {:induction false} ScanStaysPut(messages: seq<ChatMessage>, index: nat, declared: set<string>, start: nat)
    requires start <= index <= |messages| && !HasOrphan(messages[index..], declared)
    ensures LegalStartFrom(messages, index, declared, start) == start
    decreases |messages| - index
  {
    if index < |messages| {
      assert messages[index..][1..] == messages[index + 1..];
      ScanStaysPut(messages, index + 1, Declares(messages[index], declared), start);
    }
  }

  /** The cut never leaves an orphan behind, is zero exactly on legal histories, and is idempotent. */
  lemma LegalStartIsLegal(messages: seq<ChatMessage>)
    ensures var start := LegalStart(messages);
      && !HasOrphan(messages[start..], {})
      && (start == 0 <==> !HasOrphan(messages, {}))
      && LegalStart(messages[start..]) == 0
  {
    var start := LegalStart(messages);
    ScanLeavesNoOrphan(messages, 0, {}, 0);
    assert messages[0..] == messages;
    if !HasOrphan(messages, {}) {
      ScanStaysPut(messages, 0, {}, 0);
    }
    assert messages[start..][0..] == messages[start..];
    ScanStaysPut(messages[start..], 0, {}, 0);
  }

  // ------------------------------------------------------------- answerable histories

  predicate Answers(rows: seq<ChatMessage>, calls: seq<ToolCall>) {
    |rows| == |calls| &&
    forall i :: 0 <= i < |rows| ==> rows[i].Tool? && rows[i].callId == calls[i].id && rows[i].name == calls[i].name
  }

  /** Each assistant row is followed at once by exactly its tool rows, in call order, and no other tool row exists. */
  predicate Answered(rows: seq<ChatMessage>)
    decreases |rows|
  {
    if rows == [] then true
    else match rows[0]
      case System(_) => Answered(rows[1..])
      case User(_) => Answered(rows[1..])
      case Tool(_, _, _, _) => false
      case Assistant(_, calls, _) =>
        |rows| > |calls| && Answers(rows[1..1 + |calls|], calls) && Answered(rows[1 + |calls|..])
  }

  lemma {:induction false} AnsweredConcat(a: seq<ChatMessage>, b: seq<ChatMessage>)
    requires Answered(a) && Answered(b)
    ensures Answered(a + b)
    decreases |a|
  {
    if a == [] {
      assert a + b == b;
    } else {
      var n := if a[0].Assistant? then |a[0].toolCalls| else 0;
      AnsweredConcat(a[1 + n..], b);
      BlockStays(a, b, n);
    }
  }

  lemma BlockStays(a: seq<ChatMessage>, b: seq<ChatMessage>, n: nat)
    requires n < |a|
    ensures (a + b)[0] == a[0] && (a + b)[1..1 + n] == a[1..1 + n] && (a + b)[1 + n..] == a[1 + n..] + b
    ensures (a + b)[1..] == a[1..] + b
  {}

  /** A block of tool rows declared just before it holds no orphan. */
  lemma {:induction false} ToolRowsAreDeclared(rows: seq<ChatMessage>, calls: seq<ToolCall>, declared: set<string>)
    requires |calls| <= |rows| && Answers(rows[..|calls|], calls) && CallIds(calls) <= declared
    ensures HasOrphan(rows, declared) == HasOrphan(rows[|calls|..], declared)
    decreases |calls|
  {
    if calls != [] {
      assert rows[0] == rows[..|calls|][0] && calls[0].id in CallIds(calls);
      assert rows[1..][..|calls[1..]|] == rows[..|calls|][1..];
      assert rows[1..][|calls[1..]|..] == rows[|calls|..];
      ToolRowsAreDeclared(rows[1..], calls[1..], declared);
    }
  }

  /** Reading a block of tool rows takes its calls' ids out of what is pending. */
  lemma {:induction false} ToolRowsSettle(rows: seq<ChatMessage>, calls: seq<ToolCall>, open: set<string>,
        pending: set<string>)
    returns (rest: set<string>)
    requires |calls| <= |rows| && Answers(rows[..|calls|], calls) && open <= pending + CallIds(calls)
    ensures rest <= pending && Unanswered(rows, open) == Unanswered(rows[|calls|..], rest)
    decreases |calls|
  {
    if calls == [] {
      assert rows[0..] == rows;
      rest := open;
    } else {
      assert rows[0] == rows[..|calls|][0];
      assert rows[1..][..|calls[1..]|] == rows[..|calls|][1..];
      assert rows[1..][|calls[1..]|..] == rows[|calls|..];
      assert calls == [calls[0]] + calls[1..];
      rest := ToolRowsSettle(rows[1..], calls[1..], open - {calls[0].id}, pending);
    }
  }

  /** A provider accepts an answerable history: no result without its call, no call without its result. */
  lemma {:induction false} AnsweredIsLegal(rows: seq<ChatMessage>, declared: set<string>, pending: set<string>)
    requires Answered(rows)
    ensures !HasOrphan(rows, declared) && Unanswered(rows, pending) <= pending
    decreases |rows|
  {
    if rows != [] {
      if rows[0].Assistant? {
        var calls := rows[0].toolCalls;
        assert rows[1..][..|calls|] == rows[1..1 + |calls|];
        assert rows[1..][|calls|..] == rows[1 + |calls|..];
        ToolRowsAreDeclared(rows[1..], calls, declared + CallIds(calls));
        var rest := ToolRowsSettle(rows[1..], calls, pending + CallIds(calls), pending);
        AnsweredIsLegal(rows[1 + |calls|..], declared + CallIds(calls), rest);
      } else {
        AnsweredIsLegal(rows[1..], declared, pending);
      }
    }
  }
}
