/**
 Which rows reach the terminal's scrollback (crates/cli/src/chat_widget.rs, with the stream of
 crates/cli/src/stream.rs and the cells of crates/cli/src/history_cell.rs): rows of a run that is still
 arriving may be written early, and the rest is written when its cell is committed.
 */
module Scrollback {
  import opened Common

  const MIN_ROWS: nat := 6
  const MIN_COLUMNS: nat := 12

  /** A finished row: a line of text with its styles. */
  type Row = string

  // ------------------------------------------------------------- the stream

  /** Settled lines not yet taken, and the line still open. */
  datatype Stream = Stream(lines: seq<Row>, tail: string, atLineStart: bool)

  const NOTHING := Stream([], "", true)

  /** `lines` and the open line after more text: every newline settles the line before it. */
  function Settle(lines: seq<Row>, tail: string, text: string): (r: (seq<Row>, string))
    ensures lines <= r.0
    decreases |text|
  {
    if text == "" then (lines, tail)
    else if text[0] == '\n' then Settle(lines + [tail], "", text[1..])
    else Settle(lines, tail + [text[0]], text[1..])
  }

  /** Settled lines as the text they were. */
  function TextOf(lines: seq<Row>): string {
    if lines == [] then "" else lines[0] + "\n" + TextOf(lines[1..])
  }

  lemma {:induction false} TextOfMore(lines: seq<Row>, line: Row)
    ensures TextOf(lines + [line]) == TextOf(lines) + line + "\n"
  {
    if lines == [] {
      assert [line][1..] == [];
    } else {
      TextOfMore(lines[1..], line);
      assert (lines + [line])[1..] == lines[1..] + [line];
    }
  }

  /** Text is cut into lines, and none of it is lost or doubled. */
  lemma {:induction false} SettleKeepsText(lines: seq<Row>, tail: string, text: string)
    ensures var (after, open) := Settle(lines, tail, text);
      TextOf(after) + open == TextOf(lines) + tail + text && ('\n' !in tail ==> '\n' !in open)
    decreases |text|
  {
    if text == "" {
    } else {
      assert text == [text[0]] + text[1..];
      if text[0] == '\n' {
        TextOfMore(lines, tail);
        SettleKeepsText(lines + [tail], "", text[1..]);
      } else {
        SettleKeepsText(lines, tail + [text[0]], text[1..]);
      }
    }
  }

  function LineClosed(stream: Stream): (r: Stream)
    ensures stream.lines <= r.lines && r.tail == "" && r.atLineStart
  {
    if stream.atLineStart && stream.tail == "" then stream
    else Stream(stream.lines + [stream.tail], "", true)
  }

  function StripNewline(text: string): string {
    if text != "" && text[|text| - 1] == '\n' then text[..|text| - 1] else text
  }

  /** The pieces between newlines; one at least. */
  function Split(text: string): seq<Row> {
    var (lines, open) := Settle([], "", text);
    lines + [open]
  }

  /** How text is drawn: everything that decides what a row says but not where it goes. */
  datatype Looks = Looks(
    prepare: (string, nat, Stream) -> string,        // indented for its depth, control characters expanded
    endsLine: string -> bool,                        // whether what a reader sees ends in a newline
    controls: string -> string,                      // control characters expanded
    height: (string, nat) -> nat,                    // the rows a line takes at a width
    caret: string, rule: nat -> Row,
    summary: (Option<int>, int, Option<nat>, bool) -> Row,
    trimmed: string -> string)

  function Pushed(looks: Looks, stream: Stream, text: string, depth: nat): (r: Stream)
    ensures stream.lines <= r.lines
  {
    if text == "" then stream
    else
      var body := looks.prepare(text, depth, stream);
      var (lines, tail) := Settle(stream.lines, stream.tail, body);
      Stream(lines, tail, looks.endsLine(body))
  }

  function LinePushed(looks: Looks, stream: Stream, text: string): (r: Stream)
    ensures stream.lines <= r.lines
  {
    var ended := LineClosed(stream);
    ended.(lines := ended.lines + Split(StripNewline(looks.controls(text))))
  }

  /** How many of the settled lines go when the last `keep` stay. */
  function Ready(stream: Stream, keep: nat): (r: nat)
    ensures r <= |stream.lines|
  {
    if |stream.lines| <= keep then 0 else |stream.lines| - keep
  }

  function SumHeights(looks: Looks, lines: seq<Row>, width: nat): nat {
    if lines == [] then 0 else looks.height(lines[0], width) + SumHeights(looks, lines[1..], width)
  }

  function Height(looks: Looks, stream: Stream, width: nat): nat {
    SumHeights(looks, stream.lines, width) + if stream.tail == "" then 0 else looks.height(stream.tail, width)
  }

  // ------------------------------------------------------------- cells

  /**
   A committed cell, by what it answers: `display` is what is put out, `transcript` the cell unfolded, and
   `run` those of its rows that came from the stream.
   */
  datatype Cell = Cell(display: seq<Row>, transcript: seq<Row>, run: seq<Row>)

  function Plain(rows: seq<Row>): Cell {
    Cell(rows, rows, [])
  }

  function UserCell(said: seq<Row>): Cell {
    Plain([""] + said)
  }

  function AssistantCell(answer: seq<Row>): Cell {
    Cell(answer, answer, answer)
  }

  /** A summary over a body, shown or kept for the transcript. */
  function FoldedCell(summary: Row, body: seq<Row>, expanded: bool): Cell {
    Cell([summary] + if expanded then body else [], [summary] + body, body)
  }

  function StatsCell(line: Row, shown: bool): Cell {
    Cell(if shown then [line] else [], [line], [])
  }

  function DividerCell(line: Row): Cell {
    Plain(["", line])
  }

  function BlockRows(text: string): seq<Row> {
    if text == "" then [] else Split(StripNewline(text))
  }

  function UserRows(looks: Looks, content: string): seq<Row> {
    var lines := Split(looks.controls(content));
    [looks.caret + " " + lines[0]] + seq(|lines| - 1, i requires 0 <= i < |lines| - 1 => "  " + lines[i + 1])
  }

  // ------------------------------------------------------------- the widget

  datatype ReasoningDisplay = Hidden | Collapsed | Expanded

  /** How much arrives unfolded: `tools` and `stats` are true when folded. */
  datatype Defaults = Defaults(reasoning: ReasoningDisplay, tools: bool, stats: bool)

  const FOLDED := Defaults(Collapsed, true, true)

  datatype Active = Answer | Reasoning(since: int, elapsed: Option<nat>) | Tool(summary: Row)

  datatype Event =
    | AssistantDelta(text: string, depth: nat)
    | ReasoningDelta(text: string, depth: nat)
    | LineEnded
    | ReasoningStart(elapsed: Option<nat>)
    | ReasoningEnd
    | ToolBodyStart(summary: string)
    | ToolBodyEnd
    | Line(echo: bool, text: string)
    | Tasks
    | Stats(text: string)

  datatype State = State(
    stream: Stream, active: Option<Active>, committed: seq<Cell>, pending: seq<Row>, flushed: seq<Row>,
    defaults: Defaults, thinking: Option<int>, replaying: bool, width: nat, height: nat)

  /** A committed cell, its display in three: below `top`, `early` was out before it was committed; then `rest`. */
  datatype Entry = Entry(cell: Cell, top: seq<Row>, early: seq<Row>, rest: seq<Row>)

  /** A cell of whose display the rows `from` to `to` were out before it was committed. */
  function EntryOf(cell: Cell, from: nat, to: nat): Entry
    requires from <= to <= |cell.display|
  {
    Entry(cell, cell.display[..from], cell.display[from..to], cell.display[to..])
  }

  /**
   What has happened: the rows drained or discarded, in order, every cell ever committed, how many of
   them belong to conversations left behind, and every line the stream settled.
   */
  datatype Told = Told(out: seq<Row>, entries: seq<Entry>, left: nat, settled: seq<Row>)

  datatype Widget = Widget(s: State, told: Told)

  /** The rows of `rows` outside `from` to `to`. */
  function Outside(rows: seq<Row>, from: nat, to: nat): seq<Row>
    requires from <= to <= |rows|
  {
    rows[..from] + rows[to..]
  }

  /** `stream` has heard more: the lines it settled are noted. */
  function Heard(w: Widget, stream: Stream): Widget
    requires w.s.stream.lines <= stream.lines
  {
    Widget(w.s.(stream := stream), w.told.(settled := w.told.settled + stream.lines[|w.s.stream.lines|..]))
  }

  function Committed(w: Widget, cell: Cell, from: nat, to: nat): Widget
    requires from <= to <= |cell.display|
  {
    Widget(
      w.s.(pending := w.s.pending + Outside(cell.display, from, to), committed := w.s.committed + [cell]),
      w.told.(entries := w.told.entries + [EntryOf(cell, from, to)]))
  }

  function Added(w: Widget, cell: Cell): Widget {
    Committed(w, cell, 0, 0)
  }

  /** The run taken: what it said is `Run`, and `flushed` of it is already out. */
  function Taken(w: Widget): Widget {
    w.(s := w.s.(flushed := [], stream := NOTHING))
  }

  function Ended(w: Widget): Widget {
    Heard(w, LineClosed(w.s.stream))
  }

  /** With its head already out a run is expanded in any case; an empty run is committed only under `always`. */
  function Folded(ended: Widget, summary: Row, expanded: bool, always: bool): Widget {
    var body, written := ended.s.flushed + ended.s.stream.lines, |ended.s.flushed|;
    if body == [] && !always then Taken(ended)
    else Committed(Taken(ended), FoldedCell(summary, body, expanded || written > 0), 1, 1 + written)
  }

  function FoldCommitted(w: Widget, summary: Row, expanded: bool, always: bool): Widget {
    Folded(Ended(w), summary, expanded, always)
  }

  function AnswerCommitted(w: Widget): Widget {
    var ended := Ended(w);
    var lines, written := ended.s.flushed + ended.s.stream.lines, |ended.s.flushed|;
    if lines == [] then Taken(ended) else Committed(Taken(ended), AssistantCell(lines), 0, written)
  }

  function Idle(w: Widget): Widget {
    w.(s := w.s.(active := None))
  }

  function Finished(looks: Looks, w: Widget): Widget {
    var s := w.s;
    match s.active
    case None => AnswerCommitted(w)
    case Some(Answer) => AnswerCommitted(Idle(w))
    case Some(Reasoning(since, elapsed)) =>
      FoldCommitted(Idle(w), looks.summary(s.thinking, since, elapsed, s.replaying),
          s.defaults.reasoning == Expanded, false)
    case Some(Tool(summary)) => FoldCommitted(Idle(w), summary, !s.defaults.tools, true)
  }

  function Open(w: Widget, active: Active): Widget {
    w.(s := w.s.(active := Some(active)))
  }

  function Echoing(looks: Looks, w: Widget, content: string): Widget {
    Added(Finished(looks, w), UserCell(UserRows(looks, content)))
  }

  function EndReasoning(looks: Looks, w: Widget): Widget {
    var s := w.s;
    var (since, elapsed) :=
      if s.active.Some? && s.active.value.Reasoning? then (s.active.value.since, s.active.value.elapsed) else (0, None);
    FoldCommitted(Idle(w), looks.summary(s.thinking, since, elapsed, s.replaying),
        s.defaults.reasoning == Expanded, false)
  }

  /** With no tool open, the rows are folded under an empty summary. */
  function EndTool(w: Widget): Widget {
    if w.s.active.Some? && w.s.active.value.Tool?
    then FoldCommitted(Idle(w), w.s.active.value.summary, !w.s.defaults.tools, true)
    else FoldCommitted(w, "", !w.s.defaults.tools, true)
  }

  /** A line inside a tool's run joins its body; any other is a cell of its own. */
  function Note(looks: Looks, w: Widget, text: string): Widget {
    if w.s.active.Some? && w.s.active.value.Tool? then Heard(w, LinePushed(looks, w.s.stream, text))
    else Added(Finished(looks, w), Plain(BlockRows(looks.controls(text))))
  }

  function Handled(looks: Looks, w: Widget, event: Event): Widget {
    match event
    case AssistantDelta(text, depth) =>
      Heard(if w.s.active.None? then Open(w, Answer) else w, Pushed(looks, w.s.stream, text, depth))
    case ReasoningDelta(text, depth) => Heard(w, Pushed(looks, w.s.stream, text, depth))
    case LineEnded => Heard(w, LineClosed(w.s.stream))
    case ReasoningStart(elapsed) =>
      Open(Finished(looks, w), Reasoning(if w.s.thinking.Some? then w.s.thinking.value else 0, elapsed))
    case ReasoningEnd => EndReasoning(looks, w)
    case ToolBodyStart(summary) => Open(Finished(looks, w), Tool(looks.trimmed(summary)))
    case ToolBodyEnd => EndTool(w)
    case Line(echo, text) =>
      if echo then Echoing(looks, w, text) else Note(looks, w, text)
    case Tasks => w
    case Stats(text) =>
      var finished := Finished(looks, w);
      Added(finished, StatsCell(text, !finished.s.defaults.stats))
  }

  function AllHandled(looks: Looks, w: Widget, events: seq<Event>): Widget {
    if events == [] then w
    else Handled(looks, AllHandled(looks, w, events[..|events| - 1]), events[|events| - 1])
  }

  function ReplayedOver(looks: Looks, w: Widget, events: seq<Event>): Widget {
    var read := AllHandled(looks, w.(s := w.s.(replaying := true)), events);
    var finished := Finished(looks, read);
    finished.(s := finished.s.(replaying := false))
  }

  /** The transcript starts again; what is above stays with the terminal. */
  function Forget(w: Widget): Widget {
    Widget(w.s.(committed := []), w.told.(left := |w.told.entries|))
  }

  /** The open run finished, the conversation ruled off and forgotten. */
  function Ruled(looks: Looks, w: Widget): Widget {
    Forget(Added(Finished(looks, w), DividerCell(looks.rule(AtLeastOne(w.s.width)))))
  }

  function ReopenedOver(looks: Looks, w: Widget, header: string, events: seq<Event>): Widget {
    ReplayedOver(looks, Added(Ruled(looks, w), Plain(BlockRows(header))), events)
  }

  function AtLeastOne(n: nat): (r: nat)
    ensures r >= 1 && (n >= 1 ==> r == n)
  {
    if n == 0 then 1 else n
  }

  predicate TooSmall(s: State) {
    s.height < MIN_ROWS || s.width < MIN_COLUMNS
  }

  predicate ShowsBody(s: State) {
    !(s.active.Some? && s.active.value.Reasoning?) || s.defaults.reasoning == Expanded
  }

  /** Only text that will be shown in full may go out early. */
  predicate Flushes(s: State) {
    match s.active
    case None => true
    case Some(Answer) => true
    case Some(Reasoning(_, _)) => s.defaults.reasoning == Expanded
    case Some(Tool(_)) => !s.defaults.tools
  }

  function Cap(s: State): (r: nat)
    ensures r >= 1
  {
    AtLeastOne(s.height / 2)
  }

  /** The oldest settled lines written to the scrollback, the last `keep` kept back. */
  function Flush(w: Widget, keep: nat): Widget {
    var ready := Ready(w.s.stream, keep);
    var taken := w.s.stream.lines[..ready];
    w.(s := w.s.(
      pending := w.s.pending + taken, flushed := w.s.flushed + taken,
      stream := w.s.stream.(lines := w.s.stream.lines[ready..])))
  }

  /** The open run is too tall for the live area, and may go out. */
  predicate IsFull(looks: Looks, s: State) {
    Flushes(s) && Height(looks, s.stream, AtLeastOne(s.width)) > Cap(s)
  }

  /** One layout of the live area: a run that is too tall and may flush does. */
  function Redrawn(looks: Looks, w: Widget): Widget {
    if !TooSmall(w.s) && ShowsBody(w.s) && IsFull(looks, w.s) then Flush(w, AtLeastOne(Cap(w.s) - 1)) else w
  }

  /** The rows waiting go to the terminal, or are thrown away for a screen written again. */
  function Drained(w: Widget): Widget {
    Widget(w.s.(pending := []), w.told.(out := w.told.out + w.s.pending))
  }

  datatype Move =
    | Say(event: Event)
    | Echoed(content: string)
    | StartTurn
    | EndTurn
    | Tick
    | Layout
    | DrainHistory
    | DiscardHistory
    | SetDefaults(defaults: Defaults)
    | ToggleTools
    | ToggleStats
    | Resize(width: nat, height: nat)
    | Replayed(events: seq<Event>)
    | Reopened(header: string, events: seq<Event>)

  function EndOfTurn(looks: Looks, w: Widget): Widget {
    var finished := Finished(looks, w);
    finished.(s := finished.s.(thinking := None))
  }

  function Step(looks: Looks, w: Widget, move: Move): Widget {
    var s := w.s;
    match move
    case Say(event) => Handled(looks, w, event)
    case Echoed(content) => Echoing(looks, w, content)
    case StartTurn => w.(s := s.(thinking := Some(0)))
    case EndTurn => EndOfTurn(looks, w)
    case Tick => if s.thinking.None? then w else w.(s := s.(thinking := Some(s.thinking.value + 1)))
    case Layout => Redrawn(looks, w)
    case DrainHistory => Drained(w)
    case DiscardHistory => Drained(w)
    case SetDefaults(defaults) => w.(s := s.(defaults := defaults))
    case ToggleTools => w.(s := s.(defaults := s.defaults.(tools := !s.defaults.tools)))
    case ToggleStats => w.(s := s.(defaults := s.defaults.(stats := !s.defaults.stats)))
    case Resize(width, height) => w.(s := s.(width := width, height := height))
    case Replayed(events) => ReplayedOver(looks, w, events)
    case Reopened(header, events) => ReopenedOver(looks, w, header, events)
  }

  const NEW := Widget(State(NOTHING, None, [], [], [], FOLDED, None, false, 0, 0), Told([], [], 0, []))

  /** A prompt opens with its header, then anything may happen. */
  function Run(looks: Looks, header: string, moves: seq<Move>): Widget {
    if moves == [] then Added(NEW, Plain(BlockRows(header)))
    else Step(looks, Run(looks, header, moves[..|moves| - 1]), moves[|moves| - 1])
  }

  // ------------------------------------------------------------- every row once

  /** What goes to the scrollback leads the transcript, and what came from the stream ends it. */
  ghost predicate Sensible(cell: Cell) {
    cell.display <= cell.transcript && |cell.run| <= |cell.transcript|
    && cell.transcript[|cell.transcript| - |cell.run|..] == cell.run
  }

  ghost predicate WellFormed(entry: Entry) {
    Sensible(entry.cell) && |entry.top| <= 1 && entry.cell.display == RowsShown(entry)
  }

  /** The rows a cell put out, in the order they went: those of the open run, then the others. */
  function RowsOut(entry: Entry): seq<Row> {
    entry.early + (entry.top + entry.rest)
  }

  function RowsShown(entry: Entry): seq<Row> {
    entry.top + (entry.early + entry.rest)
  }

  function AllOut(entries: seq<Entry>): seq<Row> {
    if entries == [] then [] else AllOut(entries[..|entries| - 1]) + RowsOut(entries[|entries| - 1])
  }

  function AllRuns(entries: seq<Entry>): seq<Row> {
    if entries == [] then [] else AllRuns(entries[..|entries| - 1]) + entries[|entries| - 1].cell.run
  }

  function CellsOf(entries: seq<Entry>): (r: seq<Cell>)
    ensures |r| == |entries|
  {
    seq(|entries|, i requires 0 <= i < |entries| => entries[i].cell)
  }

  /** Rows out and waiting are what every committed cell put out, then the open run's head. */
  ghost predicate RowsAccounted(w: Widget) {
    w.told.out + w.s.pending == AllOut(w.told.entries) + w.s.flushed
  }

  /** Every line the stream settled is in a cell's transcript, is out early, or is still in the stream. */
  ghost predicate LinesAccounted(w: Widget) {
    AllRuns(w.told.entries) + w.s.flushed + w.s.stream.lines == w.told.settled
  }

  /** The cells of the conversation being shown. */
  function Since(told: Told): seq<Entry> {
    if told.left <= |told.entries| then told.entries[told.left..] else []
  }

  ghost predicate AllWellFormed(entries: seq<Entry>) {
    forall i :: 0 <= i < |entries| ==> WellFormed(entries[i])
  }

  /** The transcript holds the cells of this conversation. */
  ghost predicate Shaped(w: Widget) {
    && AllWellFormed(w.told.entries)
    && w.told.left <= |w.told.entries| && w.s.committed == CellsOf(w.told.entries[w.told.left..])
  }

  ghost predicate Sound(w: Widget) {
    RowsAccounted(w) && LinesAccounted(w) && Shaped(w)
  }

  lemma OneMoreEntry(entries: seq<Entry>, entry: Entry)
    ensures AllOut(entries + [entry]) == AllOut(entries) + RowsOut(entry)
    ensures AllRuns(entries + [entry]) == AllRuns(entries) + entry.cell.run
  {
    assert (entries + [entry])[..|entries|] == entries;
  }

  lemma OneMoreCell(entries: seq<Entry>, entry: Entry)
    ensures CellsOf(entries + [entry]) == CellsOf(entries) + [entry.cell]
  {}

  lemma HeardKeeps(w: Widget, stream: Stream)
    requires Sound(w) && w.s.stream.lines <= stream.lines
    ensures Sound(Heard(w, stream))
  {
    var more := stream.lines[|w.s.stream.lines|..];
    assert stream.lines == w.s.stream.lines + more;
    var front := AllRuns(w.told.entries) + w.s.flushed;
    assert front + (w.s.stream.lines + more) == front + w.s.stream.lines + more;
  }

  lemma Assoc<T>(a: seq<T>, b: seq<T>, c: seq<T>)
    ensures a + (b + c) == a + b + c
  {}

  lemma Chained<T>(out: seq<T>, pending: seq<T>, all: seq<T>, head: seq<T>, rest: seq<T>)
    requires out + pending == all + head
    ensures out + (pending + rest) == all + (head + rest)
  {
    Assoc(out, pending, rest);
    Assoc(all, head, rest);
  }

  lemma NoMore<T>(a: seq<T>)
    ensures a + [] == a
  {}

  /** With its early rows out and not yet accounted for, an entry settles the account. */
  lemma EntryPaysFor(out: seq<Row>, pending: seq<Row>, entries: seq<Entry>, entry: Entry)
    requires out + pending == AllOut(entries) + entry.early
    ensures out + (pending + (entry.top + entry.rest)) == AllOut(entries + [entry]) + []
  {
    OneMoreEntry(entries, entry);
    Chained(out, pending, AllOut(entries), entry.early, entry.top + entry.rest);
    NoMore(AllOut(entries + [entry]));
  }

  lemma EntryHoldsTheRun(entries: seq<Entry>, entry: Entry, flushed: seq<Row>, lines: seq<Row>)
    requires entry.cell.run == flushed + lines
    ensures AllRuns(entries + [entry]) + [] + [] == AllRuns(entries) + flushed + lines
  {
    OneMoreEntry(entries, entry);
    Assoc(AllRuns(entries), flushed, lines);
    NoMore(AllRuns(entries + [entry]));
  }

  lemma CommitShape(w: Widget, cell: Cell, from: nat, to: nat)
    requires from <= 1 && from <= to <= |cell.display| && Shaped(w) && Sensible(cell)
    ensures Shaped(Committed(w, cell, from, to))
  {
    var entry := EntryOf(cell, from, to);
    assert WellFormed(entry);
    OneMoreCell(w.told.entries[w.told.left..], entry);
    assert (w.told.entries + [entry])[w.told.left..] == w.told.entries[w.told.left..] + [entry];
  }

  ghost predicate Heads(head: seq<Row>, cell: Cell, at: nat) {
    at + |head| <= |cell.display| && cell.display[at..at + |head|] == head
  }

  lemma RunRows(w: Widget, cell: Cell, at: nat)
    requires RowsAccounted(w) && Heads(w.s.flushed, cell, at)
    ensures RowsAccounted(Committed(Taken(w), cell, at, at + |w.s.flushed|))
  {
    var entry := EntryOf(cell, at, at + |w.s.flushed|);
    EntryPaysFor(w.told.out, w.s.pending, w.told.entries, entry);
  }

  lemma RunLines(w: Widget, cell: Cell, from: nat, to: nat)
    requires LinesAccounted(w) && cell.run == w.s.flushed + w.s.stream.lines && from <= to <= |cell.display|
    ensures LinesAccounted(Committed(Taken(w), cell, from, to))
  {
    EntryHoldsTheRun(w.told.entries, EntryOf(cell, from, to), w.s.flushed, w.s.stream.lines);
  }

  /** A run committed as `cell`, whose display from `at` starts with what is out already. */
  lemma RunIsCommitted(w: Widget, cell: Cell, at: nat)
    requires Sound(w) && Sensible(cell) && cell.run == w.s.flushed + w.s.stream.lines
    requires Heads(w.s.flushed, cell, at) && at <= 1
    ensures Sound(Committed(Taken(w), cell, at, at + |w.s.flushed|))
  {
    RunRows(w, cell, at);
    RunLines(w, cell, at, at + |w.s.flushed|);
    CommitShape(Taken(w), cell, at, at + |w.s.flushed|);
  }

  lemma NothingIsTaken(w: Widget)
    requires Sound(w) && w.s.flushed + w.s.stream.lines == []
    ensures Sound(Taken(w))
  {
    assert w.s.flushed == [] && w.s.stream.lines == [];
  }

  lemma CommitKeeps(w: Widget, cell: Cell)
    requires Sound(w) && w.s.flushed == [] && cell.run == [] && cell.display <= cell.transcript
    ensures Sound(Added(w, cell)) && Added(w, cell).s.flushed == []
  {
    var entry := EntryOf(cell, 0, 0);
    EntryPaysFor(w.told.out, w.s.pending, w.told.entries, entry);
    OneMoreEntry(w.told.entries, entry);
    NoMore(AllRuns(w.told.entries));
    CommitShape(w, cell, 0, 0);
  }

  lemma FoldShowsItsHead(summary: Row, head: seq<Row>, rest: seq<Row>, expanded: bool)
    ensures var cell := FoldedCell(summary, head + rest, expanded || |head| > 0);
      Sensible(cell) && cell.run == head + rest && Heads(head, cell, 1)
  {}

  lemma FoldedKeeps(w: Widget, summary: Row, expanded: bool, always: bool)
    requires Sound(w)
    ensures var after := Folded(w, summary, expanded, always); Sound(after) && after.s.flushed == []
  {
    var body := w.s.flushed + w.s.stream.lines;
    if body == [] && !always {
      NothingIsTaken(w);
    } else {
      var cell := FoldedCell(summary, body, expanded || |w.s.flushed| > 0);
      FoldShowsItsHead(summary, w.s.flushed, w.s.stream.lines, expanded);
      RunIsCommitted(w, cell, 1);
    }
  }

  /** The head that went out early is rows 1 on of the fold, which shows them: it is expanded. */
  lemma CommitFoldKeeps(w: Widget, summary: Row, expanded: bool, always: bool)
    requires Sound(w)
    ensures var after := FoldCommitted(w, summary, expanded, always); Sound(after) && after.s.flushed == []
  {
    HeardKeeps(w, LineClosed(w.s.stream));
    FoldedKeeps(Ended(w), summary, expanded, always);
  }

  lemma CommitAnswerKeeps(w: Widget)
    requires Sound(w)
    ensures var after := AnswerCommitted(w); Sound(after) && after.s.flushed == []
  {
    var ended := Ended(w);
    HeardKeeps(w, LineClosed(w.s.stream));
    var lines := ended.s.flushed + ended.s.stream.lines;
    if lines == [] {
      NothingIsTaken(ended);
    } else {
      assert lines[0..|ended.s.flushed|] == ended.s.flushed;
      RunIsCommitted(ended, AssistantCell(lines), 0);
    }
  }

  /** Fields no account reads may change. */
  lemma OnlyRowsMatter(w: Widget, s: State)
    requires Sound(w)
    requires s.stream == w.s.stream && s.committed == w.s.committed
    requires s.pending == w.s.pending && s.flushed == w.s.flushed
    ensures Sound(Widget(s, w.told))
  {}

  lemma FinishKeeps(looks: Looks, w: Widget)
    requires Sound(w)
    ensures var after := Finished(looks, w); Sound(after) && after.s.flushed == []
  {
    OnlyRowsMatter(w, Idle(w).s);
    var s := w.s;
    match s.active
    case None => CommitAnswerKeeps(w);
    case Some(Answer) => CommitAnswerKeeps(Idle(w));
    case Some(Reasoning(since, elapsed)) =>
      CommitFoldKeeps(Idle(w), looks.summary(s.thinking, since, elapsed, s.replaying),
          s.defaults.reasoning == Expanded, false);
    case Some(Tool(summary)) => CommitFoldKeeps(Idle(w), summary, !s.defaults.tools, true);
  }

  lemma FinishAndCommitKeeps(looks: Looks, w: Widget, cell: Cell)
    requires Sound(w) && cell.run == [] && cell.display <= cell.transcript
    ensures Sound(Added(Finished(looks, w), cell))
  {
    FinishKeeps(looks, w);
    CommitKeeps(Finished(looks, w), cell);
  }

  lemma FinishAndOpenKeeps(looks: Looks, w: Widget, active: Active)
    requires Sound(w)
    ensures Sound(Open(Finished(looks, w), active))
  {
    FinishKeeps(looks, w);
    var finished := Finished(looks, w);
    OnlyRowsMatter(finished, Open(finished, active).s);
  }

  lemma EndReasoningKeeps(looks: Looks, w: Widget)
    requires Sound(w)
    ensures Sound(EndReasoning(looks, w))
  {
    OnlyRowsMatter(w, Idle(w).s);
    var s := w.s;
    var (since, elapsed) :=
      if s.active.Some? && s.active.value.Reasoning? then (s.active.value.since, s.active.value.elapsed) else (0, None);
    CommitFoldKeeps(Idle(w), looks.summary(s.thinking, since, elapsed, s.replaying),
        s.defaults.reasoning == Expanded, false);
  }

  lemma EndToolKeeps(w: Widget)
    requires Sound(w)
    ensures Sound(EndTool(w))
  {
    if w.s.active.Some? && w.s.active.value.Tool? {
      OnlyRowsMatter(w, Idle(w).s);
      CommitFoldKeeps(Idle(w), w.s.active.value.summary, !w.s.defaults.tools, true);
    } else {
      CommitFoldKeeps(w, "", !w.s.defaults.tools, true);
    }
  }

  lemma NoteKeeps(looks: Looks, w: Widget, text: string)
    requires Sound(w)
    ensures Sound(Note(looks, w, text))
  {
    if w.s.active.Some? && w.s.active.value.Tool? {
      HeardKeeps(w, LinePushed(looks, w.s.stream, text));
    } else {
      FinishAndCommitKeeps(looks, w, Plain(BlockRows(looks.controls(text))));
    }
  }

  lemma TextKeeps(looks: Looks, w: Widget, event: Event)
    requires Sound(w) && (event.AssistantDelta? || event.ReasoningDelta? || event.LineEnded?)
    ensures Sound(Handled(looks, w, event))
  {
    if event.AssistantDelta? {
      OnlyRowsMatter(w, Open(w, Answer).s);
      HeardKeeps(if w.s.active.None? then Open(w, Answer) else w, Pushed(looks, w.s.stream, event.text, event.depth));
    } else if event.ReasoningDelta? {
      HeardKeeps(w, Pushed(looks, w.s.stream, event.text, event.depth));
    } else {
      HeardKeeps(w, LineClosed(w.s.stream));
    }
  }

  lemma HandleKeeps(looks: Looks, w: Widget, event: Event)
    requires Sound(w)
    ensures Sound(Handled(looks, w, event))
  {
    if event.AssistantDelta? || event.ReasoningDelta? || event.LineEnded? {
      TextKeeps(looks, w, event);
    } else if event.ReasoningStart? {
      FinishAndOpenKeeps(looks, w, Reasoning(if w.s.thinking.Some? then w.s.thinking.value else 0, event.elapsed));
    } else if event.ReasoningEnd? {
      EndReasoningKeeps(looks, w);
    } else if event.ToolBodyStart? {
      FinishAndOpenKeeps(looks, w, Tool(looks.trimmed(event.summary)));
    } else if event.ToolBodyEnd? {
      EndToolKeeps(w);
    } else if event.Line? {
      LineKeeps(looks, w, event);
    } else if event.Stats? {
      StatsKeep(looks, w, event.text);
    }
  }

  lemma EchoKeeps(looks: Looks, w: Widget, content: string)
    requires Sound(w)
    ensures Sound(Echoing(looks, w, content))
  {
    FinishAndCommitKeeps(looks, w, UserCell(UserRows(looks, content)));
  }

  lemma StatsKeep(looks: Looks, w: Widget, text: string)
    requires Sound(w)
    ensures Sound(Handled(looks, w, Stats(text)))
  {
    var cell := StatsCell(text, !Finished(looks, w).s.defaults.stats);
    FinishAndCommitKeeps(looks, w, cell);
    assert Handled(looks, w, Stats(text)) == Added(Finished(looks, w), cell);
  }

  lemma LineKeeps(looks: Looks, w: Widget, event: Event)
    requires Sound(w) && event.Line?
    ensures Sound(Handled(looks, w, event))
  {
    var after := if event.echo then Echoing(looks, w, event.text) else Note(looks, w, event.text);
    if event.echo {
      EchoKeeps(looks, w, event.text);
    } else {
      NoteKeeps(looks, w, event.text);
    }
    assert Sound(after) && Handled(looks, w, event) == after;
  }

  lemma {:induction false} HandleAllKeeps(looks: Looks, w: Widget, events: seq<Event>)
    requires Sound(w)
    ensures Sound(AllHandled(looks, w, events))
    decreases |events|
  {
    if events != [] {
      HandleAllKeeps(looks, w, events[..|events| - 1]);
      HandleKeeps(looks, AllHandled(looks, w, events[..|events| - 1]), events[|events| - 1]);
    }
  }

  lemma ReplayKeeps(looks: Looks, w: Widget, events: seq<Event>)
    requires Sound(w)
    ensures Sound(ReplayedOver(looks, w, events))
  {
    var started := w.(s := w.s.(replaying := true));
    OnlyRowsMatter(w, started.s);
    HandleAllKeeps(looks, started, events);
    var read := AllHandled(looks, started, events);
    FinishKeeps(looks, read);
    var finished := Finished(looks, read);
    OnlyRowsMatter(finished, finished.s.(replaying := false));
  }

  lemma ForgetKeeps(w: Widget)
    requires Sound(w)
    ensures Sound(Forget(w))
  {
  }

  lemma RuledKeeps(looks: Looks, w: Widget)
    requires Sound(w)
    ensures Sound(Ruled(looks, w)) && Ruled(looks, w).s.flushed == []
  {
    FinishKeeps(looks, w);
    CommitKeeps(Finished(looks, w), DividerCell(looks.rule(AtLeastOne(w.s.width))));
    ForgetKeeps(Added(Finished(looks, w), DividerCell(looks.rule(AtLeastOne(w.s.width)))));
  }

  lemma ReopenKeeps(looks: Looks, w: Widget, header: string, events: seq<Event>)
    requires Sound(w)
    ensures Sound(ReopenedOver(looks, w, header, events))
  {
    RuledKeeps(looks, w);
    var ruled, top := Ruled(looks, w), Plain(BlockRows(header));
    CommitKeeps(ruled, top);
    ReplayKeeps(looks, Added(ruled, top), events);
  }

  lemma FlushKeeps(w: Widget, keep: nat)
    requires Sound(w)
    ensures Sound(Flush(w, keep))
  {
    var ready := Ready(w.s.stream, keep);
    var taken, left := w.s.stream.lines[..ready], w.s.stream.lines[ready..];
    assert w.s.stream.lines == taken + left;
    Assoc(w.told.out, w.s.pending, taken);
    Assoc(AllOut(w.told.entries), w.s.flushed, taken);
    assert RowsAccounted(Flush(w, keep));
    FlushedLines(AllRuns(w.told.entries), w.s.flushed, taken, left);
    assert LinesAccounted(Flush(w, keep));
  }

  lemma FlushedLines(runs: seq<Row>, flushed: seq<Row>, taken: seq<Row>, left: seq<Row>)
    ensures runs + (flushed + taken) + left == runs + flushed + (taken + left)
  {
    Assoc(runs, flushed, taken);
    Assoc(runs + flushed, taken, left);
  }

  lemma StepKeeps(looks: Looks, w: Widget, move: Move)
    requires Sound(w)
    ensures Sound(Step(looks, w, move))
  {
    if move.Say? {
      HandleKeeps(looks, w, move.event);
    } else if move.Echoed? {
      FinishAndCommitKeeps(looks, w, UserCell(UserRows(looks, move.content)));
    } else if move.EndTurn? {
      FinishKeeps(looks, w);
      var finished := Finished(looks, w);
      OnlyRowsMatter(finished, finished.s.(thinking := None));
    } else if move.Layout? {
      FlushKeeps(w, AtLeastOne(Cap(w.s) - 1));
    } else if move.Replayed? {
      ReplayKeeps(looks, w, move.events);
    } else if move.Reopened? {
      ReopenKeeps(looks, w, move.header, move.events);
    } else {
      QuietStepKeeps(looks, w, move);
    }
  }

  lemma QuietStepKeeps(looks: Looks, w: Widget, move: Move)
    requires Sound(w)
    requires move.StartTurn? || move.Tick? || move.DrainHistory? || move.DiscardHistory? || move.SetDefaults?
      || move.ToggleTools? || move.ToggleStats? || move.Resize?
    ensures Sound(Step(looks, w, move))
  {
    if move.DrainHistory? || move.DiscardHistory? {
      assert w.told.out + w.s.pending + [] == w.told.out + w.s.pending;
    } else {
      OnlyRowsMatter(w, Step(looks, w, move).s);
    }
  }

  lemma {:induction false} RunIsSound(looks: Looks, header: string, moves: seq<Move>)
    ensures Sound(Run(looks, header, moves))
  {
    if moves == [] {
      CommitKeeps(NEW, Plain(BlockRows(header)));
    } else {
      RunIsSound(looks, header, moves[..|moves| - 1]);
      StepKeeps(looks, Run(looks, header, moves[..|moves| - 1]), moves[|moves| - 1]);
    }
  }

  function DisplayAll(cells: seq<Cell>): seq<Row> {
    if cells == [] then [] else cells[0].display + DisplayAll(cells[1..])
  }

  lemma {:induction false} DisplayAllMore(cells: seq<Cell>, cell: Cell)
    ensures DisplayAll(cells + [cell]) == DisplayAll(cells) + cell.display
  {
    if cells == [] {
      assert [cell][1..] == [];
    } else {
      DisplayAllMore(cells[1..], cell);
      assert (cells + [cell])[1..] == cells[1..] + [cell];
    }
  }

  lemma RowsOutAreDisplayed(entry: Entry)
    requires WellFormed(entry)
    ensures multiset(RowsOut(entry)) == multiset(entry.cell.display)
  {}

  lemma {:induction false} AllOutIsDisplayed(entries: seq<Entry>)
    requires AllWellFormed(entries)
    ensures multiset(AllOut(entries)) == multiset(DisplayAll(CellsOf(entries)))
  {
    if entries != [] {
      var last := entries[|entries| - 1];
      AllOutIsDisplayed(entries[..|entries| - 1]);
      RowsOutAreDisplayed(last);
      assert entries == entries[..|entries| - 1] + [last];
      OneMoreCell(entries[..|entries| - 1], last);
      DisplayAllMore(CellsOf(entries[..|entries| - 1]), last.cell);
    }
  }

  /**
   Over any events, layouts, drains, fold toggles, resizes and changes of conversation: the rows drained,
   discarded or waiting are, each as often, the display rows of every cell ever committed and the head of
   the run still open. They are in cell order, each cell's early rows first.
   */
  lemma RowsAreConserved(looks: Looks, header: string, moves: seq<Move>)
    ensures var w := Run(looks, header, moves);
      && w.told.out + w.s.pending == AllOut(w.told.entries) + w.s.flushed
      && multiset(w.told.out + w.s.pending) == multiset(DisplayAll(CellsOf(w.told.entries))) + multiset(w.s.flushed)
  {
    RunIsSound(looks, header, moves);
    var w := Run(looks, header, moves);
    AllOutIsDisplayed(w.told.entries);
  }

  function TranscriptAll(cells: seq<Cell>): seq<Row> {
    if cells == [] then [] else TranscriptAll(cells[..|cells| - 1]) + cells[|cells| - 1].transcript
  }

  lemma {:induction false} RunsAreInTheTranscript(entries: seq<Entry>)
    requires AllWellFormed(entries)
    ensures multiset(AllRuns(entries)) <= multiset(TranscriptAll(CellsOf(entries)))
  {
    if entries != [] {
      var front, cell := entries[..|entries| - 1], entries[|entries| - 1].cell;
      RunsAreInTheTranscript(front);
      assert CellsOf(entries)[..|entries| - 1] == CellsOf(front);
      var head := |cell.transcript| - |cell.run|;
      assert cell.transcript == cell.transcript[..head] + cell.run;
    }
  }

  /**
   Folding hides rows from the scrollback and never from the transcript: in any run every line the
   stream ever settled, in order, is in a committed cell's run, which its transcript shows, or is out
   early from the open run, or is still in the stream.
   */
  lemma TranscriptsKeepEveryLine(looks: Looks, header: string, moves: seq<Move>)
    ensures var w := Run(looks, header, moves);
      && w.told.settled == AllRuns(w.told.entries) + w.s.flushed + w.s.stream.lines
      && multiset(AllRuns(w.told.entries)) <= multiset(TranscriptAll(CellsOf(w.told.entries)))
  {
    RunIsSound(looks, header, moves);
    RunsAreInTheTranscript(Run(looks, header, moves).told.entries);
  }

  /** A fold closed with rows of it already out shows those rows, expanded or not by default. */
  lemma FlushedHeadIsShown(w: Widget, summary: Row, expanded: bool, always: bool)
    requires w.s.flushed != []
    ensures var after := FoldCommitted(w, summary, expanded, always).s;
      && |after.committed| == |w.s.committed| + 1
      && var cell := after.committed[|w.s.committed|];
      cell.display == cell.transcript && [summary] + w.s.flushed <= cell.transcript
  {}

  // ------------------------------------------------------------- the tail of the conversation

  /** `rows` without its first rows, until at most `n` are left. */
  function LastRows(rows: seq<Row>, n: nat): (r: seq<Row>)
    ensures |r| == if |rows| <= n then |rows| else n
  {
    if |rows| <= n then rows else LastRows(rows[1..], n)
  }

  lemma {:induction false} LastRowsAre(rows: seq<Row>, n: nat)
    ensures LastRows(rows, n) == if |rows| <= n then rows else rows[|rows| - n..]
  {
    if |rows| > n {
      LastRowsAre(rows[1..], n);
    }
  }

  function Count(rows: seq<Row>, row: Row): nat {
    if rows == [] then 0 else (if rows[0] == row then 1 else 0) + Count(rows[1..], row)
  }

  lemma {:induction false} CountAdds(a: seq<Row>, b: seq<Row>, row: Row)
    ensures Count(a + b, row) == Count(a, row) + Count(b, row)
  {
    if a == [] {
      assert a + b == b;
    } else {
      CountAdds(a[1..], b, row);
      assert (a + b)[1..] == a[1..] + b;
    }
  }

  lemma {:induction false} CountIs(rows: seq<Row>, row: Row)
    ensures Count(rows, row) == multiset(rows)[row]
  {
    if rows != [] {
      CountIs(rows[1..], row);
      assert rows == [rows[0]] + rows[1..];
    }
  }

  /** `rows` holds every row of `waiting`, as often as it waits. */
  ghost predicate Holds(rows: seq<Row>, waiting: seq<Row>) {
    forall row :: Count(waiting, row) <= Count(rows, row)
  }

  ghost predicate SameRows(a: seq<Row>, b: seq<Row>) {
    |a| == |b| && forall row :: Count(a, row) == Count(b, row)
  }

  lemma HoldsIsSubset(rows: seq<Row>, waiting: seq<Row>)
    ensures Holds(rows, waiting) <==> multiset(waiting) <= multiset(rows)
  {
    forall row ensures Count(rows, row) == multiset(rows)[row] && Count(waiting, row) == multiset(waiting)[row] {
      CountIs(rows, row);
      CountIs(waiting, row);
    }
    if multiset(waiting) <= multiset(rows) {
      forall row ensures Count(waiting, row) <= Count(rows, row) {
        assert multiset(waiting)[row] <= multiset(rows)[row];
      }
    }
  }

  lemma LastWithin(a: seq<Row>, b: seq<Row>, n: nat)
    requires n <= |b|
    ensures LastRows(a + b, n) == LastRows(b, n)
  {
    LastRowsAre(a + b, n);
    LastRowsAre(b, n);
  }

  lemma LastBeyond(a: seq<Row>, b: seq<Row>, n: nat)
    ensures LastRows(a + b, n + |b|) == LastRows(a, n) + b
  {
    LastRowsAre(a + b, n + |b|);
    LastRowsAre(a, n);
  }

  lemma HoldsBefore(rows: seq<Row>, waiting: seq<Row>, a: seq<Row>, b: seq<Row>)
    requires SameRows(a, b)
    ensures Holds(rows + a, waiting + b) <==> Holds(rows, waiting)
  {
    forall row
      ensures Count(rows + a, row) == Count(rows, row) + Count(b, row)
      ensures Count(waiting + b, row) == Count(waiting, row) + Count(b, row)
    {
      CountAdds(rows, a, row);
      CountAdds(waiting, b, row);
    }
  }

  lemma HoldsMore(more: seq<Row>, rows: seq<Row>, waiting: seq<Row>)
    requires Holds(rows, waiting)
    ensures Holds(more + rows, waiting)
  {
    forall row ensures Count(waiting, row) <= Count(more + rows, row) {
      CountAdds(more, rows, row);
    }
  }

  lemma FewerCannotHold(rows: seq<Row>, waiting: seq<Row>)
    requires |waiting| > |rows|
    ensures !Holds(rows, waiting)
  {
    HoldsIsSubset(rows, waiting);
    if Holds(rows, waiting) {
      SmallerHasFewer(multiset(waiting), multiset(rows));
    }
  }

  lemma SmallerHasFewer(a: multiset<Row>, b: multiset<Row>)
    requires a <= b
    ensures |a| <= |b|
  {
    assert b == a + (b - a);
  }

  /** The same rows in another order. */
  lemma SwappedIsTheSame(a: seq<Row>, b: seq<Row>, rest: seq<Row>)
    ensures SameRows(a + (b + rest), b + (a + rest))
  {
    forall row ensures Count(a + (b + rest), row) == Count(b + (a + rest), row) {
      CountAdds(a, b + rest, row);
      CountAdds(b, rest, row);
      CountAdds(b, a + rest, row);
      CountAdds(a, rest, row);
    }
  }

  // The rows of one entry, `q` of them gone, against the last rows of its display and `room` more.

  /**
   Only a fold can fail: `q` of its early rows are gone and its summary, which its display has above them,
   still waits. Then those gone have to fit the room, or to hold a row just like the summary.
   */
  predicate SummaryFits(entry: Entry, q: nat, room: nat) {
    entry.top == [] || q > |entry.early| || q <= room || entry.top[0] in entry.early[q - 1 - room..q]
  }

  /** The same for the entry in which the last `waiting` rows of a conversation start. */
  predicate Restored(entries: seq<Entry>, waiting: nat, room: nat) {
    entries == [] ||
    var last := entries[|entries| - 1];
    if waiting > |RowsOut(last)| then Restored(entries[..|entries| - 1], waiting - |RowsOut(last)|, room)
    else SummaryFits(last, |RowsOut(last)| - waiting, room)
  }

  lemma SuffixHolds(rows: seq<Row>, q: nat, room: nat)
    requires q <= |rows|
    ensures Holds(LastRows(rows, |rows| - q + room), rows[q..])
  {
    var last := LastRows(rows, |rows| - q + room);
    LastRowsAre(rows, |rows| - q + room);
    var more := last[..|last| - |rows[q..]|];
    assert last == more + rows[q..];
    HoldsMore(more, rows[q..], rows[q..]);
  }

  lemma {:induction false} CountsWhenThere(rows: seq<Row>, row: Row)
    ensures Count(rows, row) > 0 <==> row in rows
  {
    if rows != [] {
      CountsWhenThere(rows[1..], row);
    }
  }

  lemma GainsARow(gone: seq<Row>, summary: Row, others: seq<Row>)
    ensures Holds(gone + others, [summary] + others) <==> summary in gone
  {
    HoldsBefore(gone, [summary], others, others);
    CountsWhenThere(gone, summary);
    assert [summary][1..] == [];
    assert Count([summary], summary) == 1;
    assert forall row :: row != summary ==> Count([summary], row) == 0;
  }

  /** Too little room for the gone rows: the tail ends short of the summary. */
  lemma TooLittleRoom(summary: Row, gone: seq<Row>, waiting: seq<Row>, room: nat)
    requires room < |gone|
    ensures LastRows([summary] + (gone + waiting), 1 + room + |waiting|)
      == gone[|gone| - 1 - room..] + waiting
  {
    LastWithin([summary], gone + waiting, 1 + room + |waiting|);
    LastBeyond(gone, waiting, 1 + room);
    LastRowsAre(gone, 1 + room);
  }

  lemma HoldsEither(rows: seq<Row>, a: seq<Row>, b: seq<Row>)
    requires SameRows(a, b)
    ensures Holds(rows, a) <==> Holds(rows, b)
  {}

  lemma FoldAllShown(summary: Row, gone: seq<Row>, waiting: seq<Row>)
    ensures Holds([summary] + (gone + waiting), [summary] + waiting)
  {
    SwappedIsTheSame([summary], gone, waiting);
    HoldsMore(gone, [summary] + waiting, [summary] + waiting);
    assert forall row :: Count([summary] + (gone + waiting), row) == Count(gone + ([summary] + waiting), row);
  }

  /** A fold with `gone` of its early rows gone and `left` still waiting under its summary. */
  lemma FoldRestores(summary: Row, gone: seq<Row>, left: seq<Row>, rest: seq<Row>, room: nat)
    ensures Holds(LastRows([summary] + (gone + (left + rest)), 1 + room + |left + rest|), left + ([summary] + rest))
      <==> |gone| <= room || summary in gone[|gone| - 1 - room..]
  {
    SwappedIsTheSame(left, [summary], rest);
    var waiting := left + rest;
    HoldsEither(LastRows([summary] + (gone + waiting), 1 + room + |waiting|), left + ([summary] + rest),
        [summary] + waiting);
    if |gone| <= room {
      LastRowsAre([summary] + (gone + waiting), 1 + room + |waiting|);
      FoldAllShown(summary, gone, waiting);
    } else {
      TooLittleRoom(summary, gone, waiting, room);
      GainsARow(gone[|gone| - 1 - room..], summary, waiting);
    }
  }

  lemma FoldSplit(summary: Row, early: seq<Row>, rest: seq<Row>, q: nat)
    requires q <= |early|
    ensures (early + ([summary] + rest))[q..] == early[q..] + ([summary] + rest)
    ensures early + rest == early[..q] + (early[q..] + rest)
  {
    assert early == early[..q] + early[q..];
  }

  lemma PastTheSummary(summary: Row, early: seq<Row>, rest: seq<Row>, q: nat)
    requires |early| < q <= |early| + 1 + |rest|
    ensures (early + ([summary] + rest))[q..] == ([summary] + (early + rest))[q..]
  {}

  lemma FoldEntryRestores(entry: Entry, q: nat, room: nat)
    requires |entry.top| == 1 && q <= |RowsOut(entry)|
    ensures Holds(LastRows(RowsShown(entry), |RowsOut(entry)| - q + room), RowsOut(entry)[q..])
      <==> SummaryFits(entry, q, room)
  {
    var summary, early, rest := entry.top[0], entry.early, entry.rest;
    assert entry.top == [summary];
    if q > |early| {
      PastTheSummary(summary, early, rest, q);
      SuffixHolds(RowsShown(entry), q, room);
    } else {
      FoldSplit(summary, early, rest, q);
      FoldRestores(summary, early[..q], early[q..], rest, room);
      assert room < q ==> early[..q][q - 1 - room..] == early[q - 1 - room..q];
      assert |RowsOut(entry)| - q + room == 1 + room + |early[q..] + rest|;
    }
  }

  lemma EntryRestores(entry: Entry, q: nat, room: nat)
    requires |entry.top| <= 1 && q <= |RowsOut(entry)|
    ensures Holds(LastRows(RowsShown(entry), |RowsOut(entry)| - q + room), RowsOut(entry)[q..])
      <==> SummaryFits(entry, q, room)
  {
    if entry.top == [] {
      assert RowsShown(entry) == RowsOut(entry);
      SuffixHolds(RowsOut(entry), q, room);
    } else {
      FoldEntryRestores(entry, q, room);
    }
  }

  // The same for a whole conversation, the rows behind the entry the waiting ones start in aside.

  lemma OutEnds(before: seq<Row>, out: seq<Row>, tail: seq<Row>, waiting: nat)
    requires waiting <= |out|
    ensures LastRows(before + (out + tail), waiting + |tail|) == out[|out| - waiting..] + tail
  {
    LastWithin(before, out + tail, waiting + |tail|);
    LastBeyond(out, tail, waiting);
    LastRowsAre(out, waiting);
  }

  lemma ShownEnds(above: seq<Row>, shown: seq<Row>, tail: seq<Row>, n: nat, waiting: seq<Row>, outTail: seq<Row>)
    requires SameRows(tail, outTail) && (n > |shown| ==> Holds(shown, waiting))
    ensures Holds(LastRows(above + (shown + tail), n + |tail|), waiting + outTail) <==>
        Holds(LastRows(shown, n), waiting)
  {
    if n <= |shown| {
      LastWithin(above, shown + tail, n + |tail|);
      LastBeyond(shown, tail, n);
      HoldsBefore(LastRows(shown, n), waiting, tail, outTail);
    } else {
      LastBeyond(above, shown + tail, n - |shown|);
      HoldsBefore(shown, waiting, tail, outTail);
      HoldsMore(LastRows(above, n - |shown|), shown + tail, waiting + outTail);
      LastRowsAre(shown, n);
    }
  }

  lemma AllOfItHolds(entry: Entry, q: nat)
    requires q <= |RowsOut(entry)|
    ensures Holds(RowsShown(entry), RowsOut(entry)[q..])
  {
    var out := RowsOut(entry);
    SwappedIsTheSame(entry.early, entry.top, entry.rest);
    HoldsMore(out[..q], out[q..], out[q..]);
    assert out == out[..q] + out[q..];
    assert forall row :: Count(out, row) == Count(RowsShown(entry), row);
  }

  /** The tail of what is shown, `room` longer than what waits of what went out, holds what waits. */
  ghost predicate TailHolds(shown: seq<Row>, out: seq<Row>, n: nat, room: nat) {
    Holds(LastRows(shown, n + room), LastRows(out, n))
  }

  /** Rows that wait in one piece, `fits` when its last rows hold them, and with the same rows behind it. */
  lemma PieceRestores(before: seq<Row>, above: seq<Row>, out: seq<Row>, shown: seq<Row>, outTail: seq<Row>,
        shownTail: seq<Row>, waiting: nat, room: nat, fits: bool)
    requires waiting <= |out| && SameRows(outTail, shownTail)
    requires Holds(LastRows(shown, waiting + room), out[|out| - waiting..]) <==> fits
    requires Holds(shown, out[|out| - waiting..])
    ensures TailHolds(above + (shown + shownTail), before + (out + outTail), waiting + |outTail|, room) <==> fits
  {
    OutEnds(before, out, outTail, waiting);
    ShownEnds(above, shown, shownTail, waiting + room, out[|out| - waiting..], outTail);
    assert waiting + |outTail| + room == waiting + room + |shownTail|;
  }

  lemma LastEntryRestores(before: seq<Row>, above: seq<Row>, entry: Entry, outTail: seq<Row>, shownTail: seq<Row>,
        waiting: nat, room: nat)
    requires |entry.top| <= 1 && waiting <= |RowsOut(entry)| && SameRows(outTail, shownTail)
    ensures TailHolds(above + (RowsShown(entry) + shownTail), before + (RowsOut(entry) + outTail), waiting + |outTail|,
        room)
      <==> SummaryFits(entry, |RowsOut(entry)| - waiting, room)
  {
    var q := |RowsOut(entry)| - waiting;
    EntryRestores(entry, q, room);
    AllOfItHolds(entry, q);
    PieceRestores(before, above, RowsOut(entry), RowsShown(entry), outTail, shownTail, waiting, room,
      SummaryFits(entry, q, room));
  }

  function AllShown(entries: seq<Entry>): seq<Row> {
    if entries == [] then [] else AllShown(entries[..|entries| - 1]) + RowsShown(entries[|entries| - 1])
  }

  ghost predicate SingleTops(entries: seq<Entry>) {
    forall i :: 0 <= i < |entries| ==> |entries[i].top| <= 1
  }

  lemma SplitLast(front: seq<Row>, last: seq<Row>, tail: seq<Row>)
    ensures front + last + tail == front + (last + tail)
  {}

  /** Rows of the open run wait behind every cell. */
  lemma OpenHeadIsRestored(since: seq<Entry>, flushed: seq<Row>, n: nat, room: nat)
    requires n <= |flushed|
    ensures Holds(LastRows(AllShown(since) + flushed, n + room), LastRows(flushed, n))
  {
    var shown := AllShown(since) + flushed;
    LastWithin(AllShown(since), flushed, n);
    LastRowsAre(shown, n);
    SuffixHolds(shown, |shown| - n, room);
  }

  /** With none of its rows waiting, no cell is cut into. */
  lemma NothingIsCutInto(since: seq<Entry>, room: nat)
    requires SingleTops(since)
    ensures Restored(since, 0, room)
  {}

  lemma BehindIsTheSame(entry: Entry, outTail: seq<Row>, shownTail: seq<Row>)
    requires SameRows(outTail, shownTail)
    ensures SameRows(RowsOut(entry) + outTail, RowsShown(entry) + shownTail)
  {
    SwappedIsTheSame(entry.early, entry.top, entry.rest);
    forall row ensures Count(RowsOut(entry) + outTail, row) == Count(RowsShown(entry) + shownTail, row) {
      CountAdds(RowsOut(entry), outTail, row);
      CountAdds(RowsShown(entry), shownTail, row);
    }
  }

  /** The rows of a conversation with some behind them, the last entry's taken to those. */
  lemma SplitEntries(entries: seq<Entry>, outTail: seq<Row>, shownTail: seq<Row>)
    requires entries != []
    ensures var front, last := entries[..|entries| - 1], entries[|entries| - 1];
      && AllOut(entries) + outTail == AllOut(front) + (RowsOut(last) + outTail)
      && AllShown(entries) + shownTail == AllShown(front) + (RowsShown(last) + shownTail)
      && |AllOut(entries)| == |AllOut(front)| + |RowsOut(last)|
  {
    var front, last := entries[..|entries| - 1], entries[|entries| - 1];
    SplitLast(AllOut(front), RowsOut(last), outTail);
    SplitLast(AllShown(front), RowsShown(last), shownTail);
  }

  /** What the theorem below says of one conversation and some rows behind it. */
  ghost predicate TailDecided(entries: seq<Entry>, outTail: seq<Row>, shownTail: seq<Row>, waiting: nat, room: nat) {
    TailHolds(AllShown(entries) + shownTail, AllOut(entries) + outTail, waiting + |outTail|, room) <==>
    Restored(entries, waiting, room)
  }

  lemma WaitingEarlier(entries: seq<Entry>, outTail: seq<Row>, shownTail: seq<Row>, waiting: nat, room: nat)
    requires entries != []
    requires var front, last := entries[..|entries| - 1], entries[|entries| - 1];
      waiting > |RowsOut(last)| &&
      TailDecided(front, RowsOut(last) + outTail, RowsShown(last) + shownTail, waiting - |RowsOut(last)|, room)
    ensures TailDecided(entries, outTail, shownTail, waiting, room)
  {
    SplitEntries(entries, outTail, shownTail);
    var last := entries[|entries| - 1];
    assert waiting - |RowsOut(last)| + |RowsOut(last) + outTail| == waiting + |outTail|;
  }

  lemma WaitingInTheLast(entries: seq<Entry>, outTail: seq<Row>, shownTail: seq<Row>, waiting: nat, room: nat)
    requires entries != [] && |entries[|entries| - 1].top| <= 1 && SameRows(outTail, shownTail)
    requires waiting <= |RowsOut(entries[|entries| - 1])|
    ensures TailDecided(entries, outTail, shownTail, waiting, room)
  {
    var front, last := entries[..|entries| - 1], entries[|entries| - 1];
    LastEntryRestores(AllOut(front), AllShown(front), last, outTail, shownTail, waiting, room);
    assert Restored(entries, waiting, room) == SummaryFits(last, |RowsOut(last)| - waiting, room);
    assert TailHolds(AllShown(entries) + shownTail, AllOut(entries) + outTail, waiting + |outTail|, room) ==
      SummaryFits(last, |RowsOut(last)| - waiting, room) by {
      SplitEntries(entries, outTail, shownTail);
    }
  }

  lemma {:induction false} TailRestores(entries: seq<Entry>, outTail: seq<Row>, shownTail: seq<Row>, waiting: nat,
        room: nat)
    requires SingleTops(entries) && waiting <= |AllOut(entries)| && SameRows(outTail, shownTail)
    ensures TailDecided(entries, outTail, shownTail, waiting, room)
    decreases |entries|
  {
    if entries == [] {
      TailOfNothing(outTail, shownTail, room);
    } else {
      var last := entries[|entries| - 1];
      if waiting > |RowsOut(last)| {
        BehindIsTheSame(last, outTail, shownTail);
        TailRestores(entries[..|entries| - 1], RowsOut(last) + outTail, RowsShown(last) + shownTail,
          waiting - |RowsOut(last)|, room);
        WaitingEarlier(entries, outTail, shownTail, waiting, room);
      } else {
        WaitingInTheLast(entries, outTail, shownTail, waiting, room);
      }
    }
  }

  lemma TailOfNothing(outTail: seq<Row>, shownTail: seq<Row>, room: nat)
    requires SameRows(outTail, shownTail)
    ensures TailHolds(AllShown([]) + shownTail, AllOut([]) + outTail, |outTail|, room)
  {
    var none: seq<Entry> := [];
    assert AllOut(none) + outTail == outTail && AllShown(none) + shownTail == shownTail;
    LastRowsAre(outTail, |outTail|);
    LastRowsAre(shownTail, |outTail| + room);
  }

  lemma {:induction false} AllShownIsDisplayed(entries: seq<Entry>)
    requires AllWellFormed(entries)
    ensures AllShown(entries) == DisplayAll(CellsOf(entries)) && SingleTops(entries)
    ensures |AllShown(entries)| == |AllOut(entries)|
  {
    if entries != [] {
      var front, last := entries[..|entries| - 1], entries[|entries| - 1];
      AllShownIsDisplayed(front);
      assert entries == front + [last];
      OneMoreCell(front, last);
      DisplayAllMore(CellsOf(front), last.cell);
    }
  }

  lemma {:induction false} AllOutConcat(a: seq<Entry>, b: seq<Entry>)
    ensures AllOut(a + b) == AllOut(a) + AllOut(b)
    decreases |b|
  {
    if b == [] {
      assert a + b == a;
    } else {
      var front, last := b[..|b| - 1], b[|b| - 1];
      AllOutConcat(a, front);
      assert b == front + [last];
      Assoc(a, front, [last]);
      OneMoreEntry(a + front, last);
      OneMoreEntry(front, last);
      Assoc(AllOut(a), AllOut(front), RowsOut(last));
    }
  }

  lemma SuffixesAgree(front: seq<Row>, shown: seq<Row>, out: seq<Row>, pending: seq<Row>)
    requires front + shown == out + pending && |pending| <= |shown|
    ensures LastRows(shown, |pending|) == pending
  {
    var whole := front + shown;
    assert shown == whole[|front|..];
    assert pending == whole[|out|..];
    assert shown[|shown| - |pending|..] == whole[|whole| - |pending|..];
    LastRowsAre(shown, |pending|);
  }

  /** What is on screen of the conversation: the display of its cells, and the head of the open run. */
  function Shown(s: State): seq<Row> {
    DisplayAll(s.committed) + s.flushed
  }

  /** The rows waiting that belong to committed cells. */
  function WaitingOfCells(s: State): nat {
    if |s.pending| > |s.flushed| then |s.pending| - |s.flushed| else 0
  }

  lemma WaitingRowsAreTheLast(w: Widget)
    requires Sound(w) && |w.s.pending| <= |Shown(w.s)|
    ensures w.s.pending == LastRows(AllOut(Since(w.told)) + w.s.flushed, |w.s.pending|)
    ensures Shown(w.s) == AllShown(Since(w.told)) + w.s.flushed && SingleTops(Since(w.told))
    ensures |w.s.pending| <= |AllOut(Since(w.told))| + |w.s.flushed|
  {
    var before, since := w.told.entries[..w.told.left], Since(w.told);
    assert w.told.entries == before + since;
    AllShownIsDisplayed(since);
    AllOutConcat(before, since);
    Assoc(AllOut(before), AllOut(since), w.s.flushed);
    SuffixesAgree(AllOut(before), AllOut(since) + w.s.flushed, w.told.out, w.s.pending);
  }

  /** The tail written again, with `room` rows asked for beside the ones that wait, has every waiting row. */
  ghost predicate DiscardIsSafe(s: State, room: nat) {
    multiset(s.pending) <= multiset(LastRows(Shown(s), |s.pending| + room))
  }

  lemma TailIsRestored(since: seq<Entry>, flushed: seq<Row>, n: nat, room: nat)
    requires SingleTops(since) && n <= |AllOut(since)| + |flushed|
    ensures TailHolds(AllShown(since) + flushed, AllOut(since) + flushed, n, room)
      <==> Restored(since, if n > |flushed| then n - |flushed| else 0, room)
  {
    if n <= |flushed| {
      LastWithin(AllOut(since), flushed, n);
      OpenHeadIsRestored(since, flushed, n, room);
      NothingIsCutInto(since, room);
    } else {
      TailRestores(since, flushed, flushed, n - |flushed|, room);
    }
  }

  lemma TailHoldsWaiting(w: Widget, room: nat)
    requires Sound(w) && |w.s.pending| <= |Shown(w.s)|
    ensures Holds(LastRows(Shown(w.s), |w.s.pending| + room), w.s.pending) <==>
      Restored(Since(w.told), WaitingOfCells(w.s), room)
  {
    var since := Since(w.told);
    WaitingRowsAreTheLast(w);
    TailIsRestored(since, w.s.flushed, |w.s.pending|, room);
    assert TailHolds(Shown(w.s), AllOut(since) + w.s.flushed, |w.s.pending|, room) <==>
      Holds(LastRows(Shown(w.s), |w.s.pending| + room), w.s.pending);
  }

  lemma DiscardIsSafeIn(w: Widget, room: nat)
    requires Sound(w)
    ensures DiscardIsSafe(w.s, room) <==>
      |w.s.pending| <= |Shown(w.s)| && Restored(Since(w.told), WaitingOfCells(w.s), room)
  {
    var tail := LastRows(Shown(w.s), |w.s.pending| + room);
    HoldsIsSubset(tail, w.s.pending);
    assert DiscardIsSafe(w.s, room) <==> Holds(tail, w.s.pending);
    if |w.s.pending| <= |Shown(w.s)| {
      TailHoldsWaiting(w, room);
    } else {
      FewerCannotHold(tail, w.s.pending);
    }
  }

  /**
   When discarding is safe, in any run: a screen written again with `room` rows to spare has every waiting
   row, as often as it waits, exactly when no more rows wait than the conversation shows, and the fold the
   waiting rows start in, if its summary waits, has its gone early rows fit the room. After a change of
   conversation rows of the one before may still wait, and discarding loses them.
   */
  lemma DiscardIsSafeIff(looks: Looks, header: string, moves: seq<Move>, room: nat)
    ensures var w := Run(looks, header, moves);
      DiscardIsSafe(w.s, room) <==>
        |w.s.pending| <= |Shown(w.s)| && Restored(Since(w.told), WaitingOfCells(w.s), room)
  {
    RunIsSound(looks, header, moves);
    DiscardIsSafeIn(Run(looks, header, moves), room);
  }

  lemma OneLetterHeader()
    ensures BlockRows("h") == ["h"]
  {
    assert "h"[1..] == "" && "" + ["h"[0]] == "h";
    assert Settle([], "", "h") == Settle([], "h", "") == ([], "h");
  }

  /** The state of a prompt that has only its header moves on, by way of a rule, to nothing but rows waiting. */
  lemma ReopenedEmpty(looks: Looks, w: Widget)
    requires w == Added(NEW, Plain(["h"]))
    ensures var s := ReopenedOver(looks, w, "", []).s;
      s.pending == ["h", "", looks.rule(1)] && s.committed == [Plain([])] && s.flushed == []
  {
    assert w.s.pending == ["h"];
    var ruled := Ruled(looks, w);
    assert ruled.s.pending == ["h", "", looks.rule(1)];
    var reopened := Added(ruled, Plain([]));
    assert reopened.s.pending == ruled.s.pending && reopened.s.committed == [Plain([])];
  }

  /** Such rows exist: a prompt that opens on "h" and moves at once to a conversation with an empty header. */
  lemma DiscardAfterReopenLosesRows(looks: Looks)
    ensures var s := Run(looks, "h", [Reopened("", [])]).s;
      s.pending == ["h", "", looks.rule(1)] && Shown(s) == []
  {
    OneLetterHeader();
    var header := Added(NEW, Plain(["h"]));
    var moves := [Reopened("", [])];
    assert moves[..0] == [] && Run(looks, "h", []) == header;
    assert Run(looks, "h", moves) == ReopenedOver(looks, header, "", []);
    ReopenedEmpty(looks, header);
    assert DisplayAll([Plain([])]) == [];
  }

  /**
   A fold that put its head out early waits with its summary, which its display has above that head: a
   screen written again shows the summary exactly when the part of the head that no longer waits fits the
   room asked for beside the rows that do, or a row just like it is among those written.
   */
  lemma ClosedFoldNeedsRoom(w: Widget, summary: Row, expanded: bool, room: nat)
    requires w.s.flushed != []
    ensures var after := FoldCommitted(w, summary, expanded, true).s;
      var wanted := |after.pending| + room;
      && summary in after.pending
      && (summary in LastRows(Shown(after), wanted) <==>
            || |w.s.flushed| <= |w.s.pending| + room
            || summary in LastRows(w.s.flushed + Ended(w).s.stream.lines, wanted))
  {
    var head, rest := w.s.flushed, Ended(w).s.stream.lines;
    var after := FoldCommitted(w, summary, expanded, true).s;
    var cell := FoldedCell(summary, head + rest, true);
    DisplayAllMore(w.s.committed, cell);
    var above := DisplayAll(w.s.committed);
    assert after.committed == w.s.committed + [cell] && Shown(after) == above + ([summary] + (head + rest));
    FoldLeavesItsSummary(summary, head, rest);
    assert after.pending == w.s.pending + ([summary] + rest);
    assert after.pending[|w.s.pending|] == summary;
    SummaryIsIn(above, summary, head, rest, |w.s.pending| + room);
  }

  lemma FoldLeavesItsSummary(summary: Row, head: seq<Row>, rest: seq<Row>)
    ensures Outside([summary] + (head + rest), 1, 1 + |head|) == [summary] + rest
  {}

  lemma SummaryIsIn(above: seq<Row>, summary: Row, head: seq<Row>, rest: seq<Row>, room: nat)
    ensures summary in LastRows(above + ([summary] + (head + rest)), 1 + |rest| + room) <==>
        room >= |head| || summary in LastRows(head + rest, 1 + |rest| + room)
  {
    var shown, wanted := above + ([summary] + (head + rest)), 1 + |rest| + room;
    LastRowsAre(shown, wanted);
    LastRowsAre(head + rest, wanted);
    var last := LastRows(shown, wanted);
    if room >= |head| {
      assert shown[|above|] == summary && last[|above| + |last| - |shown|] == summary;
    } else {
      assert last == LastRows(head + rest, wanted);
    }
  }

  // ------------------------------------------------------------- the widget itself

  class StreamController {
    var lines: seq<Row>
    var tail: string
    var atLineStart: bool

    function Now(): Stream
      reads this
    {
      Stream(lines, tail, atLineStart)
    }

    constructor ()
      ensures Now() == NOTHING
    {
      lines, tail, atLineStart := [], "", true;
    }

    method Push(looks: Looks, text: string, depth: nat)
      modifies this
      ensures Now() == Pushed(looks, old(Now()), text, depth)
    {
      if text == "" {
        return;
      }
      var rest := looks.prepare(text, depth, Now());
      atLineStart := looks.endsLine(rest);
      ghost var whole := Settle(lines, tail, rest);
      while true
        invariant Settle(lines, tail, rest) == whole
        invariant atLineStart == old(looks.endsLine(looks.prepare(text, depth, Now())))
        decreases |rest|
      {
        var at := Position(rest, (c: char) => c == '\n');
        if at.None? {
          SettleNoNewline(lines, tail, rest);
          tail := tail + rest;
          return;
        }
        SettleToNewline(lines, tail, rest, at.value);
        lines, tail := lines + [tail + rest[..at.value]], "";
        rest := rest[at.value + 1..];
      }
    }

    method EndLine()
      modifies this
      ensures Now() == LineClosed(old(Now()))
    {
      if atLineStart && tail == "" {
        return;
      }
      lines, tail, atLineStart := lines + [tail], "", true;
    }

    method PushLine(looks: Looks, text: string)
      modifies this
      ensures Now() == LinePushed(looks, old(Now()), text)
    {
      EndLine();
      lines := lines + Split(StripNewline(looks.controls(text)));
    }

    /** The settled lines, less the last `keep`. */
    method TakeSettled(keep: nat) returns (taken: seq<Row>)
      modifies this`lines
      ensures taken + lines == old(lines) && |taken| == Ready(old(Now()), keep)
    {
      if |lines| <= keep {
        return [];
      }
      taken := lines[..|lines| - keep];
      lines := lines[|lines| - keep..];
    }

    /** Everything, the open line closed first. */
    method TakeAll() returns (taken: seq<Row>)
      modifies this
      ensures taken == LineClosed(old(Now())).lines && Now() == NOTHING
    {
      EndLine();
      taken := lines;
      lines := [];
    }
  }

  lemma {:induction false} SettleNoNewline(lines: seq<Row>, tail: string, text: string)
    requires '\n' !in text
    ensures Settle(lines, tail, text) == (lines, tail + text)
    decreases |text|
  {
    if text == "" {
      assert tail + text == tail;
    } else {
      SettleNoNewline(lines, tail + [text[0]], text[1..]);
      assert tail + [text[0]] + text[1..] == tail + text;
    }
  }

  lemma {:induction false} SettleToNewline(lines: seq<Row>, tail: string, text: string, at: nat)
    requires at < |text| && text[at] == '\n' && forall i :: 0 <= i < at ==> text[i] != '\n'
    ensures Settle(lines, tail, text) == Settle(lines + [tail + text[..at]], "", text[at + 1..])
    decreases at
  {
    if at == 0 {
      assert tail + text[..0] == tail;
    } else {
      SettleToNewline(lines, tail + [text[0]], text[1..], at - 1);
      assert tail + [text[0]] + text[1..][..at - 1] == tail + text[..at];
      assert text[1..][at..] == text[at + 1..];
    }
  }

  class ChatWidget {
    const looks: Looks
    const stream: StreamController
    var active: Option<Active>
    var committed: seq<Cell>
    var pending: seq<Row>
    var flushed: seq<Row>
    var defaults: Defaults
    var thinking: Option<int>
    var replaying: bool
    var width: nat
    var height: nat
    ghost var told: Told

    ghost function Now(): Widget
      reads this, stream
    {
      Widget(
        State(stream.Now(), active, committed, pending, flushed, defaults, thinking, replaying, width, height), told)
    }

    constructor (looks: Looks)
      ensures Now() == NEW && fresh(stream) && this.looks == looks
    {
      this.looks := looks;
      stream := new StreamController();
      active, committed, pending, flushed, defaults := None, [], [], [], FOLDED;
      thinking, replaying, width, height := None, false, 0, 0;
      told := NEW.told;
    }

    /** What the open run said, and how many of its rows are out. */
    method TakeRun() returns (lines: seq<Row>, written: nat)
      modifies this, stream
      ensures lines == Ended(old(Now())).s.flushed + Ended(old(Now())).s.stream.lines && written == |old(flushed)|
      ensures Now() == Taken(Ended(old(Now())))
    {
      lines, written := flushed, |flushed|;
      flushed := [];
      ghost var before := stream.lines;
      var rest := stream.TakeAll();
      told := told.(settled := told.settled + rest[|before|..]);
      lines := lines + rest;
    }

    method CommitRest(cell: Cell, from: nat, to: nat)
      requires from <= to <= |cell.display|
      modifies this
      ensures Now() == Committed(old(Now()), cell, from, to)
    {
      pending := pending + cell.display[..from] + cell.display[to..];
      assert old(pending) + cell.display[..from] + cell.display[to..] == old(pending) + Outside(cell.display, from, to);
      committed := committed + [cell];
      told := told.(entries := told.entries + [EntryOf(cell, from, to)]);
    }

    /** A summary over the run's body. */
    method CommitFold(summary: Row, expanded: bool, always: bool)
      modifies this, stream
      ensures Now() == FoldCommitted(old(Now()), summary, expanded, always)
    {
      var body, written := TakeRun();
      if body == [] && !always {
        return;
      }
      CommitRest(FoldedCell(summary, body, expanded || written > 0), 1, 1 + written);
    }

    method CommitAnswer()
      modifies this, stream
      ensures Now() == AnswerCommitted(old(Now()))
    {
      var lines, written := TakeRun();
      if lines != [] {
        CommitRest(AssistantCell(lines), 0, written);
      }
    }

    /** Ends the open run, if there is one, on the fields. */
    method FinishActive()
      modifies this, stream
      ensures Now() == Finished(looks, old(Now()))
    {
      var finishing := active;
      active := None;
      if finishing.None? || finishing.value.Answer? {
        CommitAnswer();
      } else if finishing.value.Reasoning? {
        var summary := looks.summary(thinking, finishing.value.since, finishing.value.elapsed, replaying);
        CommitFold(summary, defaults.reasoning == Expanded, false);
      } else {
        CommitFold(finishing.value.summary, !defaults.tools, true);
      }
    }

    /** A finished cell after whatever was arriving. */
    method FinishAndCommit(cell: Cell)
      modifies this, stream
      ensures Now() == Added(Finished(looks, old(Now())), cell)
    {
      FinishActive();
      CommitRest(cell, 0, 0);
    }

    method Echo(content: string)
      modifies this, stream
      ensures Now() == Echoing(looks, old(Now()), content)
    {
      FinishAndCommit(UserCell(UserRows(looks, content)));
    }

    method CloseReasoning()
      modifies this, stream
      ensures Now() == EndReasoning(looks, old(Now()))
    {
      var since, elapsed := 0, None;
      if active.Some? && active.value.Reasoning? {
        since, elapsed := active.value.since, active.value.elapsed;
      }
      var summary := looks.summary(thinking, since, elapsed, replaying);
      active := None;
      CommitFold(summary, defaults.reasoning == Expanded, false);
    }

    method CloseTool()
      modifies this, stream
      ensures Now() == EndTool(old(Now()))
    {
      var summary := "";
      if active.Some? && active.value.Tool? {
        summary := active.value.summary;
        active := None;
      }
      CommitFold(summary, !defaults.tools, true);
    }

    method Hear(text: string, depth: nat)
      modifies this, stream
      ensures Now() == Heard(old(Now()), Pushed(looks, old(Now()).s.stream, text, depth))
    {
      ghost var before := stream.lines;
      stream.Push(looks, text, depth);
      told := told.(settled := told.settled + stream.lines[|before|..]);
    }

    method HearLine(text: string)
      modifies this, stream
      ensures Now() == Heard(old(Now()), LinePushed(looks, old(Now()).s.stream, text))
    {
      ghost var before := stream.lines;
      stream.PushLine(looks, text);
      told := told.(settled := told.settled + stream.lines[|before|..]);
    }

    method SettleLine()
      modifies this, stream
      ensures Now() == Heard(old(Now()), LineClosed(old(Now()).s.stream))
    {
      ghost var before := stream.lines;
      stream.EndLine();
      told := told.(settled := told.settled + stream.lines[|before|..]);
    }

    method Start(next: Active)
      modifies this, stream
      ensures Now() == Open(Finished(looks, old(Now())), next)
    {
      FinishActive();
      active := Some(next);
    }

    method HandleEvent(event: Event)
      modifies this, stream
      ensures Now() == Handled(looks, old(Now()), event)
    {
      match event
      case AssistantDelta(text, depth) =>
        if active.None? {
          active := Some(Answer);
        }
        Hear(text, depth);
      case ReasoningDelta(text, depth) => Hear(text, depth);
      case LineEnded => SettleLine();
      case ReasoningStart(elapsed) => Start(Reasoning(if thinking.Some? then thinking.value else 0, elapsed));
      case ReasoningEnd => CloseReasoning();
      case ToolBodyStart(summary) => Start(Tool(looks.trimmed(summary)));
      case ToolBodyEnd => CloseTool();
      case Line(echo, text) =>
        if echo {
          Echo(text);
        } else if active.Some? && active.value.Tool? {
          HearLine(text);
        } else {
          FinishAndCommit(Plain(BlockRows(looks.controls(text))));
        }
      case Tasks =>
      case Stats(text) =>
        FinishActive();
        CommitRest(StatsCell(text, !defaults.stats), 0, 0);
    }

    method HandleEvents(events: seq<Event>)
      modifies this, stream
      ensures Now() == AllHandled(looks, old(Now()), events)
    {
      assert events[..0] == [];
      for i := 0 to |events|
        invariant Now() == AllHandled(looks, old(Now()), events[..i])
      {
        HandleEvent(events[i]);
        assert events[..i + 1][..i] == events[..i];
      }
      assert events[..|events|] == events;
    }

    method Replay(history: seq<Event>)
      modifies this, stream
      ensures Now() == ReplayedOver(looks, old(Now()), history)
    {
      replaying := true;
      HandleEvents(history);
      FinishActive();
      replaying := false;
    }

    method OpenWithHeader(header: string)
      modifies this
      ensures Now() == Added(old(Now()), Plain(BlockRows(header)))
    {
      CommitRest(Plain(BlockRows(header)), 0, 0);
    }

    /** A conversation opened over this one, on the fields. */
    method Reopen(header: string, history: seq<Event>)
      modifies this, stream
      ensures Now() == ReopenedOver(looks, old(Now()), header, history)
    {
      FinishAndCommit(DividerCell(looks.rule(AtLeastOne(width))));
      committed := [];
      told := told.(left := |told.entries|);
      OpenWithHeader(header);
      Replay(history);
    }

    method FlushSettled(keep: nat)
      modifies this, stream
      ensures Now() == Flush(old(Now()), keep)
    {
      var taken := stream.TakeSettled(keep);
      TakenIsAPrefix(old(stream.lines), taken, stream.lines);
      pending, flushed := pending + taken, flushed + taken;
    }

    /** A long run goes to the scrollback as it is written: the oldest settled lines, once the area is full. */
    method LiveRows()
      modifies this, stream
      ensures Now() ==
        if IsFull(looks, old(Now()).s) then Flush(old(Now()), AtLeastOne(Cap(old(Now()).s) - 1)) else old(Now())
    {
      var cap := AtLeastOne(height / 2);
      var flushes := active.None? || active.value.Answer?
        || (active.value.Reasoning? && defaults.reasoning == Expanded) || (active.value.Tool? && !defaults.tools);
      if Height(looks, stream.Now(), AtLeastOne(width)) > cap && flushes {
        FlushSettled(AtLeastOne(cap - 1));
      }
    }

    /** One layout of the live area. */
    method Layout()
      modifies this, stream
      ensures Now() == Redrawn(looks, old(Now()))
    {
      if height < MIN_ROWS || width < MIN_COLUMNS {
        return;
      }
      if !(active.Some? && active.value.Reasoning?) || defaults.reasoning == Expanded {
        LiveRows();
      }
    }

    method DrainHistory() returns (rows: seq<Row>)
      modifies this
      ensures rows == old(pending) && Now() == Drained(old(Now()))
    {
      rows := pending;
      told := told.(out := told.out + pending);
      pending := [];
    }

    method DiscardHistory() returns (dropped: nat)
      modifies this
      ensures dropped == |old(pending)| && Now() == Drained(old(Now()))
    {
      dropped := |pending|;
      told := told.(out := told.out + pending);
      pending := [];
    }

    method EndTurn()
      modifies this, stream
      ensures Now() == EndOfTurn(looks, old(Now()))
    {
      FinishActive();
      thinking := None;
    }

    /** From the newest cell back until `rows` are found, after the open run's head. */
    method HistoryTail(rows: nat) returns (tail: seq<Row>)
      ensures tail == LastRows(DisplayAll(committed) + flushed, rows)
    {
      tail := flushed;
      var i := |committed|;
      assert committed[i..] == [] && DisplayAll([]) + flushed == flushed;
      while i > 0 && |tail| < rows
        invariant 0 <= i <= |committed| && tail == DisplayAll(committed[i..]) + flushed
      {
        i := i - 1;
        assert committed[i..] == [committed[i]] + committed[i + 1..];
        Assoc(committed[i].display, DisplayAll(committed[i + 1..]), flushed);
        tail := committed[i].display + tail;
      }
      TailOfAll(committed, i, flushed, rows);
      LastRowsAre(tail, rows);
      if |tail| > rows {
        tail := tail[|tail| - rows..];
      }
    }
  }

  lemma TakenIsAPrefix(lines: seq<Row>, taken: seq<Row>, rest: seq<Row>)
    requires taken + rest == lines
    ensures taken == lines[..|taken|] && rest == lines[|taken|..]
  {}

  lemma {:induction false} DisplayAllFrom(cells: seq<Cell>, i: nat)
    requires i <= |cells|
    ensures DisplayAll(cells) == DisplayAll(cells[..i]) + DisplayAll(cells[i..])
    decreases i
  {
    if i == 0 {
      assert cells[..0] == [] && cells[0..] == cells;
    } else {
      DisplayAllFrom(cells[1..], i - 1);
      assert cells[..i][1..] == cells[1..][..i - 1] && cells[1..][i - 1..] == cells[i..];
      Assoc(cells[0].display, DisplayAll(cells[1..][..i - 1]), DisplayAll(cells[i..]));
    }
  }

  /** Cells above the ones that fill the rows asked for change nothing. */
  lemma TailOfAll(cells: seq<Cell>, i: nat, flushed: seq<Row>, rows: nat)
    requires i <= |cells| && (i == 0 || |DisplayAll(cells[i..]) + flushed| >= rows)
    ensures LastRows(DisplayAll(cells) + flushed, rows) == LastRows(DisplayAll(cells[i..]) + flushed, rows)
  {
    if i == 0 {
      assert cells[0..] == cells;
    } else {
      DisplayAllFrom(cells, i);
      Assoc(DisplayAll(cells[..i]), DisplayAll(cells[i..]), flushed);
      LastOfMore(DisplayAll(cells[..i]), DisplayAll(cells[i..]) + flushed, rows);
    }
  }

  lemma LastOfMore(front: seq<Row>, shown: seq<Row>, rows: nat)
    requires |shown| >= rows
    ensures LastRows(front + shown, rows) == LastRows(shown, rows)
  {
    LastWithin(front, shown, rows);
  }
}
