/**
 What a terminal shows, as a reader would keep it (crates/cli/src/chat_widget.rs, stream.rs, history_cell.rs): a
 page of blocks and one open run, with nothing waiting to be written and nothing split between what is out and what
 is not. Every move of the widget is that move of its page.
 */
module ScrollbackPages {
  import opened Common
  import opened Scrollback

  /** A block of the transcript: how it is shown, all of it, and what went out before and after it was complete. */
  datatype Block = Block(shown: seq<Row>, whole: seq<Row>, early: seq<Row>, late: seq<Row>)

  /** The blocks so far, and the open run: its ended lines, of which the first `early` are out, and its last line. */
  datatype Page = Page(
    blocks: seq<Block>, left: nat, kind: Option<Active>, lines: seq<Row>, early: nat, tail: string, atLineStart: bool,
    defaults: Defaults, thinking: Option<int>, replaying: bool, width: nat, height: nat)

  // ------------------------------------------------------------- text and lines

  /** The lines of a text, and what is left after its last newline. */
  function Cut(text: string): (seq<Row>, string) {
    match Position(text, c => c == '\n')
    case None => ([], text)
    case Some(at) => var (lines, open) := Cut(text[at + 1..]); ([text[..at]] + lines, open)
  }

  /** The same with `tail` before the text. */
  function CutAfter(tail: string, text: string): (seq<Row>, string) {
    var (lines, open) := Cut(text);
    if lines == [] then ([], tail + open) else ([tail + lines[0]] + lines[1..], open)
  }

  /** All of a text's lines, the last one whether or not it ended. */
  function LinesIn(text: string): seq<Row> {
    var ended := if text != "" && text[|text| - 1] == '\n' then text[..|text| - 1] else text;
    var (lines, open) := Cut(ended);
    lines + [open]
  }

  function NonEmptyLinesIn(text: string): seq<Row> {
    if text == "" then [] else LinesIn(text)
  }

  // ------------------------------------------------------------- the open run

  /** The lines of the run that went out before it was complete. */
  function AlreadyOut(p: Page): seq<Row> {
    if p.early <= |p.lines| then p.lines[..p.early] else p.lines
  }

  function NotOut(p: Page): seq<Row> {
    if p.early <= |p.lines| then p.lines[p.early..] else []
  }

  /** The line a run is in ends. */
  function LineEnds(p: Page): Page {
    if p.atLineStart && p.tail == "" then p else p.(lines := p.lines + [p.tail], tail := "", atLineStart := true)
  }

  /** The run goes on with `text`. */
  function Goes(looks: Looks, p: Page, text: string, depth: nat): Page {
    if text == "" then p
    else
      var body := looks.prepare(text, depth, Stream(NotOut(p), p.tail, p.atLineStart));
      var (lines, open) := CutAfter(p.tail, body);
      p.(lines := p.lines + lines, tail := open, atLineStart := looks.endsLine(body))
  }

  function NoRun(p: Page): Page {
    p.(kind := None, lines := [], early := 0, tail := "", atLineStart := true)
  }

  /** An answer is shown as it stands; one that said nothing leaves nothing. */
  function AsAnswer(p: Page): Page {
    if p.lines == [] then NoRun(p)
    else
      var block := Block(p.lines, p.lines, AlreadyOut(p), NotOut(p));
      NoRun(p).(blocks := p.blocks + [block])
  }

  /** A run folded under its summary: open when it arrives open, or when some of it is out already. */
  function AsFold(p: Page, summary: Row, arrivesOpen: bool, evenEmpty: bool): Page {
    if p.lines == [] && !evenEmpty then NoRun(p)
    else
      var isOpen := arrivesOpen || p.early > 0;
      var block := Block(
        [summary] + if isOpen then p.lines else [], [summary] + p.lines, AlreadyOut(p),
        [summary] + if isOpen then NotOut(p) else []);
      NoRun(p).(blocks := p.blocks + [block])
  }

  function ReasoningEnds(looks: Looks, p: Page, since: int, elapsed: Option<nat>): Page {
    AsFold(p, looks.summary(p.thinking, since, elapsed, p.replaying), p.defaults.reasoning == Expanded, false)
  }

  /** Whatever run is open is complete. */
  function RunEnds(looks: Looks, p: Page): Page {
    var ended := LineEnds(p);
    match p.kind
    case Some(Reasoning(since, elapsed)) => ReasoningEnds(looks, ended, since, elapsed)
    case Some(Tool(summary)) => AsFold(ended, summary, !p.defaults.tools, true)
    case _ => AsAnswer(ended)
  }

  /** A block that was complete when it came. */
  function Adds(p: Page, shown: seq<Row>, whole: seq<Row>): Page {
    p.(blocks := p.blocks + [Block(shown, whole, [], shown)])
  }

  /** One that is shown as it is. */
  function AddsAll(p: Page, rows: seq<Row>): Page {
    Adds(p, rows, rows)
  }

  /** What the user said, after an empty row, with a caret before its first line. */
  function Quoted(looks: Looks, content: string): seq<Row> {
    var (lines, open) := Cut(looks.controls(content));
    var all := lines + [open];
    ["", looks.caret + " " + all[0]] + seq(|all| - 1, i requires 0 <= i < |all| - 1 => "  " + all[i + 1])
  }

  function Says(looks: Looks, p: Page, content: string): Page {
    AddsAll(RunEnds(looks, p), Quoted(looks, content))
  }

  /** A line of its own, or one more of a tool's output. */
  function Notes(looks: Looks, p: Page, text: string): Page {
    if p.kind.Some? && p.kind.value.Tool? then
      var ended := LineEnds(p);
      ended.(lines := ended.lines + LinesIn(looks.controls(text)))
    else
      AddsAll(RunEnds(looks, p), NonEmptyLinesIn(looks.controls(text)))
  }

  // ------------------------------------------------------------- events and moves

  function Hears(looks: Looks, p: Page, event: Event): Page {
    match event
    case AssistantDelta(text, depth) => Goes(looks, if p.kind.None? then p.(kind := Some(Answer)) else p, text, depth)
    case ReasoningDelta(text, depth) => Goes(looks, p, text, depth)
    case LineEnded => LineEnds(p)
    case ReasoningStart(elapsed) =>
      RunEnds(looks, p).(kind := Some(Reasoning(if p.thinking.Some? then p.thinking.value else 0, elapsed)))
    case ReasoningEnd =>
      if p.kind.Some? && p.kind.value.Reasoning? then RunEnds(looks, p) else ReasoningEnds(looks, LineEnds(p), 0, None)
    case ToolBodyStart(summary) => RunEnds(looks, p).(kind := Some(Tool(looks.trimmed(summary))))
    case ToolBodyEnd =>
      if p.kind.Some? && p.kind.value.Tool? then RunEnds(looks, p)
      else AsFold(LineEnds(p), "", !p.defaults.tools, true).(kind := p.kind)
    case Line(echo, text) => if echo then Says(looks, p, text) else Notes(looks, p, text)
    case Tasks => p
    case Stats(text) => Adds(RunEnds(looks, p), if p.defaults.stats then [] else [text], [text])
  }

  function HearsAll(looks: Looks, p: Page, events: seq<Event>): (r: Page) {
    if events == [] then p
    else
      var before := HearsAll(looks, p, events[..|events| - 1]);
      Hears(looks, before, events[|events| - 1])
  }

  /** A transcript read back: what is open at its end is complete. */
  function Rereads(looks: Looks, p: Page, events: seq<Event>): Page {
    RunEnds(looks, HearsAll(looks, p.(replaying := true), events)).(replaying := false)
  }

  /** The rows a width folds lines into. */
  function Tall(looks: Looks, lines: seq<Row>, width: nat): nat {
    if lines == [] then 0 else Tall(looks, lines[..|lines| - 1], width) + looks.height(lines[|lines| - 1], width)
  }

  /** Half the screen, and a row at least. */
  function HalfOf(height: nat): nat {
    if height < 2 then 1 else height / 2
  }

  /** The run shows on a screen of some size, may not be folded any more, and is over half of it. */
  predicate MustGoOut(looks: Looks, p: Page) {
    var width := if p.width == 0 then 1 else p.width;
    && p.height >= 6 && p.width >= 12
    && (match p.kind
        case Some(Reasoning(_, _)) => p.defaults.reasoning == Expanded
        case Some(Tool(_)) => !p.defaults.tools
        case _ => true)
    && Tall(looks, NotOut(p), width) + (if p.tail == "" then 0 else looks.height(p.tail, width))
       > HalfOf(p.height)
  }

  /** Then all its ended lines go, but for the last few: one less than half a screen, and one at least. */
  function LaysOut(looks: Looks, p: Page): Page {
    var keep := if HalfOf(p.height) < 2 then 1 else HalfOf(p.height) - 1;
    if MustGoOut(looks, p) && |NotOut(p)| > keep then p.(early := |p.lines| - keep) else p
  }

  /** The run complete, and a rule drawn under it: what is above is another conversation's from here on. */
  function RulesOff(looks: Looks, p: Page): Page {
    Leaves(AddsAll(RunEnds(looks, p), ["", looks.rule(if p.width == 0 then 1 else p.width)]))
  }

  function Leaves(p: Page): Page {
    p.(left := |p.blocks|)
  }

  /** Another conversation on the same screen: a rule, a header, and what it said so far. */
  function Reopens(looks: Looks, p: Page, header: string, events: seq<Event>): Page {
    Rereads(looks, AddsAll(RulesOff(looks, p), NonEmptyLinesIn(header)), events)
  }

  /** The clock and the settings. Writing rows out, or throwing them away, is nothing to a page. */
  function Sets(p: Page, move: Move): Page {
    match move
    case StartTurn => p.(thinking := Some(0))
    case Tick => if p.thinking.Some? then p.(thinking := Some(p.thinking.value + 1)) else p
    case SetDefaults(defaults) => p.(defaults := defaults)
    case ToggleTools => p.(defaults := Defaults(p.defaults.reasoning, !p.defaults.tools, p.defaults.stats))
    case ToggleStats => p.(defaults := Defaults(p.defaults.reasoning, p.defaults.tools, !p.defaults.stats))
    case Resize(width, height) => p.(width := width, height := height)
    case _ => p
  }

  /** A move within a conversation. */
  function GoesOn(looks: Looks, p: Page, move: Move): Page {
    match move
    case Say(event) => Hears(looks, p, event)
    case Echoed(content) => Says(looks, p, content)
    case EndTurn => RunEnds(looks, p).(thinking := None)
    case Layout => LaysOut(looks, p)
    case Replayed(events) => Rereads(looks, p, events)
    case _ => Sets(p, move)
  }

  /** What a move makes of the page. */
  function Turns(looks: Looks, p: Page, move: Move): Page {
    if move.Reopened? then Reopens(looks, p, move.header, move.events) else GoesOn(looks, p, move)
  }

  const BLANK := Page([], 0, None, [], 0, "", true, Defaults(Collapsed, true, true), None, false, 0, 0)

  function Read(looks: Looks, header: string, moves: seq<Move>): (r: Page) {
    if moves == [] then AddsAll(BLANK, NonEmptyLinesIn(header))
    else
      var before := Read(looks, header, moves[..|moves| - 1]);
      Turns(looks, before, moves[|moves| - 1])
  }

  // ------------------------------------------------------------- the widget's page

  function BlockOf(entry: Entry): Block {
    Block(entry.cell.display, entry.cell.transcript, entry.early, entry.top + entry.rest)
  }

  function BlocksOf(entries: seq<Entry>): (r: seq<Block>)
    ensures |r| == |entries|
  {
    seq(|entries|, i requires 0 <= i < |entries| => BlockOf(entries[i]))
  }

  function PageOf(w: Widget): (r: Page) {
    var s := w.s;
    Page(BlocksOf(w.told.entries), w.told.left, s.active, s.flushed + s.stream.lines, |s.flushed|, s.stream.tail,
      s.stream.atLineStart, s.defaults, s.thinking, s.replaying, s.width, s.height)
  }

  lemma {:induction false} SettleIsCut(lines: seq<Row>, tail: string, text: string)
    ensures var (more, open) := CutAfter(tail, text); Settle(lines, tail, text) == (lines + more, open)
    decreases |text|
  {
    match Position(text, c => c == '\n')
    case None =>
      SettleNoNewline(lines, tail, text);
      assert lines + [] == lines;
    case Some(at) =>
      SettleToNewline(lines, tail, text, at);
      SettleIsCut(lines + [tail + text[..at]], "", text[at + 1..]);
      var (more, open) := Cut(text[at + 1..]);
      assert "" + open == open;
      if more != [] {
        assert "" + more[0] == more[0];
        assert [more[0]] + more[1..] == more;
      }
      assert lines + ([tail + text[..at]] + more) == lines + [tail + text[..at]] + more;
  }

  lemma SplitIsCut(text: string)
    ensures Split(text) == Cut(text).0 + [Cut(text).1]
    ensures Split(StripNewline(text)) == LinesIn(text)
  {
    CutIsSettled(text);
    CutIsSettled(StripNewline(text));
  }

  lemma CutIsSettled(text: string)
    ensures Settle([], "", text) == Cut(text)
  {
    SettleIsCut([], "", text);
    var (lines, open) := Cut(text);
    assert "" + open == open && [] + lines == lines;
    if lines != [] {
      assert "" + lines[0] == lines[0] && [lines[0]] + lines[1..] == lines;
    }
  }

  // ------------------------------------------------------------- every move is that move of the page

  lemma RestIsNotOut(w: Widget)
    ensures AlreadyOut(PageOf(w)) == w.s.flushed && NotOut(PageOf(w)) == w.s.stream.lines
  {}

  lemma LineEndsAlike(w: Widget)
    ensures PageOf(Ended(w)) == LineEnds(PageOf(w))
  {
    var s := w.s;
    assert s.flushed + (s.stream.lines + [s.stream.tail]) == s.flushed + s.stream.lines + [s.stream.tail];
  }

  lemma MoreLinesAlike(flushed: seq<Row>, stream: Stream, body: string)
    ensures var (more, open) := CutAfter(stream.tail, body);
      var (lines, tail) := Settle(stream.lines, stream.tail, body);
      tail == open && flushed + lines == flushed + stream.lines + more
  {
    SettleIsCut(stream.lines, stream.tail, body);
    var (more, _) := CutAfter(stream.tail, body);
    assert flushed + (stream.lines + more) == flushed + stream.lines + more;
  }

  lemma GoesAlike(looks: Looks, w: Widget, text: string, depth: nat)
    ensures PageOf(Heard(w, Pushed(looks, w.s.stream, text, depth))) == Goes(looks, PageOf(w), text, depth)
  {
    var s := w.s;
    RestIsNotOut(w);
    assert Stream(s.stream.lines, s.stream.tail, s.stream.atLineStart) == s.stream;
    MoreLinesAlike(s.flushed, s.stream, looks.prepare(text, depth, s.stream));
  }

  lemma OneMoreBlock(entries: seq<Entry>, entry: Entry)
    ensures BlocksOf(entries + [entry]) == BlocksOf(entries) + [BlockOf(entry)]
  {}

  lemma AddsAlike(w: Widget, cell: Cell)
    ensures PageOf(Added(w, cell)) == Adds(PageOf(w), cell.display, cell.transcript)
  {
    OneMoreBlock(w.told.entries, EntryOf(cell, 0, 0));
    assert [] + cell.display == cell.display;
  }

  /** The run is over: what was open is taken. */
  /** A block that takes the run: what was out of it, then the rest. */
  lemma TakenAsBlock(ended: Widget, cell: Cell, at: nat, block: Block)
    requires at + |ended.s.flushed| <= |cell.display|
    requires BlockOf(EntryOf(cell, at, at + |ended.s.flushed|)) == block
    ensures var p := PageOf(ended);
      PageOf(Committed(Taken(ended), cell, at, at + |ended.s.flushed|)) ==
        NoRun(p).(blocks := p.blocks + [block], kind := p.kind)
  {
    OneMoreBlock(ended.told.entries, EntryOf(cell, at, at + |ended.s.flushed|));
  }

  lemma AnswerAlike(w: Widget)
    ensures var ended := Ended(w); PageOf(AnswerCommitted(w)) == AsAnswer(PageOf(ended)).(kind := w.s.active)
  {
    var ended := Ended(w);
    var lines, written := ended.s.flushed + ended.s.stream.lines, |ended.s.flushed|;
    RestIsNotOut(ended);
    if lines != [] {
      var entry := EntryOf(AssistantCell(lines), 0, written);
      assert entry.early == ended.s.flushed && [] + entry.rest == ended.s.stream.lines;
      TakenAsBlock(ended, AssistantCell(lines), 0, BlockOf(entry));
    }
  }

  lemma FoldAlike(ended: Widget, summary: Row, arrivesOpen: bool, evenEmpty: bool)
    ensures PageOf(Folded(ended, summary, arrivesOpen, evenEmpty)) ==
      AsFold(PageOf(ended), summary, arrivesOpen, evenEmpty).(kind := ended.s.active)
  {
    var head, rest := ended.s.flushed, ended.s.stream.lines;
    RestIsNotOut(ended);
    if head + rest != [] || evenEmpty {
      var cell := FoldedCell(summary, head + rest, arrivesOpen || |head| > 0);
      FoldEntryIs(summary, head, rest, arrivesOpen);
      TakenAsBlock(ended, cell, 1, BlockOf(EntryOf(cell, 1, 1 + |head|)));
    }
  }

  lemma FoldEntryIs(summary: Row, head: seq<Row>, rest: seq<Row>, arrivesOpen: bool)
    ensures var cell := FoldedCell(summary, head + rest, arrivesOpen || |head| > 0);
      1 + |head| <= |cell.display| &&
      var entry := EntryOf(cell, 1, 1 + |head|);
      entry.early == head && entry.top + entry.rest == [summary] + if arrivesOpen || head != [] then rest else []
  {
    var cell := FoldedCell(summary, head + rest, arrivesOpen || |head| > 0);
    if arrivesOpen || head != [] {
      assert cell.display == [summary] + head + rest;
    }
  }

  lemma RunEndsAlike(looks: Looks, w: Widget)
    ensures PageOf(Finished(looks, w)) == RunEnds(looks, PageOf(w))
  {
    LineEndsAlike(w);
    LineEndsAlike(Idle(w));
    var s := w.s;
    match s.active
    case None => AnswerAlike(w);
    case Some(Answer) => AnswerAlike(Idle(w));
    case Some(Reasoning(since, elapsed)) =>
      FoldAlike(Ended(Idle(w)), looks.summary(s.thinking, since, elapsed, s.replaying),
        s.defaults.reasoning == Expanded, false);
    case Some(Tool(summary)) => FoldAlike(Ended(Idle(w)), summary, !s.defaults.tools, true);
  }

  lemma QuotedIs(looks: Looks, content: string)
    ensures [""] + UserRows(looks, content) == Quoted(looks, content)
  {
    SplitIsCut(looks.controls(content));
  }

  lemma SaysAlike(looks: Looks, w: Widget, content: string)
    ensures PageOf(Echoing(looks, w, content)) == Says(looks, PageOf(w), content)
  {
    var cell := UserCell(UserRows(looks, content));
    RunEndsAlike(looks, w);
    QuotedIs(looks, content);
    AddsAlike(Finished(looks, w), cell);
    assert Echoing(looks, w, content) == Added(Finished(looks, w), cell);
    assert cell.display == cell.transcript == Quoted(looks, content);
  }

  lemma NotesAlike(looks: Looks, w: Widget, text: string)
    ensures PageOf(Note(looks, w, text)) == Notes(looks, PageOf(w), text)
  {
    var shown := looks.controls(text);
    SplitIsCut(shown);
    if w.s.active.Some? && w.s.active.value.Tool? {
      LineEndsAlike(w);
      var ended := LineClosed(w.s.stream);
      assert w.s.flushed + (ended.lines + LinesIn(shown)) == w.s.flushed + ended.lines + LinesIn(shown);
    } else {
      RunEndsAlike(looks, w);
      AddsAlike(Finished(looks, w), Plain(BlockRows(shown)));
    }
  }

  lemma NoReasoningEnds(looks: Looks, w: Widget)
    requires !(w.s.active.Some? && w.s.active.value.Reasoning?)
    ensures PageOf(EndReasoning(looks, w)) == ReasoningEnds(looks, LineEnds(PageOf(w)), 0, None)
  {
    var s := w.s;
    var summary, isOpen := looks.summary(s.thinking, 0, None, s.replaying), s.defaults.reasoning == Expanded;
    LineEndsAlike(w);
    LineEndsAlike(Idle(w));
    FoldAlike(Ended(Idle(w)), summary, isOpen, false);
    assert EndReasoning(looks, w) == Folded(Ended(Idle(w)), summary, isOpen, false);
    FoldForgetsKind(PageOf(Ended(w)), summary, isOpen, false);
  }

  /** What a run was is forgotten once it is folded. */
  lemma FoldForgetsKind(p: Page, summary: Row, arrivesOpen: bool, evenEmpty: bool)
    ensures AsFold(p.(kind := None), summary, arrivesOpen, evenEmpty) == AsFold(p, summary, arrivesOpen, evenEmpty)
    ensures AsFold(p, summary, arrivesOpen, evenEmpty).kind == None
  {}

  lemma EndReasoningAlike(looks: Looks, w: Widget)
    ensures PageOf(EndReasoning(looks, w)) == Hears(looks, PageOf(w), ReasoningEnd)
  {
    if w.s.active.Some? && w.s.active.value.Reasoning? {
      assert EndReasoning(looks, w) == Finished(looks, w);
      RunEndsAlike(looks, w);
    } else {
      NoReasoningEnds(looks, w);
    }
  }

  lemma EndToolAlike(looks: Looks, w: Widget)
    ensures PageOf(EndTool(w)) == Hears(looks, PageOf(w), ToolBodyEnd)
  {
    LineEndsAlike(w);
    LineEndsAlike(Idle(w));
    if w.s.active.Some? && w.s.active.value.Tool? {
      FoldAlike(Ended(Idle(w)), w.s.active.value.summary, !w.s.defaults.tools, true);
    } else {
      FoldAlike(Ended(w), "", !w.s.defaults.tools, true);
    }
  }

  lemma FinishKeepsDefaults(looks: Looks, w: Widget)
    ensures Finished(looks, w).s.defaults == w.s.defaults
  {}

  /** Every event is heard alike. */
  lemma HearsAlike(looks: Looks, w: Widget, event: Event)
    ensures PageOf(Handled(looks, w, event)) == Hears(looks, PageOf(w), event)
  {
    match event
    case AssistantDelta(text, depth) => GoesAlike(looks, if w.s.active.None? then Open(w, Answer) else w, text, depth);
    case ReasoningDelta(text, depth) => GoesAlike(looks, w, text, depth);
    case LineEnded => LineEndsAlike(w);
    case ReasoningStart(_) => RunEndsAlike(looks, w);
    case ReasoningEnd => EndReasoningAlike(looks, w);
    case ToolBodyStart(_) => RunEndsAlike(looks, w);
    case ToolBodyEnd => EndToolAlike(looks, w);
    case Line(echo, text) =>
      if echo {
        SaysAlike(looks, w, text);
      } else {
        NotesAlike(looks, w, text);
      }
    case Tasks =>
    case Stats(text) =>
      RunEndsAlike(looks, w);
      FinishKeepsDefaults(looks, w);
      AddsAlike(Finished(looks, w), StatsCell(text, !w.s.defaults.stats));
  }

  lemma {:induction false} HearsAllAlike(looks: Looks, w: Widget, events: seq<Event>)
    ensures PageOf(AllHandled(looks, w, events)) == HearsAll(looks, PageOf(w), events)
  {
    if events != [] {
      HearsAllAlike(looks, w, events[..|events| - 1]);
      HearsAlike(looks, AllHandled(looks, w, events[..|events| - 1]), events[|events| - 1]);
    }
  }

  lemma RereadsAlike(looks: Looks, w: Widget, events: seq<Event>)
    ensures PageOf(ReplayedOver(looks, w, events)) == Rereads(looks, PageOf(w), events)
  {
    var replaying := w.(s := w.s.(replaying := true));
    HearsAllAlike(looks, replaying, events);
    RunEndsAlike(looks, AllHandled(looks, replaying, events));
  }

  lemma HeaderIs(header: string)
    ensures BlockRows(header) == NonEmptyLinesIn(header)
  {
    SplitIsCut(header);
  }

  lemma ReopensAlike(looks: Looks, w: Widget, header: string, events: seq<Event>)
    ensures PageOf(ReopenedOver(looks, w, header, events)) == Reopens(looks, PageOf(w), header, events)
  {
    RunEndsAlike(looks, w);
    AddsAlike(Finished(looks, w), DividerCell(looks.rule(AtLeastOne(w.s.width))));
    HeaderIs(header);
    AddsAlike(Ruled(looks, w), Plain(BlockRows(header)));
    RereadsAlike(looks, Added(Ruled(looks, w), Plain(BlockRows(header))), events);
  }

  lemma {:induction false} TallIs(looks: Looks, a: seq<Row>, b: seq<Row>, width: nat)
    ensures Tall(looks, a, width) + SumHeights(looks, b, width) == SumHeights(looks, a + b, width)
    decreases |a|
  {
    if a == [] {
      assert a + b == b;
    } else {
      var last := a[|a| - 1];
      TallIs(looks, a[..|a| - 1], [last] + b, width);
      assert a[..|a| - 1] + ([last] + b) == a + b;
      assert ([last] + b)[1..] == b;
    }
  }

  lemma FullAlike(looks: Looks, w: Widget)
    ensures !TooSmall(w.s) && ShowsBody(w.s) && IsFull(looks, w.s) <==> MustGoOut(looks, PageOf(w))
  {
    var s := w.s;
    RestIsNotOut(w);
    TallIs(looks, s.stream.lines, [], AtLeastOne(s.width));
    assert s.stream.lines + [] == s.stream.lines;
  }

  lemma FlushAlike(w: Widget, keep: nat)
    ensures PageOf(Flush(w, keep)) ==
      if |w.s.stream.lines| > keep then PageOf(w).(early := |PageOf(w).lines| - keep) else PageOf(w)
  {
    var s := w.s;
    var ready := Ready(s.stream, keep);
    assert s.flushed + s.stream.lines[..ready] + s.stream.lines[ready..] == s.flushed + s.stream.lines;
  }

  lemma LaysOutAlike(looks: Looks, w: Widget)
    ensures PageOf(Redrawn(looks, w)) == LaysOut(looks, PageOf(w))
  {
    FullAlike(looks, w);
    var full := !TooSmall(w.s) && ShowsBody(w.s) && IsFull(looks, w.s);
    assert Redrawn(looks, w) == if full then Flush(w, AtLeastOne(Cap(w.s) - 1)) else w;
    if full {
      FullRunGoes(looks, w);
    }
  }

  lemma FullRunGoes(looks: Looks, w: Widget)
    requires MustGoOut(looks, PageOf(w))
    ensures PageOf(Flush(w, AtLeastOne(Cap(w.s) - 1))) == LaysOut(looks, PageOf(w))
  {
    RestIsNotOut(w);
    FlushAlike(w, AtLeastOne(Cap(w.s) - 1));
    assert AtLeastOne(Cap(w.s) - 1) == if HalfOf(w.s.height) < 2 then 1 else HalfOf(w.s.height) - 1;
  }

  /** The move of the widget is that move of its page. */
  ghost predicate Alike(looks: Looks, w: Widget, move: Move) {
    PageOf(Step(looks, w, move)) == Turns(looks, PageOf(w), move)
  }

  lemma SettingIsAlike(looks: Looks, w: Widget, move: Move)
    requires !move.Reopened? && !move.Replayed? && !move.Say? && !move.Echoed? && !move.EndTurn? && !move.Layout?
    ensures Alike(looks, w, move)
  {}

  lemma TalkIsAlike(looks: Looks, w: Widget, move: Move)
    requires move.Say? || move.Echoed?
    ensures Alike(looks, w, move)
  {
    if move.Say? {
      HearsAlike(looks, w, move.event);
    } else {
      SaysAlike(looks, w, move.content);
    }
  }

  lemma EndOfTurnIsAlike(looks: Looks, w: Widget)
    ensures Alike(looks, w, EndTurn)
  {
    RunEndsAlike(looks, w);
  }

  lemma LayoutIsAlike(looks: Looks, w: Widget)
    ensures Alike(looks, w, Layout)
  {
    LaysOutAlike(looks, w);
  }

  lemma ReplayIsAlike(looks: Looks, w: Widget, events: seq<Event>)
    ensures Alike(looks, w, Replayed(events))
  {
    RereadsAlike(looks, w, events);
  }

  lemma StepOfReopen(looks: Looks, w: Widget, header: string, events: seq<Event>)
    ensures Step(looks, w, Reopened(header, events)) == ReopenedOver(looks, w, header, events)
  {}

  lemma TurnOfReopen(looks: Looks, p: Page, header: string, events: seq<Event>)
    ensures Turns(looks, p, Reopened(header, events)) == Reopens(looks, p, header, events)
  {}

  lemma ReopenIsAlike(looks: Looks, w: Widget, header: string, events: seq<Event>)
    ensures Alike(looks, w, Reopened(header, events))
  {
    StepOfReopen(looks, w, header, events);
    TurnOfReopen(looks, PageOf(w), header, events);
    ReopensAlike(looks, w, header, events);
  }

  lemma TurnsAlike(looks: Looks, w: Widget, move: Move)
    ensures Alike(looks, w, move)
  {
    match move
    case Say(_) => TalkIsAlike(looks, w, move);
    case Echoed(_) => TalkIsAlike(looks, w, move);
    case EndTurn => EndOfTurnIsAlike(looks, w);
    case Layout => LayoutIsAlike(looks, w);
    case Replayed(events) => ReplayIsAlike(looks, w, events);
    case Reopened(header, events) => ReopenIsAlike(looks, w, header, events);
    case _ => SettingIsAlike(looks, w, move);
  }

  /**
   The widget is its page. After any moves, its blocks, its open run, what of that is out and how it is set are
   those of the page those moves make, which has no rows waiting and no run taken apart.
   */
  lemma {:induction false} TheWidgetIsItsPage(looks: Looks, header: string, moves: seq<Move>)
    ensures PageOf(Run(looks, header, moves)) == Read(looks, header, moves)
  {
    if moves == [] {
      HeaderIs(header);
      AddsAlike(NEW, Plain(BlockRows(header)));
    } else {
      TheWidgetIsItsPage(looks, header, moves[..|moves| - 1]);
      TurnsAlike(looks, Run(looks, header, moves[..|moves| - 1]), moves[|moves| - 1]);
      assert Alike(looks, Run(looks, header, moves[..|moves| - 1]), moves[|moves| - 1]);
    }
  }

  // ------------------------------------------------------------- what is written out

  /** The rows of the blocks in the order they are written: of each run what went early, then the rest of its block. */
  function RowsWritten(blocks: seq<Block>): seq<Row> {
    if blocks == [] then []
    else
      RowsWritten(blocks[..|blocks| - 1]) + (blocks[|blocks| - 1].early + blocks[|blocks| - 1].late)
  }

  lemma {:induction false} WrittenIsOut(entries: seq<Entry>)
    ensures RowsWritten(BlocksOf(entries)) == AllOut(entries)
  {
    if entries != [] {
      WrittenIsOut(entries[..|entries| - 1]);
      assert BlocksOf(entries)[..|entries| - 1] == BlocksOf(entries[..|entries| - 1]);
    }
  }

  /**
   What reaches the terminal: the rows out and those waiting are the page's, block by block, then what is out of
   its open run; and writing out, or throwing away, empties what waits and leaves the page as it is.
   */
  lemma ThePageIsWritten(looks: Looks, header: string, moves: seq<Move>)
    ensures var w, p := Run(looks, header, moves), Read(looks, header, moves);
      && w.told.out + w.s.pending == RowsWritten(p.blocks) + AlreadyOut(p)
      && forall move :: move == DrainHistory || move == DiscardHistory ==>
           var after := Step(looks, w, move);
           after.s.pending == [] && after.told.out == w.told.out + w.s.pending && PageOf(after) == p
  {
    var w := Run(looks, header, moves);
    TheWidgetIsItsPage(looks, header, moves);
    RunIsSound(looks, header, moves);
    WrittenIsOut(w.told.entries);
    RestIsNotOut(w);
  }
}
