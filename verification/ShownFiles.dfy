/**
 What a model is shown of each attached file (crates/agent/src/attachments.rs): when it is the file's own image or
 text, what is said instead when it is neither, and in what order a request's files are charged to its budget.
 */
module ShownFiles {
  import opened Common
  import opened Messages
  import opened Attachments

  // ------------------------------------------------------------- one file

  /** The file a reference names, as the disk holds it, and the type it is taken for. */
  datatype Found = Found(absolute: string, size: nat, mimeType: string)

  /** A file of some size is there, and its type is the table's, or the reference's own where the table has none. */
  predicate Finds(env: Env, disk: Disk, part: FilePart, f: Found) {
    && env.locate(part.path) == Some(f.absolute)
    && disk.stat(f.absolute).Some? && !disk.stat(f.absolute).value.isDir && disk.stat(f.absolute).value.size == f.size
    && var listed := env.mimeFor(env.relative(f.absolute));
       f.mimeType == if listed == "application/octet-stream" then part.mimeType else listed
  }

  /** The line that precedes whatever is shown of a file. */
  function LineOf(env: Env, f: Found): string {
    "[attachment: " + env.relative(f.absolute) + " · " + f.mimeType + " · " + env.formatBytes(f.size) + "]"
  }

  /** An image that may be sent and fits, both as it is listed and as it is read. */
  predicate IsPicture(disk: Disk, options: Options, left: nat, f: Found) {
    && options.images && "image/" <= f.mimeType
    && 0 < f.size <= options.maxImageBytes && f.size <= left
    && disk.bytes(f.absolute).Some?
    && |disk.bytes(f.absolute).value| <= options.maxImageBytes && |disk.bytes(f.absolute).value| <= left
  }

  /** At most half a mebibyte of a text is looked at, and no more than its size was. */
  function Head(bytes: seq<bv8>, size: nat): seq<bv8> {
    var most := if size < 524_288 then size else 524_288;
    if |bytes| <= most then bytes else bytes[..most]
  }

  /** No image, small enough, and without a zero byte. */
  predicate IsReadable(disk: Disk, options: Options, left: nat, f: Found) {
    && !("image/" <= f.mimeType)
    && 0 < f.size <= options.maxTextBytes && f.size <= left
    && disk.bytes(f.absolute).Some? && 0 !in Head(disk.bytes(f.absolute).value, f.size)
  }

  /** What is said of a file that is found and not shown. */
  function SaidInstead(disk: Disk, options: Options, left: nat, f: Found): string {
    var image := "image/" <= f.mimeType;
    var most := if image then options.maxImageBytes else options.maxTextBytes;
    if f.size == 0 then ". The file is empty"
    else if image && !options.images then ". This model cannot read images; use the file tools"
    else if image && f.size > most then ". Too large to show; use the file tools to read it"
    else if f.size <= most && f.size <= left && disk.bytes(f.absolute).None? then ". Could not be read"
    else ". Not shown inline; use the file tools to read it"
  }

  /** What a found file is shown as, and what that costs. */
  ghost predicate ShownAs(env: Env, disk: Disk, options: Options, left: nat, f: Found, parts: seq<ContentPart>,
        cost: nat) {
    if IsPicture(disk, options, left, f) then
      var bytes := disk.bytes(f.absolute).value;
      parts == [Text(LineOf(env, f)), Image(f.mimeType, bytes)] && cost == |bytes|
    else if IsReadable(disk, options, left, f) then
      var text := env.decode(Head(disk.bytes(f.absolute).value, f.size));
      var note := if f.size > 524_288 then "\n\n[…truncated. Read the file for the rest]" else "";
      parts == [Text(LineOf(env, f) + ("\n\n```\n" + text + "\n```" + note))] && cost == f.size
    else
      parts == [Text(LineOf(env, f) + SaidInstead(disk, options, left, f))] && cost == 0
  }

  /** What is said of a reference that finds no file. */
  ghost predicate SaidOfNone(env: Env, disk: Disk, part: FilePart, parts: seq<ContentPart>) {
    match env.locate(part.path)
    case None => parts == [Text("[attachment: unavailable. The path is not inside this workspace]")]
    case Some(absolute) =>
      var name := env.relative(absolute);
      if disk.stat(absolute).None? then parts == [Text("[attachment: " + name + ". No longer in the workspace]")]
      else parts == [Text("[attachment: " + name + ". A directory, not a file]")]
  }

  /** One reference, with `left` bytes to spend and no cache. */
  ghost predicate Reads(env: Env, disk: Disk, options: Options, part: FilePart, left: nat, parts: seq<ContentPart>,
        cost: nat) {
    && cost <= left
    && if exists f :: Finds(env, disk, part, f) then
         exists f :: Finds(env, disk, part, f) && ShownAs(env, disk, options, left, f, parts, cost)
       else SaidOfNone(env, disk, part, parts) && cost == 0
  }

  lemma PictureIs(disk: Disk, options: Options, line: string, left: nat, f: Found)
    requires "image/" <= f.mimeType && f.size > 0
    ensures var (parts, cost) := ReadImage(disk, options, f.absolute, f.mimeType, line, f.size, left);
      if IsPicture(disk, options, left, f) then
        parts == [Text(line), Image(f.mimeType, disk.bytes(f.absolute).value)] && cost == |disk.bytes(f.absolute).value|
      else parts == [Text(line + SaidInstead(disk, options, left, f))] && cost == 0
  {}

  lemma TextIs(env: Env, disk: Disk, options: Options, line: string, left: nat, f: Found)
    requires !("image/" <= f.mimeType) && f.size > 0
    ensures var (parts, cost) := ReadText(env, disk, options, f.absolute, line, f.size, left);
      if IsReadable(disk, options, left, f) then
        var text := env.decode(Head(disk.bytes(f.absolute).value, f.size));
        var note := if f.size > 524_288 then "\n\n[…truncated. Read the file for the rest]" else "";
        parts == [Text(line + ("\n\n```\n" + text + "\n```" + note))] && cost == f.size
      else parts == [Text(line + SaidInstead(disk, options, left, f))] && cost == 0
  {
    if disk.bytes(f.absolute).Some? {
      var bytes := disk.bytes(f.absolute).value;
      assert bytes[..Min(Min(f.size, MAX_TEXT_BYTES), |bytes|)] == Head(bytes, f.size);
    }
  }

  lemma FoundIsShown(env: Env, disk: Disk, options: Options, part: FilePart, left: nat, f: Found)
    requires Finds(env, disk, part, f)
    ensures var (parts, after) := One(env, disk, options, part, Purse(left, None));
      after == Purse(after.remaining, None) && ShownAs(env, disk, options, left, f, parts, left - after.remaining)
  {
    var line := Header(env, f.absolute, f.mimeType, f.size);
    if f.size > 0 {
      if "image/" <= f.mimeType {
        PictureIs(disk, options, line, left, f);
      } else {
        TextIs(env, disk, options, line, left, f);
      }
    }
  }

  /**
   What a reference is shown as. The file's image when it may be sent and fits, its text when it is text and fits,
   each at the cost of what is sent; anything else is a line that says what became of it, and costs nothing.
   */
  lemma ReferenceIsShown(env: Env, disk: Disk, options: Options, part: FilePart, left: nat)
    ensures var (parts, after) := One(env, disk, options, part, Purse(left, None));
      after == Purse(after.remaining, None) && Reads(env, disk, options, part, left, parts, left - after.remaining)
  {
    if f :| Finds(env, disk, part, f) {
      FoundIsShown(env, disk, options, part, left, f);
    } else {
      match env.locate(part.path)
      case None =>
      case Some(absolute) =>
        if disk.stat(absolute).Some? && !disk.stat(absolute).value.isDir {
          var f := Found(absolute, disk.stat(absolute).value.size, TypeOf(env, absolute, part));
          assert Finds(env, disk, part, f);
        }
    }
  }

  // ------------------------------------------------------------- a whole request

  function FilesIn(parts: seq<ContentPart>): seq<FilePart> {
    if parts == [] then [] else (if parts[0].File? then [parts[0].file] else []) + FilesIn(parts[1..])
  }

  function ContentOf(message: ChatMessage): seq<ContentPart> {
    match message
    case User(content) => content
    case Assistant(content, _, _) => content
    case _ => []
  }

  /** A request's references in the order they are read: the newest message first, each from its front. */
  function NewestFilesFirst(messages: seq<ChatMessage>): seq<FilePart> {
    if messages == [] then []
    else FilesIn(ContentOf(messages[|messages| - 1])) + NewestFilesFirst(messages[..|messages| - 1])
  }

  /** One read: what was left before it, what it was shown as, and what that cost. */
  datatype Reading = Reading(left: nat, parts: seq<ContentPart>, cost: nat)

  /** Whether a read of the k-th reference may have come to that. */
  type Reader = (nat, FilePart, Reading) -> bool

  /**
   Each reference in turn, charged to what the ones before it left of `left`; `rest` is what they leave.
   */
  ghost predicate ReadInTurn(reader: Reader, k: nat, files: seq<FilePart>, seen: seq<Reading>, left: nat, rest: nat)
    decreases |files|
  {
    && |seen| == |files|
    && if files == [] then rest == left
       else
         && seen[0].left == left && seen[0].cost <= left && reader(k, files[0], seen[0])
         && ReadInTurn(reader, k + 1, files[1..], seen[1..], left - seen[0].cost, rest)
  }

  /** A message's content with what its references were shown as in their places. */
  function Filled(parts: seq<ContentPart>, seen: seq<Reading>): seq<ContentPart>
    requires |seen| == |FilesIn(parts)|
  {
    if parts == [] then []
    else if parts[0].File? then seen[0].parts + Filled(parts[1..], seen[1..])
    else [parts[0]] + Filled(parts[1..], seen)
  }

  /** A message that differs in nothing but its content. */
  predicate Holds(message: ChatMessage, content: seq<ContentPart>, shown: ChatMessage) {
    match message
    case User(_) => shown == User(content)
    case Assistant(_, toolCalls, stats) => shown == Assistant(content, toolCalls, stats)
    case _ => shown == message
  }

  /** Every message in its place, filled with the reads of its own references. */
  ghost predicate AllFilled(messages: seq<ChatMessage>, seen: seq<Reading>, shown: seq<ChatMessage>)
    requires |seen| == |NewestFilesFirst(messages)|
    decreases |messages|
  {
    |shown| == |messages| &&
    (messages != [] ==>
       var last := messages[|messages| - 1];
       var own := |FilesIn(ContentOf(last))|;
       && Holds(last, Filled(ContentOf(last), seen[..own]), shown[|shown| - 1])
       && AllFilled(messages[..|messages| - 1], seen[own..], shown[..|shown| - 1]))
  }

  lemma {:induction false} InTurnConcat(reader: Reader, k: nat, files: seq<FilePart>, a: seq<Reading>, left: nat,
        mid: nat, more: seq<FilePart>, b: seq<Reading>, rest: nat)
    requires ReadInTurn(reader, k, files, a, left, mid) && ReadInTurn(reader, k + |a|, more, b, mid, rest)
    ensures ReadInTurn(reader, k, files + more, a + b, left, rest)
    decreases |files|
  {
    if files == [] {
      assert files + more == more && a + b == b;
    } else {
      InTurnConcat(reader, k + 1, files[1..], a[1..], left - a[0].cost, mid, more, b, rest);
      assert (files + more)[1..] == files[1..] + more && (a + b)[1..] == a[1..] + b;
    }
  }

  /** The reading one reference gives, with no cache. */
  function ReadingOf(env: Env, disk: Disk, options: Options, file: FilePart, left: nat): Reading {
    var (parts, after) := One(env, disk, options, file, Purse(left, None));
    Reading(left, parts, left - after.remaining)
  }

  ghost predicate ReadBy(reader: Reader, env: Env, views: nat -> Disk, options: Options) {
    forall k: nat, file: FilePart, left: nat :: reader(k, file, ReadingOf(env, views(k), options, file, left))
  }

  /** A message's references read in turn, and its content filled with them. */
  ghost predicate FilledFrom(reader: Reader, k: nat, content: seq<ContentPart>, left: nat, seen: seq<Reading>,
        r: (seq<ContentPart>, Purse, nat)) {
    && |seen| == |FilesIn(content)|
    && r.0 == Filled(content, seen) && r.2 == k + |seen| && r.1 == Purse(r.1.remaining, None)
    && ReadInTurn(reader, k, FilesIn(content), seen, left, r.1.remaining)
  }

  lemma FileIsFilled(reader: Reader, k: nat, content: seq<ContentPart>, left: nat, read: Reading, rest: seq<Reading>,
        r: (seq<ContentPart>, Purse, nat))
    requires content != [] && content[0].File? && read.left == left && read.cost <= left
    requires reader(k, content[0].file, read)
    requires FilledFrom(reader, k + 1, content[1..], left - read.cost, rest, r)
    ensures FilledFrom(reader, k, content, left, [read] + rest, (read.parts + r.0, r.1, r.2))
  {
    var files := FilesIn(content);
    assert files[1..] == FilesIn(content[1..]) && ([read] + rest)[1..] == rest;
  }

  lemma OtherIsFilled(reader: Reader, k: nat, content: seq<ContentPart>, left: nat, rest: seq<Reading>,
        r: (seq<ContentPart>, Purse, nat))
    requires content != [] && !content[0].File?
    requires FilledFrom(reader, k, content[1..], left, rest, r)
    ensures FilledFrom(reader, k, content, left, rest, ([content[0]] + r.0, r.1, r.2))
  {
    assert [] + FilesIn(content[1..]) == FilesIn(content[1..]);
  }

  lemma NoCacheStays(env: Env, disk: Disk, options: Options, file: FilePart, left: nat)
    ensures var after := One(env, disk, options, file, Purse(left, None)).1; after == Purse(after.remaining, None)
  {}

  lemma ContentStep(env: Env, views: nat -> Disk, k: nat, options: Options, content: seq<ContentPart>, left: nat)
    requires content != [] && content[0].File?
    ensures var read := ReadingOf(env, views(k), options, content[0].file, left);
      read.cost <= left &&
      var r := Content(env, views, k + 1, options, content[1..], Purse(left - read.cost, None));
      Content(env, views, k, options, content, Purse(left, None)) == (read.parts + r.0, r.1, r.2)
  {
    NoCacheStays(env, views(k), options, content[0].file, left);
    var (parts, after) := One(env, views(k), options, content[0].file, Purse(left, None));
    var r := Content(env, views, k + 1, options, content[1..], after);
    assert Content(env, views, k, options, content, Purse(left, None)) == (parts + r.0, r.1, r.2);
  }

  lemma {:induction false} ContentIsFilled(reader: Reader, env: Env, views: nat -> Disk, k: nat, options: Options,
        content: seq<ContentPart>, left: nat) returns (seen: seq<Reading>)
    requires ReadBy(reader, env, views, options)
    ensures FilledFrom(reader, k, content, left, seen, Content(env, views, k, options, content, Purse(left, None)))
    decreases |content|
  {
    if content == [] {
      seen := [];
    } else if content[0].File? {
      var read := ReadingOf(env, views(k), options, content[0].file, left);
      ContentStep(env, views, k, options, content, left);
      var rest := ContentIsFilled(reader, env, views, k + 1, options, content[1..], left - read.cost);
      seen := [read] + rest;
      FileIsFilled(reader, k, content, left, read, rest,
        Content(env, views, k + 1, options, content[1..], Purse(left - read.cost, None)));
    } else {
      seen := ContentIsFilled(reader, env, views, k, options, content[1..], left);
      OtherIsFilled(reader, k, content, left, seen,
        Content(env, views, k, options, content[1..], Purse(left, None)));
    }
  }

  /** A request's references read in turn, and its messages filled with them. */
  ghost predicate AllFilledFrom(reader: Reader, k: nat, messages: seq<ChatMessage>, left: nat, seen: seq<Reading>,
        shown: seq<ChatMessage>, rest: nat) {
    && |seen| == |NewestFilesFirst(messages)| && AllFilled(messages, seen, shown)
    && ReadInTurn(reader, k, NewestFilesFirst(messages), seen, left, rest)
  }

  lemma LastIsFilled(reader: Reader, k: nat, messages: seq<ChatMessage>, left: nat, own: seq<Reading>,
        rest: seq<Reading>, r: (seq<ContentPart>, Purse, nat), older: seq<ChatMessage>, end: nat)
    requires messages != []
    requires FilledFrom(reader, k, ContentOf(messages[|messages| - 1]), left, own, r)
    requires AllFilledFrom(reader, r.2, messages[..|messages| - 1], r.1.remaining, rest, older, end)
    ensures AllFilledFrom(reader, k, messages, left, own + rest,
        older + [WithParts(messages[|messages| - 1], r.0)], end)
  {
    var last, before := messages[|messages| - 1], messages[..|messages| - 1];
    var shown := older + [WithParts(last, r.0)];
    assert (own + rest)[..|own|] == own && (own + rest)[|own|..] == rest;
    assert shown[..|shown| - 1] == older;
    InTurnConcat(reader, k, FilesIn(ContentOf(last)), own, left, r.1.remaining, NewestFilesFirst(before), rest, end);
  }

  lemma NewestStep(env: Env, views: nat -> Disk, k: nat, options: Options, messages: seq<ChatMessage>, purse: Purse)
    requires messages != []
    ensures var last := messages[|messages| - 1];
      var r := Content(env, views, k, options, ContentOf(last), purse);
      var older := Newest(env, views, r.2, options, messages[..|messages| - 1], r.1);
      Newest(env, views, k, options, messages, purse) == (older.0 + [WithParts(last, r.0)], older.1, older.2)
  {
    assert PartsOf(messages[|messages| - 1]) == ContentOf(messages[|messages| - 1]);
  }

  lemma {:induction false} MessagesAreFilled(reader: Reader, env: Env, views: nat -> Disk, k: nat, options: Options,
        messages: seq<ChatMessage>, left: nat) returns (seen: seq<Reading>)
    requires ReadBy(reader, env, views, options)
    ensures var (shown, after, _) := Newest(env, views, k, options, messages, Purse(left, None));
      AllFilledFrom(reader, k, messages, left, seen, shown, after.remaining)
    decreases |messages|
  {
    if messages == [] {
      seen := [];
    } else {
      var content := ContentOf(messages[|messages| - 1]);
      var own := ContentIsFilled(reader, env, views, k, options, content, left);
      var r := Content(env, views, k, options, content, Purse(left, None));
      var before := messages[..|messages| - 1];
      var rest := MessagesAreFilled(reader, env, views, r.2, options, before, r.1.remaining);
      var (older, end, _) := Newest(env, views, r.2, options, before, r.1);
      seen := own + rest;
      NewestStep(env, views, k, options, messages, Purse(left, None));
      LastIsFilled(reader, k, messages, left, own, rest, r, older, end.remaining);
    }
  }

  /** A read of the k-th reference meets the disk as it is then. */
  ghost function Honest(env: Env, views: nat -> Disk, options: Options): Reader {
    (k: nat, file: FilePart, read: Reading) => Reads(env, views(k), options, file, read.left, read.parts, read.cost)
  }

  lemma ReadingIsHonest(env: Env, disk: Disk, options: Options, file: FilePart, left: nat)
    ensures var read := ReadingOf(env, disk, options, file, left);
      Reads(env, disk, options, file, left, read.parts, read.cost)
  {
    ReferenceIsShown(env, disk, options, file, left);
  }

  lemma HonestReads(env: Env, views: nat -> Disk, options: Options)
    ensures ReadBy(Honest(env, views, options), env, views, options)
  {
    forall k: nat, file: FilePart, left: nat
      ensures Honest(env, views, options)(k, file, ReadingOf(env, views(k), options, file, left))
    {
      ReadingIsHonest(env, views(k), options, file, left);
      assert ReadingOf(env, views(k), options, file, left).left == left;
    }
  }

  /**
   What a request shows. Its references are read the newest message first, each charged to what those before it
   left of the one budget, and every message keeps its place and all else it holds, with each of its references
   replaced by what that read came to.
   */
  lemma RequestIsFilled(env: Env, views: nat -> Disk, options: Options, messages: seq<ChatMessage>)
    returns (seen: seq<Reading>)
    ensures var (shown, after, _) := Materialised(env, views, options, messages, None);
      AllFilledFrom(Honest(env, views, options), 0, messages, options.maxTotalBytes, seen, shown, after.remaining)
  {
    HonestReads(env, views, options);
    seen := MessagesAreFilled(Honest(env, views, options), env, views, 0, options, messages, options.maxTotalBytes);
  }
}
