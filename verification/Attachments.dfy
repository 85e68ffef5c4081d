/**
 Attached files, as a model reads them (crates/agent/src/attachments.rs): every file reference of a
 request is replaced by text or an image, under one shared byte budget, with a cache for the turn.
 */
module Attachments {
  import opened Common
  import opened Messages

  const DEFAULT_MIME_TYPE := "application/octet-stream"
  const MAX_INLINE_IMAGE_BYTES: nat := 4 * 1024 * 1024
  const MAX_INLINE_TEXT_BYTES: nat := 32 * 1024
  const MAX_TOTAL_INLINE_BYTES: nat := 16 * 1024 * 1024
  const MAX_TEXT_BYTES: nat := 512 * 1024
  const IMAGE_TOKENS: nat := 1800

  datatype Options = Options(maxImageBytes: nat, maxTextBytes: nat, maxTotalBytes: nat, images: bool)

  const DEFAULT_OPTIONS := Options(MAX_INLINE_IMAGE_BYTES, MAX_INLINE_TEXT_BYTES, MAX_TOTAL_INLINE_BYTES, true)

  datatype Stat = Stat(isDir: bool, size: nat, mtime: nat)

  /** The workspace as one read meets it: what a stat says, and what a read gives. `None` is a failure. */
  datatype Disk = Disk(stat: string -> Option<Stat>, bytes: string -> Option<seq<bv8>>)

  /**
   What does not change during a turn: where a reference is, by which name, its type by the table,
   and how sizes and bytes are shown as text.
   */
  datatype Env = Env(
    locate: string -> Option<string>, relative: string -> string,
    mimeFor: string -> string, formatBytes: nat -> string, decode: seq<bv8> -> string)

  /** What reading one file gave: its parts, and the bytes charged for them. */
  datatype Inlined = Inlined(parts: seq<ContentPart>, bytes: nat)

  type Cache = map<string, Inlined>

  // ------------------------------------------------------------- cache keys

  function Digit(n: nat): char
    requires n < 10
  {
    "0123456789"[n]
  }

  function Decimal(n: nat): (r: string)
    ensures r != "" && forall i :: 0 <= i < |r| ==> r[i] != ':'
  {
    if n < 10 then [Digit(n)] else Decimal(n / 10) + [Digit(n % 10)]
  }

  lemma {:induction false} DecimalIsInjective(a: nat, b: nat)
    requires Decimal(a) == Decimal(b)
    ensures a == b
  {
    var x, y := Decimal(a), Decimal(b);
    if a >= 10 && b >= 10 {
      assert x[..|x| - 1] == Decimal(a / 10) && y[..|y| - 1] == Decimal(b / 10);
      DecimalIsInjective(a / 10, b / 10);
      assert x[|x| - 1] == Digit(a % 10) && y[|y| - 1] == Digit(b % 10);
    }
  }

  /** Two decimals before the path: a path may hold colons, and the first two still end the numbers. */
  function CacheKey(stat: Stat, absolute: string): string {
    Decimal(stat.size) + ":" + Decimal(stat.mtime) + ":" + absolute
  }

  lemma FirstColon(a: string, rest: string, b: string, other: string)
    requires (forall i :: 0 <= i < |a| ==> a[i] != ':') && (forall i :: 0 <= i < |b| ==> b[i] != ':')
    requires a + ":" + rest == b + ":" + other
    ensures a == b && rest == other
  {
    var s := a + ":" + rest;
    assert s[|a|] == ':' && s[|b|] == ':';
    assert |a| == |b|;
    assert a == s[..|a|] == b;
    assert rest == s[|a| + 1..] == other;
  }

  /** Two files share a key only when path, size and mtime all agree. */
  lemma CacheKeyIsInjective(a: Stat, b: Stat, path: string, other: string)
    requires CacheKey(a, path) == CacheKey(b, other)
    ensures a.size == b.size && a.mtime == b.mtime && path == other
  {
    var left, right := Decimal(a.mtime) + ":" + path, Decimal(b.mtime) + ":" + other;
    assert CacheKey(a, path) == Decimal(a.size) + ":" + left;
    assert CacheKey(b, other) == Decimal(b.size) + ":" + right;
    FirstColon(Decimal(a.size), left, Decimal(b.size), right);
    FirstColon(Decimal(a.mtime), path, Decimal(b.mtime), other);
    DecimalIsInjective(a.size, b.size);
    DecimalIsInjective(a.mtime, b.mtime);
  }

  // ------------------------------------------------------------- one attachment

  predicate IsImage(mimeType: string) {
    "image/" <= mimeType
  }

  /** The table's type for a path, or the part's own where the table has none. */
  function TypeOf(env: Env, absolute: string, part: FilePart): string {
    var derived := env.mimeFor(env.relative(absolute));
    if derived == DEFAULT_MIME_TYPE then part.mimeType else derived
  }

  function Header(env: Env, absolute: string, mimeType: string, size: nat): string {
    "[attachment: " + env.relative(absolute) + " · " + mimeType + " · " + env.formatBytes(size) + "]"
  }

  function Say(text: string): seq<ContentPart> {
    [Text(text)]
  }

  function NotInline(line: string): seq<ContentPart> {
    Say(line + ". Not shown inline; use the file tools to read it")
  }

  function Unreadable(line: string): seq<ContentPart> {
    Say(line + ". Could not be read")
  }

  function Min(a: nat, b: nat): nat {
    if a < b then a else b
  }

  /** What an image is shown as, and the charge: never more than `remaining`. */
  function ReadImage(disk: Disk, options: Options, absolute: string, mimeType: string, line: string, size: nat,
        remaining: nat): (r: (seq<ContentPart>, nat))
    ensures r.1 <= remaining
  {
    if !options.images then (Say(line + ". This model cannot read images; use the file tools"), 0)
    else if size > options.maxImageBytes then (Say(line + ". Too large to show; use the file tools to read it"), 0)
    else if size > remaining then (NotInline(line), 0)
    else
      var within := Min(options.maxImageBytes, remaining);
      match disk.bytes(absolute)
      case None => (Unreadable(line), 0)
      case Some(bytes) =>
        if |bytes| > within then (NotInline(line), 0) else (Say(line) + [Image(mimeType, bytes)], |bytes|)
  }

  /** The fenced text of a file: its first bytes, and a note where there are more. */
  function Fenced(env: Env, bytes: seq<bv8>, size: nat): (r: string)
    ensures r != "" && r[|r| - 1] in {'`', ']'}
  {
    var cap := Min(size, MAX_TEXT_BYTES);
    var note := if size > cap then "\n\n[…truncated. Read the file for the rest]" else "";
    "\n\n```\n" + env.decode(bytes[..Min(cap, |bytes|)]) + "\n```" + note
  }

  function ReadText(env: Env, disk: Disk, options: Options, absolute: string, line: string, size: nat,
        remaining: nat): (r: (seq<ContentPart>, nat))
    ensures r.1 <= remaining
  {
    if size > options.maxTextBytes || size > remaining then (NotInline(line), 0)
    else match disk.bytes(absolute)
      case None => (Unreadable(line), 0)
      case Some(bytes) =>
        if 0 in bytes[..Min(Min(size, MAX_TEXT_BYTES), |bytes|)] then (NotInline(line), 0)
        else (Say(line + Fenced(env, bytes, size)), size)
  }

  function ReadParts(env: Env, disk: Disk, options: Options, absolute: string, mimeType: string, size: nat,
        remaining: nat): (r: (seq<ContentPart>, nat))
    ensures r.1 <= remaining
  {
    var line := Header(env, absolute, mimeType, size);
    if IsImage(mimeType) then ReadImage(disk, options, absolute, mimeType, line, size, remaining)
    else ReadText(env, disk, options, absolute, line, size, remaining)
  }

  /** What a request has left of its budget, and the turn's cache when it has one. */
  datatype Purse = Purse(remaining: nat, cache: Option<Cache>)

  /** One file reference, read from the cache or the disk and charged either way. */
  function One(env: Env, disk: Disk, options: Options, part: FilePart, purse: Purse): (r: (seq<ContentPart>, Purse))
    ensures r.1.remaining <= purse.remaining
  {
    match env.locate(part.path)
    case None => (Say("[attachment: unavailable. The path is not inside this workspace]"), purse)
    case Some(absolute) =>
      match disk.stat(absolute)
      case None => (Say("[attachment: " + env.relative(absolute) + ". No longer in the workspace]"), purse)
      case Some(stat) =>
        if stat.isDir then (Say("[attachment: " + env.relative(absolute) + ". A directory, not a file]"), purse)
        else FileParts(env, disk, options, absolute, stat, TypeOf(env, absolute, part), purse)
  }

  function FileParts(env: Env, disk: Disk, options: Options, absolute: string, stat: Stat, mimeType: string,
        purse: Purse): (r: (seq<ContentPart>, Purse))
    ensures r.1.remaining <= purse.remaining
  {
    var line := Header(env, absolute, mimeType, stat.size);
    var key := CacheKey(stat, absolute);
    if stat.size == 0 then (Say(line + ". The file is empty"), purse)
    else if purse.cache.Some? && key in purse.cache.value then
      var hit := purse.cache.value[key];
      if hit.bytes > purse.remaining then (NotInline(line), purse)
      else (hit.parts, purse.(remaining := purse.remaining - hit.bytes))
    else
      var (parts, bytes) := ReadParts(env, disk, options, absolute, mimeType, stat.size, purse.remaining);
      var cache :=
        if bytes > 0 && purse.cache.Some? then Some(purse.cache.value[key := Inlined(parts, bytes)]) else purse.cache;
      (parts, Purse(purse.remaining - bytes, cache))
  }

  // ------------------------------------------------------------- a whole request

  /** Each read meets the disk as it is then: `views(k)` is the k-th. */
  function Content(env: Env, views: nat -> Disk, k: nat, options: Options, content: seq<ContentPart>,
        purse: Purse): (r: (seq<ContentPart>, Purse, nat))
    ensures r.1.remaining <= purse.remaining
    decreases |content|
  {
    if content == [] then ([], purse, k)
    else
      match content[0]
      case File(file) =>
        var (parts, after) := One(env, views(k), options, file, purse);
        var (rest, end, next) := Content(env, views, k + 1, options, content[1..], after);
        (parts + rest, end, next)
      case _ =>
        var (rest, end, next) := Content(env, views, k, options, content[1..], purse);
        ([content[0]] + rest, end, next)
  }

  function PartsOf(message: ChatMessage): seq<ContentPart> {
    if message.User? || message.Assistant? then message.content else []
  }

  function WithParts(message: ChatMessage, parts: seq<ContentPart>): ChatMessage {
    if message.User? then User(parts)
    else if message.Assistant? then Assistant(parts, message.toolCalls, message.stats)
    else message
  }

  /** From the last message back, each charged to what those after it left; the order is kept. */
  function Newest(env: Env, views: nat -> Disk, k: nat, options: Options, messages: seq<ChatMessage>,
        purse: Purse): (r: (seq<ChatMessage>, Purse, nat))
    ensures r.1.remaining <= purse.remaining && |r.0| == |messages|
    decreases |messages|
  {
    if messages == [] then ([], purse, k)
    else
      var last := messages[|messages| - 1];
      var (parts, after, next) := Content(env, views, k, options, PartsOf(last), purse);
      var (older, end, done) := Newest(env, views, next, options, messages[..|messages| - 1], after);
      (older + [WithParts(last, parts)], end, done)
  }

  function Materialised(env: Env, views: nat -> Disk, options: Options, messages: seq<ChatMessage>,
        cache: Option<Cache>): (seq<ChatMessage>, Purse, nat) {
    Newest(env, views, 0, options, messages, Purse(options.maxTotalBytes, cache))
  }

  // ------------------------------------------------------------- what a request looks like afterwards

  ghost predicate NoFiles(parts: seq<ContentPart>) {
    forall part :: part in parts ==> !part.File?
  }

  /** The bytes of the images in `parts`: what the budget is there to bound. */
  function ImageBytes(parts: seq<ContentPart>): nat {
    if parts == [] then 0 else (if parts[0].Image? then |parts[0].data| else 0) + ImageBytes(parts[1..])
  }

  lemma {:induction false} ImageBytesAdd(a: seq<ContentPart>, b: seq<ContentPart>)
    ensures ImageBytes(a + b) == ImageBytes(a) + ImageBytes(b)
  {
    if a == [] {
      assert a + b == b;
    } else {
      ImageBytesAdd(a[1..], b);
      assert (a + b)[1..] == a[1..] + b;
    }
  }

  /** Parts that hold no file, and no more image bytes than were charged for them. */
  ghost predicate Paid(parts: seq<ContentPart>, bytes: nat) {
    NoFiles(parts) && ImageBytes(parts) <= bytes
  }

  ghost predicate PaidCache(cache: Option<Cache>) {
    cache.Some? ==> forall key :: key in cache.value ==> Paid(cache.value[key].parts, cache.value[key].bytes)
  }

  lemma SaidIsPaid(text: string)
    ensures Paid(Say(text), 0)
  {
    assert Say(text)[1..] == [];
  }

  lemma OneLineIsPaid(parts: seq<ContentPart>)
    requires |parts| == 1 && parts[0].Text?
    ensures Paid(parts, 0)
  {
    assert parts[1..] == [];
  }

  lemma PictureIsPaid(line: string, mimeType: string, bytes: seq<bv8>)
    ensures Paid(Say(line) + [Image(mimeType, bytes)], |bytes|)
  {
    var image := [Image(mimeType, bytes)];
    ImageBytesAdd(Say(line), image);
    SaidIsPaid(line);
    assert image[1..] == [];
  }

  lemma ImageIsPaid(disk: Disk, options: Options, absolute: string, mimeType: string, line: string, size: nat,
        remaining: nat)
    ensures var (parts, bytes) := ReadImage(disk, options, absolute, mimeType, line, size, remaining);
      Paid(parts, bytes)
  {
    var (parts, bytes) := ReadImage(disk, options, absolute, mimeType, line, size, remaining);
    if |parts| == 1 {
      OneLineIsPaid(parts);
    } else {
      PictureIsPaid(line, mimeType, disk.bytes(absolute).value);
    }
  }

  lemma TextIsPaid(env: Env, disk: Disk, options: Options, absolute: string, line: string, size: nat, remaining: nat)
    ensures var (parts, bytes) := ReadText(env, disk, options, absolute, line, size, remaining);
      Paid(parts, bytes)
  {
    OneLineIsPaid(ReadText(env, disk, options, absolute, line, size, remaining).0);
  }

  lemma ReadIsPaid(env: Env, disk: Disk, options: Options, absolute: string, mimeType: string, size: nat,
        remaining: nat)
    ensures var (parts, bytes) := ReadParts(env, disk, options, absolute, mimeType, size, remaining);
      Paid(parts, bytes)
  {
    var line := Header(env, absolute, mimeType, size);
    if IsImage(mimeType) {
      ImageIsPaid(disk, options, absolute, mimeType, line, size, remaining);
    } else {
      TextIsPaid(env, disk, options, absolute, line, size, remaining);
    }
  }

  lemma FileIsPaid(env: Env, disk: Disk, options: Options, absolute: string, stat: Stat, mimeType: string, purse: Purse)
    requires PaidCache(purse.cache)
    ensures var (parts, after) := FileParts(env, disk, options, absolute, stat, mimeType, purse);
      Paid(parts, purse.remaining - after.remaining) && PaidCache(after.cache)
  {
    ReadIsPaid(env, disk, options, absolute, mimeType, stat.size, purse.remaining);
    SaidIsPaid(Header(env, absolute, mimeType, stat.size) + ". The file is empty");
    SaidIsPaid(Header(env, absolute, mimeType, stat.size) + ". Not shown inline; use the file tools to read it");
  }

  lemma OneIsPaid(env: Env, disk: Disk, options: Options, part: FilePart, purse: Purse)
    requires PaidCache(purse.cache)
    ensures var (parts, after) := One(env, disk, options, part, purse);
      Paid(parts, purse.remaining - after.remaining) && PaidCache(after.cache)
  {
    if env.locate(part.path).None? {
      SaidIsPaid("[attachment: unavailable. The path is not inside this workspace]");
    } else {
      var absolute := env.locate(part.path).value;
      SaidIsPaid("[attachment: " + env.relative(absolute) + ". No longer in the workspace]");
      SaidIsPaid("[attachment: " + env.relative(absolute) + ". A directory, not a file]");
      if disk.stat(absolute).Some? {
        FileIsPaid(env, disk, options, absolute, disk.stat(absolute).value, TypeOf(env, absolute, part), purse);
      }
    }
  }

  /** `parts` with each file replaced by some parts of its own, and every other part as it was. */
  ghost predicate Expands(parts: seq<ContentPart>, shown: seq<ContentPart>)
    decreases |parts|
  {
    if parts == [] then shown == []
    else if parts[0].File? then exists n :: 0 <= n <= |shown| && NoFiles(shown[..n]) && Expands(parts[1..], shown[n..])
    else shown != [] && shown[0] == parts[0] && Expands(parts[1..], shown[1..])
  }

  lemma {:induction false} ContentExpands(env: Env, views: nat -> Disk, k: nat, options: Options,
        content: seq<ContentPart>, purse: Purse)
    requires PaidCache(purse.cache)
    ensures var (parts, after, _) := Content(env, views, k, options, content, purse);
      && Expands(content, parts) && NoFiles(parts) && PaidCache(after.cache)
      && ImageBytes(parts) <= ImageBytes(content) + purse.remaining - after.remaining
    decreases |content|
  {
    if content != [] {
      var (whole, _, _) := Content(env, views, k, options, content, purse);
      if content[0].File? {
        var (parts, after) := One(env, views(k), options, content[0].file, purse);
        OneIsPaid(env, views(k), options, content[0].file, purse);
        ContentExpands(env, views, k + 1, options, content[1..], after);
        var rest := Content(env, views, k + 1, options, content[1..], after).0;
        ImageBytesAdd(parts, rest);
        assert whole[..|parts|] == parts;
        assert whole[|parts|..] == rest;
      } else {
        ContentExpands(env, views, k, options, content[1..], purse);
        assert whole[1..] == Content(env, views, k, options, content[1..], purse).0;
      }
    }
  }

  /** A message as a request carries it: its parts expanded, everything else as stored. */
  ghost predicate Shows(message: ChatMessage, shown: ChatMessage) {
    && Expands(PartsOf(message), PartsOf(shown)) && NoFiles(PartsOf(shown))
    && shown == WithParts(message, PartsOf(shown))
  }

  function ImagesIn(messages: seq<ChatMessage>): nat {
    if messages == [] then 0
    else ImagesIn(messages[..|messages| - 1]) + ImageBytes(PartsOf(messages[|messages| - 1]))
  }

  lemma MessageShows(env: Env, views: nat -> Disk, k: nat, options: Options, message: ChatMessage, purse: Purse)
    requires PaidCache(purse.cache)
    ensures var (parts, after, _) := Content(env, views, k, options, PartsOf(message), purse);
      var shown := WithParts(message, parts);
      && Shows(message, shown) && PaidCache(after.cache)
      && ImageBytes(PartsOf(shown)) <= ImageBytes(PartsOf(message)) + purse.remaining - after.remaining
  {
    ContentExpands(env, views, k, options, PartsOf(message), purse);
    var parts := Content(env, views, k, options, PartsOf(message), purse).0;
    if PartsOf(message) == [] {
      assert parts == [] && PartsOf(WithParts(message, parts)) == [];
    } else {
      assert PartsOf(WithParts(message, parts)) == parts;
    }
  }

  lemma OneMoreShown(older: seq<ChatMessage>, shown: ChatMessage)
    ensures ImagesIn(older + [shown]) == ImagesIn(older) + ImageBytes(PartsOf(shown))
  {
    assert (older + [shown])[..|older|] == older;
  }

  /** Each message shown, no cached file left, and no more image bytes than were paid. */
  ghost predicate AllShown(messages: seq<ChatMessage>, purse: Purse, shown: seq<ChatMessage>, after: Purse) {
    && |shown| == |messages| && (forall i :: 0 <= i < |messages| ==> Shows(messages[i], shown[i]))
    && PaidCache(after.cache)
    && ImagesIn(shown) <= ImagesIn(messages) + purse.remaining - after.remaining
  }

  lemma ShownBehind(messages: seq<ChatMessage>, purse: Purse, older: seq<ChatMessage>, mid: Purse, end: Purse,
        shown: ChatMessage)
    requires messages != [] && AllShown(messages[..|messages| - 1], mid, older, end)
    requires var last := messages[|messages| - 1];
      Shows(last, shown) && ImageBytes(PartsOf(shown)) <= ImageBytes(PartsOf(last)) + purse.remaining - mid.remaining
    ensures AllShown(messages, purse, older + [shown], end)
  {
    OneMoreShown(older, shown);
    assert forall i :: 0 <= i < |messages| - 1 ==> messages[i] == messages[..|messages| - 1][i];
  }

  lemma NoneShown(purse: Purse)
    requires PaidCache(purse.cache)
    ensures AllShown([], purse, [], purse)
  {}

  /** The newest message is materialised first, and what is left goes to those before it. */
  lemma NewestFirst(env: Env, views: nat -> Disk, k: nat, options: Options, messages: seq<ChatMessage>, purse: Purse)
    requires messages != []
    ensures var last := messages[|messages| - 1];
      var (parts, mid, next) := Content(env, views, k, options, PartsOf(last), purse);
      var (older, end, done) := Newest(env, views, next, options, messages[..|messages| - 1], mid);
      Newest(env, views, k, options, messages, purse) == (older + [WithParts(last, parts)], end, done)
  {}

  lemma {:induction false} NewestShows(env: Env, views: nat -> Disk, k: nat, options: Options,
        messages: seq<ChatMessage>, purse: Purse)
    requires PaidCache(purse.cache)
    ensures var (shown, after, _) := Newest(env, views, k, options, messages, purse);
      AllShown(messages, purse, shown, after)
    decreases |messages|
  {
    if messages == [] {
      NoneShown(purse);
    } else {
      var front, last := messages[..|messages| - 1], messages[|messages| - 1];
      MessageShows(env, views, k, options, last, purse);
      var (parts, mid, next) := Content(env, views, k, options, PartsOf(last), purse);
      NewestShows(env, views, next, options, front, mid);
      NewestFirst(env, views, k, options, messages, purse);
      var (older, end, _) := Newest(env, views, next, options, front, mid);
      ShownBehind(messages, purse, older, mid, end, WithParts(last, parts));
    }
  }

  /**
   A materialised request has the same messages in the same order, with no file reference left and every
   other part unchanged, and attachments add at most `maxTotalBytes` of images to it, cache hits
   included: whatever happens to the files between the reads.
   */
  lemma RequestIsMaterialised(env: Env, views: nat -> Disk, options: Options, messages: seq<ChatMessage>,
        cache: Option<Cache>)
    requires PaidCache(cache)
    ensures var (shown, after, _) := Materialised(env, views, options, messages, cache);
      && |shown| == |messages|
      && (forall i :: 0 <= i < |messages| ==> Shows(messages[i], shown[i]))
      && ImagesIn(shown) <= ImagesIn(messages) + options.maxTotalBytes
      && PaidCache(after.cache)
  {
    NewestShows(env, views, 0, options, messages, Purse(options.maxTotalBytes, cache));
  }

  // ------------------------------------------------------------- what a request weighs

  /** The characters of text and the bytes of images: what a request holds beside its file references. */
  function Weight(parts: seq<ContentPart>): nat {
    if parts == [] then 0
    else
      (match parts[0]
       case Text(text) => |text|
       case Image(_, data) => |data|
       case File(_) => 0) + Weight(parts[1..])
  }

  function WeightIn(messages: seq<ChatMessage>): nat {
    if messages == [] then 0
    else WeightIn(messages[..|messages| - 1]) + Weight(PartsOf(messages[|messages| - 1]))
  }

  /** One `line` for each file reference: the name it is shown under, and the words around it. */
  function Lines(parts: seq<ContentPart>, line: nat): nat {
    if parts == [] then 0 else (if parts[0].File? then line else 0) + Lines(parts[1..], line)
  }

  function LinesIn(messages: seq<ChatMessage>, line: nat): nat {
    if messages == [] then 0
    else LinesIn(messages[..|messages| - 1], line) + Lines(PartsOf(messages[|messages| - 1]), line)
  }

  /** More than any of the words that go around a name. */
  const WORDS: nat := 80

  /** No decoding of bytes as text has more characters than there are bytes. */
  ghost predicate DecodesShort(env: Env) {
    forall bytes :: |env.decode(bytes)| <= |bytes|
  }

  ghost predicate NameFits(env: Env, file: FilePart, line: nat) {
    && WORDS <= line
    && (env.locate(file.path).Some? ==>
          var absolute := env.locate(file.path).value;
          forall size: nat :: |Header(env, absolute, TypeOf(env, absolute, file), size)| + WORDS <= line)
  }

  ghost predicate NamesFit(env: Env, parts: seq<ContentPart>, line: nat) {
    forall part :: part in parts && part.File? ==> NameFits(env, part.file, line)
  }

  /** What is cached weighs no more than it charges, a line aside. */
  ghost predicate CacheFits(cache: Option<Cache>, line: nat) {
    cache.Some? ==> forall key :: key in cache.value ==> Weight(cache.value[key].parts) <= cache.value[key].bytes + line
  }

  lemma {:induction false} WeightAdds(a: seq<ContentPart>, b: seq<ContentPart>)
    ensures Weight(a + b) == Weight(a) + Weight(b)
  {
    if a == [] {
      assert a + b == b;
    } else {
      WeightAdds(a[1..], b);
      assert (a + b)[1..] == a[1..] + b;
    }
  }

  lemma SaidWeighs(text: string)
    ensures Weight(Say(text)) == |text|
  {
    assert Say(text)[1..] == [];
  }

  lemma LineFits(parts: seq<ContentPart>, line: string)
    requires |parts| == 1 && parts[0].Text? && |parts[0].text| <= |line| + WORDS
    ensures Weight(parts) <= |line| + WORDS
  {
    assert parts[1..] == [];
  }

  lemma PictureWeighs(line: string, mimeType: string, bytes: seq<bv8>)
    ensures Weight(Say(line) + [Image(mimeType, bytes)]) == |line| + |bytes|
  {
    var image := [Image(mimeType, bytes)];
    WeightAdds(Say(line), image);
    SaidWeighs(line);
    assert image[1..] == [];
  }

  lemma ImageFits(disk: Disk, options: Options, absolute: string, mimeType: string, line: string, size: nat,
        remaining: nat)
    ensures var (parts, bytes) := ReadImage(disk, options, absolute, mimeType, line, size, remaining);
      Weight(parts) <= bytes + |line| + WORDS
  {
    var (parts, bytes) := ReadImage(disk, options, absolute, mimeType, line, size, remaining);
    if |parts| == 1 {
      LineFits(parts, line);
    } else {
      PictureWeighs(line, mimeType, disk.bytes(absolute).value);
    }
  }

  lemma FenceFits(env: Env, bytes: seq<bv8>, size: nat)
    requires DecodesShort(env)
    ensures |Fenced(env, bytes, size)| <= size + WORDS
  {
    var cap := Min(size, MAX_TEXT_BYTES);
    assert |env.decode(bytes[..Min(cap, |bytes|)])| <= size;
  }

  lemma TextFits(env: Env, disk: Disk, options: Options, absolute: string, line: string, size: nat, remaining: nat)
    requires DecodesShort(env)
    ensures var (parts, bytes) := ReadText(env, disk, options, absolute, line, size, remaining);
      Weight(parts) <= bytes + |line| + WORDS
  {
    var (parts, bytes) := ReadText(env, disk, options, absolute, line, size, remaining);
    if bytes == 0 {
      LineFits(parts, line);
    } else {
      FenceFits(env, disk.bytes(absolute).value, size);
      SaidWeighs(line + Fenced(env, disk.bytes(absolute).value, size));
    }
  }

  lemma ReadFits(env: Env, disk: Disk, options: Options, absolute: string, mimeType: string, size: nat, remaining: nat)
    requires DecodesShort(env)
    ensures var (parts, bytes) := ReadParts(env, disk, options, absolute, mimeType, size, remaining);
      Weight(parts) <= bytes + |Header(env, absolute, mimeType, size)| + WORDS
  {
    var name := Header(env, absolute, mimeType, size);
    ImageFits(disk, options, absolute, mimeType, name, size, remaining);
    TextFits(env, disk, options, absolute, name, size, remaining);
  }

  lemma FileFits(env: Env, disk: Disk, options: Options, absolute: string, stat: Stat, mimeType: string,
        purse: Purse, line: nat)
    requires DecodesShort(env) && CacheFits(purse.cache, line)
    requires |Header(env, absolute, mimeType, stat.size)| + WORDS <= line
    ensures var (parts, after) := FileParts(env, disk, options, absolute, stat, mimeType, purse);
      Weight(parts) <= purse.remaining - after.remaining + line && CacheFits(after.cache, line)
  {
    var name := Header(env, absolute, mimeType, stat.size);
    if stat.size == 0 {
      SaidWeighs(name + ". The file is empty");
    } else {
      ReadFits(env, disk, options, absolute, mimeType, stat.size, purse.remaining);
      LineFits(NotInline(name), name);
    }
  }

  lemma OneFits(env: Env, disk: Disk, options: Options, file: FilePart, purse: Purse, line: nat)
    requires DecodesShort(env) && CacheFits(purse.cache, line) && NameFits(env, file, line)
    ensures var (parts, after) := One(env, disk, options, file, purse);
      Weight(parts) <= purse.remaining - after.remaining + line && CacheFits(after.cache, line)
  {
    if env.locate(file.path).None? {
      SaidWeighs("[attachment: unavailable. The path is not inside this workspace]");
    } else {
      var absolute := env.locate(file.path).value;
      assert |Header(env, absolute, TypeOf(env, absolute, file), 0)| + WORDS <= line;
      SaidWeighs("[attachment: " + env.relative(absolute) + ". No longer in the workspace]");
      SaidWeighs("[attachment: " + env.relative(absolute) + ". A directory, not a file]");
      if disk.stat(absolute).Some? {
        FileFits(env, disk, options, absolute, disk.stat(absolute).value, TypeOf(env, absolute, file), purse, line);
      }
    }
  }

  lemma {:induction false} ContentFits(env: Env, views: nat -> Disk, k: nat, options: Options,
        content: seq<ContentPart>, purse: Purse, line: nat)
    requires DecodesShort(env) && CacheFits(purse.cache, line) && NamesFit(env, content, line)
    ensures var (parts, after, _) := Content(env, views, k, options, content, purse);
      && Weight(parts) <= Weight(content) + purse.remaining - after.remaining + Lines(content, line)
      && CacheFits(after.cache, line)
    decreases |content|
  {
    if content != [] {
      assert forall part :: part in content[1..] ==> part in content;
      if content[0].File? {
        var (parts, after) := One(env, views(k), options, content[0].file, purse);
        OneFits(env, views(k), options, content[0].file, purse, line);
        ContentFits(env, views, k + 1, options, content[1..], after, line);
        WeightAdds(parts, Content(env, views, k + 1, options, content[1..], after).0);
      } else {
        ContentFits(env, views, k, options, content[1..], purse, line);
        var rest := Content(env, views, k, options, content[1..], purse).0;
        assert ([content[0]] + rest)[1..] == rest;
      }
    }
  }

  lemma MessageFits(env: Env, views: nat -> Disk, k: nat, options: Options, message: ChatMessage, purse: Purse,
        line: nat)
    requires DecodesShort(env) && CacheFits(purse.cache, line) && NamesFit(env, PartsOf(message), line)
    ensures var (parts, after, _) := Content(env, views, k, options, PartsOf(message), purse);
      && Weight(PartsOf(WithParts(message, parts)))
         <= Weight(PartsOf(message)) + purse.remaining - after.remaining + Lines(PartsOf(message), line)
      && CacheFits(after.cache, line)
  {
    ContentFits(env, views, k, options, PartsOf(message), purse, line);
  }

  lemma OneMoreWeighs(older: seq<ChatMessage>, shown: ChatMessage)
    ensures WeightIn(older + [shown]) == WeightIn(older) + Weight(PartsOf(shown))
  {
    assert (older + [shown])[..|older|] == older;
  }

  lemma {:induction false} NewestFits(env: Env, views: nat -> Disk, k: nat, options: Options,
        messages: seq<ChatMessage>, purse: Purse, line: nat)
    requires DecodesShort(env) && CacheFits(purse.cache, line)
    requires forall message :: message in messages ==> NamesFit(env, PartsOf(message), line)
    ensures var (shown, after, _) := Newest(env, views, k, options, messages, purse);
      && WeightIn(shown) <= WeightIn(messages) + purse.remaining - after.remaining + LinesIn(messages, line)
      && CacheFits(after.cache, line)
    decreases |messages|
  {
    if messages != [] {
      var front, last := messages[..|messages| - 1], messages[|messages| - 1];
      assert last in messages && forall message :: message in front ==> message in messages;
      MessageFits(env, views, k, options, last, purse, line);
      var (parts, mid, next) := Content(env, views, k, options, PartsOf(last), purse);
      NewestFits(env, views, next, options, front, mid, line);
      OneMoreWeighs(Newest(env, views, next, options, front, mid).0, WithParts(last, parts));
    }
  }

  /**
   The budget bounds a request, text and images together and cache hits included: whatever is read, and
   whatever happens to the files meanwhile, what is sent weighs at most the budget more than what was
   stored, and a line for each file reference.
   */
  lemma RequestGrowsWithinTheBudget(env: Env, views: nat -> Disk, options: Options, messages: seq<ChatMessage>,
        cache: Option<Cache>, line: nat)
    requires DecodesShort(env) && CacheFits(cache, line)
    requires forall message :: message in messages ==> NamesFit(env, PartsOf(message), line)
    ensures var (shown, after, _) := Materialised(env, views, options, messages, cache);
      && WeightIn(shown) <= WeightIn(messages) + options.maxTotalBytes + LinesIn(messages, line)
      && CacheFits(after.cache, line)
  {
    NewestFits(env, views, 0, options, messages, Purse(options.maxTotalBytes, cache), line);
  }

  /** Newer messages are served first: what they show is what they would show with no older ones. */
  lemma {:induction false} OlderNeverCrowdsOut(env: Env, views: nat -> Disk, k: nat, options: Options,
        older: seq<ChatMessage>, recent: seq<ChatMessage>, purse: Purse)
    ensures Newest(env, views, k, options, older + recent, purse).0[|older|..] ==
        Newest(env, views, k, options, recent, purse).0
    decreases |recent|
  {
    var whole := Newest(env, views, k, options, older + recent, purse).0;
    if recent == [] {
      assert whole[|older|..] == [];
    } else {
      var front, last := recent[..|recent| - 1], recent[|recent| - 1];
      assert (older + recent)[..|older + recent| - 1] == older + front;
      var (parts, after, next) := Content(env, views, k, options, PartsOf(last), purse);
      OlderNeverCrowdsOut(env, views, next, options, older, front, after);
      var rest := Newest(env, views, next, options, older + front, after).0;
      assert whole == rest + [WithParts(last, parts)];
      assert whole[|older|..] == rest[|older|..] + [WithParts(last, parts)];
    }
  }

  // ------------------------------------------------------------- the cache is transparent

  /** A file's read agrees with its stat. */
  ghost predicate StableDisk(disk: Disk) {
    forall absolute :: disk.stat(absolute).Some? && disk.bytes(absolute).Some? ==>
      |disk.bytes(absolute).value| == disk.stat(absolute).value.size
  }

  ghost predicate TypedByPath(env: Env, typeAt: string -> string, parts: seq<ContentPart>) {
    forall part :: part in parts && part.File? && env.locate(part.file.path).Some? ==>
      var absolute := env.locate(part.file.path).value;
      TypeOf(env, absolute, part.file) == typeAt(absolute)
  }

  /** What a path held when it had a size and an mtime; `None` when it could not be read. */
  type Versions = (string, nat, nat) -> Option<seq<bv8>>

  /** A disk as it is at some moment, if no file is ever rewritten under its old size and mtime. */
  ghost predicate Dated(disk: Disk, versions: Versions) {
    && StableDisk(disk)
    && forall absolute :: disk.stat(absolute).Some? ==>
        disk.bytes(absolute) == versions(absolute, disk.stat(absolute).value.size, disk.stat(absolute).value.mtime)
  }

  function Holding(bytes: Option<seq<bv8>>): Disk {
    Disk((path: string) => None, (path: string) => bytes)
  }

  /** A read depends on the bytes it meets, and on nothing else of the disk. */
  lemma SameBytesReadAlike(env: Env, a: Disk, b: Disk, options: Options, absolute: string, mimeType: string,
        size: nat, remaining: nat)
    requires a.bytes(absolute) == b.bytes(absolute)
    ensures ReadParts(env, a, options, absolute, mimeType, size, remaining) ==
        ReadParts(env, b, options, absolute, mimeType, size, remaining)
  {}

  /** What a read with budget to spare would inline, of the version under a stat. */
  function Ample(env: Env, versions: Versions, options: Options, typeAt: string -> string, absolute: string,
        stat: Stat): (seq<ContentPart>, nat) {
    ReadParts(env, Holding(versions(absolute, stat.size, stat.mtime)), options, absolute, typeAt(absolute),
        stat.size, stat.size)
  }

  /** Every entry is what a read of its version would inline, at its size. */
  ghost predicate Faithful(env: Env, versions: Versions, options: Options, typeAt: string -> string, cache: Cache) {
    forall absolute, stat :: CacheKey(stat, absolute) in cache ==>
      && cache[CacheKey(stat, absolute)] ==
          Inlined(Ample(env, versions, options, typeAt, absolute, stat).0, stat.size)
      && Ample(env, versions, options, typeAt, absolute, stat).1 == stat.size
  }

  /** On a stable file the budget decides only whether it is inlined, never how. */
  lemma BudgetOnlyGates(env: Env, disk: Disk, options: Options, absolute: string, mimeType: string, size: nat,
        remaining: nat)
    requires disk.bytes(absolute).Some? ==> |disk.bytes(absolute).value| == size
    requires size > 0
    ensures var ample := ReadParts(env, disk, options, absolute, mimeType, size, size);
      var read := ReadParts(env, disk, options, absolute, mimeType, size, remaining);
      && ample.1 in {0, size}
      && (size <= remaining ==> read == ample)
      && (size > remaining && ample.1 > 0 ==> read == (NotInline(Header(env, absolute, mimeType, size)), 0))
      && (size > remaining ==> read.1 == 0)
  {}

  lemma StillFaithful(env: Env, versions: Versions, options: Options, typeAt: string -> string, cache: Cache,
        absolute: string, stat: Stat, parts: seq<ContentPart>)
    requires Faithful(env, versions, options, typeAt, cache)
    requires Ample(env, versions, options, typeAt, absolute, stat) == (parts, stat.size)
    ensures Faithful(env, versions, options, typeAt, cache[CacheKey(stat, absolute) := Inlined(parts, stat.size)])
  {
    forall other, its | CacheKey(its, other) == CacheKey(stat, absolute)
      ensures other == absolute && its.size == stat.size && its.mtime == stat.mtime
    {
      CacheKeyIsInjective(its, stat, other, absolute);
    }
  }

  lemma FileIsTransparent(env: Env, disk: Disk, versions: Versions, options: Options, typeAt: string -> string,
        absolute: string, remaining: nat, cache: Cache)
    requires Dated(disk, versions) && disk.stat(absolute).Some? && Faithful(env, versions, options, typeAt, cache)
    ensures var stat := disk.stat(absolute).value;
      var (parts, after) := FileParts(env, disk, options, absolute, stat, typeAt(absolute),
          Purse(remaining, Some(cache)));
      var (plain, without) := FileParts(env, disk, options, absolute, stat, typeAt(absolute), Purse(remaining, None));
      && parts == plain && after.remaining == without.remaining
      && after.cache.Some? && Faithful(env, versions, options, typeAt, after.cache.value)
      && without.cache.None?
  {
    var stat := disk.stat(absolute).value;
    if stat.size > 0 {
      BudgetOnlyGates(env, disk, options, absolute, typeAt(absolute), stat.size, remaining);
      SameBytesReadAlike(env, disk, Holding(versions(absolute, stat.size, stat.mtime)), options, absolute,
          typeAt(absolute), stat.size, stat.size);
      var (parts, bytes) := ReadParts(env, disk, options, absolute, typeAt(absolute), stat.size, remaining);
      if CacheKey(stat, absolute) !in cache && bytes > 0 {
        StillFaithful(env, versions, options, typeAt, cache, absolute, stat, parts);
      }
    }
  }

  lemma OneIsTransparent(env: Env, disk: Disk, versions: Versions, options: Options, typeAt: string -> string,
        part: FilePart, remaining: nat, cache: Cache)
    requires Dated(disk, versions) && TypedByPath(env, typeAt, [File(part)])
    requires Faithful(env, versions, options, typeAt, cache)
    ensures var (parts, after) := One(env, disk, options, part, Purse(remaining, Some(cache)));
      var (plain, without) := One(env, disk, options, part, Purse(remaining, None));
      && parts == plain && after.remaining == without.remaining
      && after.cache.Some? && Faithful(env, versions, options, typeAt, after.cache.value)
      && without.cache.None?
  {
    assert File(part) in [File(part)];
    if env.locate(part.path).Some? && disk.stat(env.locate(part.path).value).Some? {
      FileIsTransparent(env, disk, versions, options, typeAt, env.locate(part.path).value, remaining, cache);
    }
  }

  /** Whatever the disk becomes between reads, each view of it is dated. */
  ghost predicate AllDated(views: nat -> Disk, versions: Versions) {
    forall k: nat :: Dated(views(k), versions)
  }

  lemma {:induction false} ContentIsTransparent(env: Env, views: nat -> Disk, versions: Versions, k: nat,
        options: Options, typeAt: string -> string, content: seq<ContentPart>, remaining: nat, cache: Cache)
    requires AllDated(views, versions) && TypedByPath(env, typeAt, content)
    requires Faithful(env, versions, options, typeAt, cache)
    ensures var (parts, after, next) := Content(env, views, k, options, content, Purse(remaining, Some(cache)));
      var (plain, without, other) := Content(env, views, k, options, content, Purse(remaining, None));
      && parts == plain && after.remaining == without.remaining && next == other
      && after.cache.Some? && Faithful(env, versions, options, typeAt, after.cache.value)
      && without.cache.None?
    decreases |content|
  {
    if content != [] {
      assert forall part :: part in content[1..] ==> part in content;
      if content[0].File? {
        var file := content[0].file;
        OneIsTransparent(env, views(k), versions, options, typeAt, file, remaining, cache);
        var after := One(env, views(k), options, file, Purse(remaining, Some(cache))).1;
        ContentIsTransparent(env, views, versions, k + 1, options, typeAt, content[1..], after.remaining,
            after.cache.value);
      } else {
        ContentIsTransparent(env, views, versions, k, options, typeAt, content[1..], remaining, cache);
      }
    }
  }

  /**
   While no file is rewritten under its old size and mtime, and types are fixed by path, materialising with
   any cache this code built shows exactly what materialising without one shows and spends the same budget,
   and leaves such a cache behind, however the disk changes between the reads.
   */
  lemma {:induction false} CacheIsTransparent(env: Env, views: nat -> Disk, versions: Versions, k: nat,
        options: Options, typeAt: string -> string, messages: seq<ChatMessage>, remaining: nat, cache: Cache)
    requires AllDated(views, versions) && Faithful(env, versions, options, typeAt, cache)
    requires forall message :: message in messages ==> TypedByPath(env, typeAt, PartsOf(message))
    ensures var (shown, after, _) := Newest(env, views, k, options, messages, Purse(remaining, Some(cache)));
      var (plain, without, _) := Newest(env, views, k, options, messages, Purse(remaining, None));
      && shown == plain && after.remaining == without.remaining
      && after.cache.Some? && Faithful(env, versions, options, typeAt, after.cache.value)
    decreases |messages|
  {
    if messages != [] {
      var last := messages[|messages| - 1];
      assert last in messages;
      ContentIsTransparent(env, views, versions, k, options, typeAt, PartsOf(last), remaining, cache);
      var (parts, after, next) := Content(env, views, k, options, PartsOf(last), Purse(remaining, Some(cache)));
      CacheIsTransparent(env, views, versions, next, options, typeAt, messages[..|messages| - 1], after.remaining,
          after.cache.value);
    }
  }

  /** A turn starts with an empty cache, which is faithful to every disk and paid for by every budget. */
  lemma EmptyCacheIsFaithful(env: Env, versions: Versions, options: Options, typeAt: string -> string)
    ensures Faithful(env, versions, options, typeAt, map[]) && PaidCache(Some(map[]))
  {}

  lemma MiddlesAgree(front: string, a: string, b: string, back: string)
    ensures front + a + back == front + b + back ==> a == b
  {
    var s := front + a + back;
    if s == front + b + back {
      assert a == s[|front|..|front| + |a|] == b;
    }
  }

  /** The first line of what an inlined read shows names its type. */
  lemma HeaderNamesTheType(env: Env, absolute: string, a: string, b: string, size: nat, tail: string)
    requires Header(env, absolute, a, size) + tail == Header(env, absolute, b, size) + tail
    ensures a == b
  {
    var front := "[attachment: " + env.relative(absolute) + " · ";
    var back := " · " + env.formatBytes(size) + "]" + tail;
    assert Header(env, absolute, a, size) + tail == front + a + back;
    assert Header(env, absolute, b, size) + tail == front + b + back;
    MiddlesAgree(front, a, b, back);
  }

  lemma InlinedTextIsFenced(env: Env, disk: Disk, options: Options, absolute: string, mimeType: string, size: nat)
    requires !IsImage(mimeType) && ReadParts(env, disk, options, absolute, mimeType, size, size).1 > 0
    ensures disk.bytes(absolute).Some?
    ensures ReadParts(env, disk, options, absolute, mimeType, size, size).0
      == Say(Header(env, absolute, mimeType, size) + Fenced(env, disk.bytes(absolute).value, size))
  {}

  /** What is on disk under a stat, read as `mimeType` with `remaining` to spare. */
  function ReadAs(env: Env, disk: Disk, options: Options, absolute: string, mimeType: string,
        remaining: nat): (seq<ContentPart>, nat)
    requires disk.stat(absolute).Some?
  {
    ReadParts(env, disk, options, absolute, mimeType, disk.stat(absolute).value.size, remaining)
  }

  /**
   When a second part that names a file the first one did is shown alike with the first one cached and
   without: the first was not inlined, or both read the file as the same type, or no budget is left for
   it and it is not an image to be refused for what it is.
   */
  ghost predicate SharesWell(env: Env, disk: Disk, options: Options, absolute: string, first: string, second: string,
        remaining: nat)
    requires disk.stat(absolute).Some?
  {
    var size := disk.stat(absolute).value.size;
    || ReadAs(env, disk, options, absolute, first, remaining).1 == 0
    || first == second
    || (2 * size > remaining && (IsImage(second) ==> options.images && size <= options.maxImageBytes))
  }

  /** A file shown twice in a row: what the second showing gives, of type `second`, after one of type `first`. */
  function ShownAgain(env: Env, disk: Disk, options: Options, absolute: string, first: string, second: string,
        purse: Purse): seq<ContentPart>
    requires disk.stat(absolute).Some?
  {
    var stat := disk.stat(absolute).value;
    FileParts(env, disk, options, absolute, stat, second,
        FileParts(env, disk, options, absolute, stat, first, purse).1).0
  }

  /** Without a cache the second is read for itself, with what the first left. */
  lemma ShownAgainUncached(env: Env, disk: Disk, options: Options, absolute: string, first: string, second: string,
        remaining: nat)
    requires disk.stat(absolute).Some? && disk.stat(absolute).value.size > 0
    ensures ShownAgain(env, disk, options, absolute, first, second, Purse(remaining, None))
      == ReadAs(env, disk, options, absolute, second,
          remaining - ReadAs(env, disk, options, absolute, first, remaining).1).0
  {}

  /** With one it is what the first was, while that fits; a first that was not inlined leaves nothing behind. */
  lemma ShownAgainCached(env: Env, disk: Disk, options: Options, absolute: string, first: string, second: string,
        remaining: nat)
    requires StableDisk(disk) && disk.stat(absolute).Some? && disk.stat(absolute).value.size > 0
    ensures var size := disk.stat(absolute).value.size;
      var shown := ReadAs(env, disk, options, absolute, first, remaining);
      ShownAgain(env, disk, options, absolute, first, second, Purse(remaining, Some(map[]))) ==
        if shown.1 == 0 then ReadAs(env, disk, options, absolute, second, remaining).0
        else if size > remaining - shown.1 then NotInline(Header(env, absolute, second, size)) else shown.0
  {
    BudgetOnlyGates(env, disk, options, absolute, first, disk.stat(absolute).value.size, remaining);
    var stat := disk.stat(absolute).value;
    var after := FileParts(env, disk, options, absolute, stat, first, Purse(remaining, Some(map[]))).1;
    var (parts, bytes) := ReadAs(env, disk, options, absolute, first, remaining);
    assert after == Purse(remaining - bytes,
        Some(if bytes > 0 then map[CacheKey(stat, absolute) := Inlined(parts, bytes)] else map[]));
  }

  /** A read there is no budget for says so, but for an image refused before the budget is looked at. */
  lemma NoBudgetLeft(env: Env, disk: Disk, options: Options, absolute: string, mimeType: string, size: nat,
        remaining: nat)
    requires size > remaining
    ensures ReadParts(env, disk, options, absolute, mimeType, size, remaining).0 ==
        NotInline(Header(env, absolute, mimeType, size))
      <==> (IsImage(mimeType) ==> options.images && size <= options.maxImageBytes)
  {
    var line := Header(env, absolute, mimeType, size);
    if IsImage(mimeType) && !options.images {
      TailsDiffer(line, ". This model cannot read images; use the file tools",
          ". Not shown inline; use the file tools to read it");
    } else if IsImage(mimeType) && size > options.maxImageBytes {
      TailsDiffer(line, ". Too large to show; use the file tools to read it",
          ". Not shown inline; use the file tools to read it");
    }
  }

  lemma TailsDiffer(line: string, a: string, b: string)
    requires a != b
    ensures Say(line + a) != Say(line + b)
  {
    assert (line + a)[|line|..] == a && (line + b)[|line|..] == b;
  }

  /**
   The key leaves out the part's own type. Where the table has none the type is the part's own, so two
   parts that name one file by different types share an entry, and the second may be shown as the first's.
   This is when it is not, for any two types a file is read as one after the other, and any budget.
   */
  lemma KeyOmitsThePartsType(env: Env, disk: Disk, options: Options, absolute: string, first: string, second: string,
        remaining: nat)
    requires StableDisk(disk) && disk.stat(absolute).Some? && disk.stat(absolute).value.size > 0
    ensures ShownAgain(env, disk, options, absolute, first, second, Purse(remaining, Some(map[])))
        == ShownAgain(env, disk, options, absolute, first, second, Purse(remaining, None))
      <==> SharesWell(env, disk, options, absolute, first, second, remaining)
  {
    var size := disk.stat(absolute).value.size;
    ShownAgainCached(env, disk, options, absolute, first, second, remaining);
    ShownAgainUncached(env, disk, options, absolute, first, second, remaining);
    if ReadAs(env, disk, options, absolute, first, remaining).1 > 0 {
      InlinedSharesIff(env, disk, options, absolute, first, second, size, remaining);
    }
  }

  /** What was inlined charged the whole size, and was read as it would be with just that budget. */
  lemma InlinedCharges(env: Env, disk: Disk, options: Options, absolute: string, mimeType: string, size: nat,
        remaining: nat)
    requires disk.bytes(absolute).Some? ==> |disk.bytes(absolute).value| == size
    requires size > 0 && ReadParts(env, disk, options, absolute, mimeType, size, remaining).1 > 0
    ensures ReadParts(env, disk, options, absolute, mimeType, size, remaining).1 == size <= remaining
    ensures ReadParts(env, disk, options, absolute, mimeType, size, size) ==
        ReadParts(env, disk, options, absolute, mimeType, size, remaining)
  {
    BudgetOnlyGates(env, disk, options, absolute, mimeType, size, remaining);
  }

  /** No budget is left for the second: its cached showing is by name. */
  lemma NoRoomSharesIff(env: Env, disk: Disk, options: Options, absolute: string, first: string, second: string,
        size: nat, left: nat)
    requires size > left && (IsImage(first) ==> options.images && size <= options.maxImageBytes)
    ensures NotInline(Header(env, absolute, second, size)) ==
        ReadParts(env, disk, options, absolute, second, size, left).0
      <==> first == second || (IsImage(second) ==> options.images && size <= options.maxImageBytes)
  {
    NoBudgetLeft(env, disk, options, absolute, second, size, left);
  }

  /** The first was inlined: what is cached against what the second is read as. */
  lemma InlinedSharesIff(env: Env, disk: Disk, options: Options, absolute: string, first: string, second: string,
        size: nat, remaining: nat)
    requires disk.bytes(absolute).Some? ==> |disk.bytes(absolute).value| == size
    requires size > 0 && ReadParts(env, disk, options, absolute, first, size, remaining).1 > 0
    ensures ReadParts(env, disk, options, absolute, first, size, remaining).1 == size <= remaining
    ensures var cached := if size > remaining - size then NotInline(Header(env, absolute, second, size))
        else ReadParts(env, disk, options, absolute, first, size, remaining).0;
      cached == ReadParts(env, disk, options, absolute, second, size, remaining - size).0 <==>
        first == second ||
        (2 * size > remaining && (IsImage(second) ==> options.images && size <= options.maxImageBytes))
  {
    InlinedCharges(env, disk, options, absolute, first, size, remaining);
    if 2 * size > remaining {
      SameTypeSharesWell(env, disk, options, absolute, first, size, remaining);
      NoRoomSharesIff(env, disk, options, absolute, first, second, size, remaining - size);
    } else {
      AmpleAgreesIff(env, disk, options, absolute, first, second, size, remaining - size);
    }
  }

  /** With budget for both, the two readings agree exactly when the types do. */
  lemma AmpleAgreesIff(env: Env, disk: Disk, options: Options, absolute: string, first: string, second: string,
        size: nat, remaining: nat)
    requires disk.bytes(absolute).Some? ==> |disk.bytes(absolute).value| == size
    requires 0 < size <= remaining && ReadParts(env, disk, options, absolute, first, size, size).1 > 0
    ensures
      (ReadParts(env, disk, options, absolute, first, size, size).0 ==
        ReadParts(env, disk, options, absolute, second, size, remaining).0) <==> first == second
  {
    BudgetOnlyGates(env, disk, options, absolute, second, size, remaining);
    if ReadParts(env, disk, options, absolute, first, size, size).0 ==
        ReadParts(env, disk, options, absolute, second, size, size).0 {
      ShownTypesAgree(env, disk, options, absolute, first, second, size);
    }
  }

  /** A type inlined once is never an image to be refused. */
  lemma SameTypeSharesWell(env: Env, disk: Disk, options: Options, absolute: string, mimeType: string, size: nat,
        remaining: nat)
    requires ReadParts(env, disk, options, absolute, mimeType, size, remaining).1 > 0
    ensures IsImage(mimeType) ==> options.images && size <= options.maxImageBytes
  {}

  /**
   It does happen: two parts name one file of one byte, of a type the table does not know, as text and then
   as an image. With the turn's cache both show the text; read for itself, the second shows an image.
   */
  lemma SharedEntryShowsTheWrongType(env: Env, disk: Disk, path: string, absolute: string, remaining: nat)
    requires env.locate(path) == Some(absolute) && env.mimeFor(env.relative(absolute)) == DEFAULT_MIME_TYPE
    requires disk.stat(absolute).Some? && !disk.stat(absolute).value.isDir && disk.stat(absolute).value.size == 1
    requires disk.bytes(absolute) == Some([65]) && remaining >= 2
    ensures var named, again := FilePart(path, "text/plain", None), FilePart(path, "image/png", None);
      var text := Say(Header(env, absolute, "text/plain", 1) + Fenced(env, [65], 1));
      var (first, after) := One(env, disk, DEFAULT_OPTIONS, named, Purse(remaining, Some(map[])));
      && first == text && One(env, disk, DEFAULT_OPTIONS, again, after).0 == text
      && One(env, disk, DEFAULT_OPTIONS, again, Purse(after.remaining, None)).0
         == Say(Header(env, absolute, "image/png", 1)) + [Image("image/png", [65])]
  {
    assert "text/plain"[0] == 't' && "image/png"[0] == 'i';
    var bytes: seq<bv8> := [65];
    assert bytes[..1] == [65] && 0 !in bytes[..1];
  }

  /** What the reads of one request meet, when `views(i, k)` is the disk at the k-th read of the i-th. */
  function During(views: (nat, nat) -> Disk, i: nat): nat -> Disk {
    (k: nat) => views(i, k)
  }

  /** Requests one after the other under one cache: what each showed, and the cache. */
  function Requests(env: Env, views: (nat, nat) -> Disk, options: Options, requests: seq<seq<ChatMessage>>,
        cache: Option<Cache>): (r: (seq<seq<ChatMessage>>, Option<Cache>))
    ensures |r.0| == |requests|
  {
    if requests == [] then ([], cache)
    else
      var i := |requests| - 1;
      var (shown, before) := Requests(env, views, options, requests[..i], cache);
      var (last, after, _) := Materialised(env, During(views, i), options, requests[i], before);
      (shown + [last], after.cache)
  }

  /**
   Over any number of requests of a turn, from the empty cache it starts with, whatever is rewritten between
   and during them: while a rewrite leaves another size or mtime and types are fixed by path, every request
   is shown as it would be with no cache at all, so a file the agent rewrote is read again.
   */
  lemma {:induction false} CacheStaysTransparent(env: Env, views: (nat, nat) -> Disk, versions: Versions,
        options: Options, typeAt: string -> string, requests: seq<seq<ChatMessage>>)
    requires forall i: nat, k: nat :: Dated(views(i, k), versions)
    requires forall messages, message :: messages in requests && message in messages ==>
        TypedByPath(env, typeAt, PartsOf(message))
    ensures var (shown, cache) := Requests(env, views, options, requests, Some(map[]));
      && cache.Some? && Faithful(env, versions, options, typeAt, cache.value)
      && forall i :: 0 <= i < |requests| ==>
        shown[i] == Materialised(env, During(views, i), options, requests[i], None).0
  {
    if requests == [] {
      EmptyCacheIsFaithful(env, versions, options, typeAt);
    } else {
      var i := |requests| - 1;
      var front, last := requests[..i], requests[i];
      CacheStaysTransparent(env, views, versions, options, typeAt, front);
      var cache := Requests(env, views, options, front, Some(map[])).1;
      assert last in requests;
      CacheIsTransparent(env, During(views, i), versions, 0, options, typeAt, last, options.maxTotalBytes,
          cache.value);
    }
  }

  /** The date is what it takes: a file rewritten under its old size and mtime is shown as it was before. */
  lemma UndatedRewriteIsNotSeen(env: Env, before: Disk, after: Disk, part: FilePart, absolute: string,
        remaining: nat)
    requires env.locate(part.path) == Some(absolute) && !IsImage(TypeOf(env, absolute, part))
    requires before.stat(absolute).Some? && !before.stat(absolute).value.isDir
    requires after.stat(absolute) == before.stat(absolute) && before.stat(absolute).value.size == 1
    requires before.bytes(absolute) == Some([65]) && after.bytes(absolute) == Some([66]) && remaining >= 2
    requires env.decode([65]) != env.decode([66])
    ensures var (first, kept) := One(env, before, DEFAULT_OPTIONS, part, Purse(remaining, Some(map[])));
      && One(env, after, DEFAULT_OPTIONS, part, kept).0 == first
      && One(env, after, DEFAULT_OPTIONS, part, Purse(remaining, None)).0 != first
  {
    var a: seq<bv8>, b: seq<bv8> := [65], [66];
    assert a[..1] == a && b[..1] == b;
    FencesDiffer(env, Header(env, absolute, TypeOf(env, absolute, part), 1), a, b);
  }

  lemma FencesDiffer(env: Env, line: string, a: seq<bv8>, b: seq<bv8>)
    requires |a| == 1 && |b| == 1 && env.decode(a) != env.decode(b)
    ensures Say(line + Fenced(env, a, 1)) != Say(line + Fenced(env, b, 1))
  {
    assert a[..1] == a && b[..1] == b;
    var front, back := line + "\n\n```\n", "\n```" + "";
    assert line + Fenced(env, a, 1) == front + env.decode(a) + back;
    assert line + Fenced(env, b, 1) == front + env.decode(b) + back;
    MiddlesAgree(front, env.decode(a), env.decode(b), back);
  }

  /** A picture is the only showing in two parts, and it names its type. */
  lemma PictureNamesItsType(env: Env, disk: Disk, options: Options, absolute: string, mimeType: string, size: nat)
    ensures var (shown, bytes) := ReadParts(env, disk, options, absolute, mimeType, size, size);
      && (IsImage(mimeType) && bytes > 0 ==> |shown| == 2)
      && (|shown| == 2 ==> shown[1].Image? && shown[1].mimeType == mimeType)
  {}

  /** Text that was inlined ends in its fence, so no refusal and no other type's text is shown alike. */
  lemma TextNamesItsType(env: Env, disk: Disk, options: Options, absolute: string, a: string, b: string, size: nat)
    requires !IsImage(a) && ReadParts(env, disk, options, absolute, a, size, size).1 > 0
    requires ReadParts(env, disk, options, absolute, a, size, size).0 ==
        ReadParts(env, disk, options, absolute, b, size, size).0
    ensures a == b
  {
    var shown := ReadParts(env, disk, options, absolute, a, size, size).0;
    InlinedTextIsFenced(env, disk, options, absolute, a, size);
    var fence := Fenced(env, disk.bytes(absolute).value, size);
    assert shown[0].text[|shown[0].text| - 1] == fence[|fence| - 1];
    if ReadParts(env, disk, options, absolute, b, size, size).1 > 0 && !IsImage(b) {
      InlinedTextIsFenced(env, disk, options, absolute, b, size);
      HeaderNamesTheType(env, absolute, a, b, size, fence);
    } else {
      RefusalEndsInAWord(env, disk, options, absolute, b, size);
    }
  }

  /** What an inlined read shows tells its type. */
  lemma ShownTypesAgree(env: Env, disk: Disk, options: Options, absolute: string, a: string, b: string, size: nat)
    requires ReadParts(env, disk, options, absolute, a, size, size).1 > 0
    requires ReadParts(env, disk, options, absolute, a, size, size).0 ==
        ReadParts(env, disk, options, absolute, b, size, size).0
    ensures a == b
  {
    if IsImage(a) {
      PictureNamesItsType(env, disk, options, absolute, a, size);
      PictureNamesItsType(env, disk, options, absolute, b, size);
    } else {
      TextNamesItsType(env, disk, options, absolute, a, b, size);
    }
  }

  ghost predicate EndsInALetter(text: string) {
    text != "" && text[|text| - 1] in {'t', 'd', 's'}
  }

  lemma EndsLikeItsTail(line: string, tail: string)
    requires EndsInALetter(tail)
    ensures EndsInALetter(line + tail)
  {}

  /** Anything but inlined text is two parts, or one line that ends in a letter. */
  lemma RefusalEndsInAWord(env: Env, disk: Disk, options: Options, absolute: string, mimeType: string, size: nat)
    requires size > 0
    requires ReadParts(env, disk, options, absolute, mimeType, size, size).1 == 0 || IsImage(mimeType)
    ensures var shown := ReadParts(env, disk, options, absolute, mimeType, size, size).0;
      |shown| == 2 || (|shown| == 1 && shown[0].Text? && EndsInALetter(shown[0].text))
  {
    var line := Header(env, absolute, mimeType, size);
    EndsLikeItsTail(line, ". This model cannot read images; use the file tools");
    EndsLikeItsTail(line, ". Too large to show; use the file tools to read it");
    EndsLikeItsTail(line, ". Not shown inline; use the file tools to read it");
    EndsLikeItsTail(line, ". Could not be read");
  }

  // ------------------------------------------------------------- what a stored reference is priced at

  /** What a file adds to a request, read off the stored part with no I/O. */
  function AttachmentTokens(mimeFor: string -> string, part: FilePart, options: Options): nat {
    if part.sizeBytes.None? || part.sizeBytes.value == 0 then 0
    else
      var size := part.sizeBytes.value;
      var derived := mimeFor(part.path);
      var mimeType := if derived == DEFAULT_MIME_TYPE then part.mimeType else derived;
      if IsImage(mimeType) then if options.images && size <= options.maxImageBytes then IMAGE_TOKENS else 0
      else if size <= options.maxTextBytes then (size + 3) / 4 else 0
  }

  /**
   A part whose path and size are what the disk holds is priced above nothing exactly when reading it
   with budget to spare would inline it, unless the file cannot be read or is no text.
   */
  lemma PricedWhenInlined(env: Env, disk: Disk, options: Options, part: FilePart, absolute: string)
    requires env.relative(absolute) == part.path && StableDisk(disk)
    requires disk.stat(absolute).Some? && disk.stat(absolute).value.size > 0
    requires part.sizeBytes == Some(disk.stat(absolute).value.size)
    ensures var mimeType := TypeOf(env, absolute, part);
      var size := disk.stat(absolute).value.size;
      var bytes := disk.bytes(absolute);
      ReadParts(env, disk, options, absolute, mimeType, size, size).1 > 0 <==>
        AttachmentTokens(env.mimeFor, part, options) > 0 && bytes.Some?
        && (IsImage(mimeType) || 0 !in bytes.value[..Min(size, MAX_TEXT_BYTES)])
  {}

  // ------------------------------------------------------------- the request as it is read

  lemma NothingToDo(env: Env, views: nat -> Disk, k: nat, options: Options, content: seq<ContentPart>, purse: Purse)
    requires NoFiles(content)
    ensures Content(env, views, k, options, content, purse) == (content, purse, k)
    decreases |content|
  {
    if content != [] {
      assert forall part :: part in content[1..] ==> part in content;
      NothingToDo(env, views, k, options, content[1..], purse);
      assert [content[0]] + content[1..] == content;
    }
  }

  lemma WithOwnParts(message: ChatMessage)
    ensures WithParts(message, PartsOf(message)) == message
  {}

  lemma ContentFromFile(env: Env, views: nat -> Disk, k: nat, options: Options, content: seq<ContentPart>, i: nat,
        purse: Purse)
    requires i < |content| && content[i].File?
    ensures var (parts, after) := One(env, views(k), options, content[i].file, purse);
      var later := Content(env, views, k + 1, options, content[i + 1..], after);
      Content(env, views, k, options, content[i..], purse) == (parts + later.0, later.1, later.2)
  {
    var rest := content[i..];
    assert rest[0] == content[i] && rest[1..] == content[i + 1..];
  }

  lemma ContentFromOther(env: Env, views: nat -> Disk, k: nat, options: Options, content: seq<ContentPart>, i: nat,
        purse: Purse)
    requires i < |content| && !content[i].File?
    ensures var later := Content(env, views, k, options, content[i + 1..], purse);
      Content(env, views, k, options, content[i..], purse) == ([content[i]] + later.0, later.1, later.2)
  {
    var rest := content[i..];
    assert rest[0] == content[i] && rest[1..] == content[i + 1..];
  }

  class Reading {
    const env: Env
    const options: Options
    /** What the disk holds when the k-th file reference is read. */
    const views: nat -> Disk
    var remaining: nat
    var cache: Option<Cache>
    var met: nat

    function Left(): Purse
      reads this
    {
      Purse(remaining, cache)
    }

    constructor (env: Env, options: Options, views: nat -> Disk, cache: Option<Cache>)
      ensures this.env == env && this.options == options && this.views == views
      ensures Left() == Purse(options.maxTotalBytes, cache) && met == 0
    {
      this.env, this.options, this.views := env, options, views;
      this.remaining, this.cache, this.met := options.maxTotalBytes, cache, 0;
    }

    method ReadInto(disk: Disk, absolute: string, mimeType: string, size: nat) returns (parts: seq<ContentPart>,
          bytes: nat)
      modifies this`remaining
      ensures (parts, bytes) == ReadParts(env, disk, options, absolute, mimeType, size, old(remaining))
      ensures remaining == old(remaining) - bytes
    {
      var line := Header(env, absolute, mimeType, size);
      if IsImage(mimeType) {
        if !options.images {
          return Say(line + ". This model cannot read images; use the file tools"), 0;
        }
        if size > options.maxImageBytes {
          return Say(line + ". Too large to show; use the file tools to read it"), 0;
        }
        if size > remaining {
          return NotInline(line), 0;
        }
        var data := disk.bytes(absolute);
        if data.None? {
          return Unreadable(line), 0;
        }
        if |data.value| > Min(options.maxImageBytes, remaining) {
          return NotInline(line), 0;
        }
        remaining := remaining - |data.value|;
        return Say(line) + [Image(mimeType, data.value)], |data.value|;
      }
      if size <= options.maxTextBytes && size <= remaining {
        var data := disk.bytes(absolute);
        if data.None? {
          return Unreadable(line), 0;
        }
        var cap := Min(size, MAX_TEXT_BYTES);
        var prefix := data.value[..Min(cap, |data.value|)];
        if 0 !in prefix {
          remaining := remaining - size;
          return Say(line + Fenced(env, data.value, size)), size;
        }
      }
      return NotInline(line), 0;
    }

    method MaterialiseFile(disk: Disk, absolute: string, stat: Stat, mimeType: string) returns (parts: seq<ContentPart>)
      modifies this`remaining, this`cache
      ensures (parts, Left()) == FileParts(env, disk, options, absolute, stat, mimeType, old(Left()))
    {
      var line := Header(env, absolute, mimeType, stat.size);
      if stat.size == 0 {
        return Say(line + ". The file is empty");
      }
      var key := CacheKey(stat, absolute);
      if cache.Some? && key in cache.value {
        var hit := cache.value[key];
        if hit.bytes > remaining {
          return NotInline(line);
        }
        remaining := remaining - hit.bytes;
        return hit.parts;
      }
      var bytes;
      parts, bytes := ReadInto(disk, absolute, mimeType, stat.size);
      if bytes > 0 && cache.Some? {
        cache := Some(cache.value[key := Inlined(parts, bytes)]);
      }
    }

    method MaterialiseOne(part: FilePart) returns (parts: seq<ContentPart>)
      modifies this
      ensures (parts, Left()) == One(env, views(old(met)), options, part, old(Left()))
      ensures met == old(met) + 1
    {
      var disk := views(met);
      met := met + 1;
      var found := env.locate(part.path);
      if found.None? {
        return Say("[attachment: unavailable. The path is not inside this workspace]");
      }
      var stat := disk.stat(found.value);
      if stat.None? {
        return Say("[attachment: " + env.relative(found.value) + ". No longer in the workspace]");
      }
      if stat.value.isDir {
        return Say("[attachment: " + env.relative(found.value) + ". A directory, not a file]");
      }
      parts := MaterialiseFile(disk, found.value, stat.value, TypeOf(env, found.value, part));
    }

    method MaterialisePart(content: seq<ContentPart>, i: nat) returns (parts: seq<ContentPart>)
      requires i < |content|
      modifies this
      ensures var later := Content(env, views, met, options, content[i + 1..], Left());
        Content(env, views, old(met), options, content[i..], old(Left())) == (parts + later.0, later.1, later.2)
    {
      if content[i].File? {
        ContentFromFile(env, views, met, options, content, i, Left());
        parts := MaterialiseOne(content[i].file);
      } else {
        ContentFromOther(env, views, met, options, content, i, Left());
        parts := [content[i]];
      }
    }

    /** `None` where there is nothing to do. */
    method MaterialiseContent(content: seq<ContentPart>) returns (shown: Option<seq<ContentPart>>)
      modifies this
      ensures shown.None? <==> NoFiles(content)
      ensures (if shown.Some? then shown.value else content, Left(), met)
        == Content(env, views, old(met), options, content, old(Left()))
    {
      if !exists part :: part in content && part.File? {
        NothingToDo(env, views, met, options, content, Left());
        return None;
      }
      var parts := MaterialiseEach(content);
      shown := Some(parts);
    }

    method MaterialiseEach(content: seq<ContentPart>) returns (parts: seq<ContentPart>)
      modifies this
      ensures (parts, Left(), met) == Content(env, views, old(met), options, content, old(Left()))
    {
      parts := [];
      var i := 0;
      ghost var whole := Content(env, views, met, options, content, Left());
      ghost var rest := whole;
      assert content[0..] == content && [] + whole.0 == whole.0;
      while i < |content|
        invariant 0 <= i <= |content|
        invariant rest == Content(env, views, met, options, content[i..], Left())
        invariant whole == (parts + rest.0, rest.1, rest.2)
      {
        var shown := MaterialisePart(content, i);
        ghost var later := Content(env, views, met, options, content[i + 1..], Left());
        assert whole == (parts + (shown + later.0), later.1, later.2);
        assert parts + (shown + later.0) == (parts + shown) + later.0;
        parts, rest := parts + shown, later;
        i := i + 1;
      }
      assert content[i..] == [];
      assert parts + [] == parts;
    }

    method MaterialiseMessage(message: ChatMessage) returns (shown: ChatMessage)
      modifies this
      ensures var (parts, after, next) := Content(env, views, old(met), options, PartsOf(message), old(Left()));
        shown == WithParts(message, parts) && Left() == after && met == next
    {
      shown := message;
      if message.User? || message.Assistant? {
        var content := MaterialiseContent(PartsOf(message));
        if content.Some? {
          shown := WithParts(message, content.value);
        } else {
          WithOwnParts(message);
        }
      }
    }

    /** The newest message first, put back in order. */
    method MaterialiseAttachments(messages: seq<ChatMessage>) returns (shown: seq<ChatMessage>)
      modifies this
      ensures (shown, Left(), met) == Newest(env, views, old(met), options, messages, old(Left()))
    {
      shown := [];
      var i := |messages|;
      assert messages[..i] == messages;
      ghost var whole := Newest(env, views, met, options, messages, Left());
      assert whole.0 + [] == whole.0;
      while i > 0
        invariant 0 <= i <= |messages|
        invariant var rest := Newest(env, views, met, options, messages[..i], Left());
          whole == (rest.0 + shown, rest.1, rest.2)
      {
        ghost var rest := Newest(env, views, met, options, messages[..i], Left());
        assert messages[..i][..i - 1] == messages[..i - 1];
        var message := MaterialiseMessage(messages[i - 1]);
        i := i - 1;
        ghost var older := Newest(env, views, met, options, messages[..i], Left()).0;
        assert rest.0 + shown == older + ([message] + shown);
        shown := [message] + shown;
      }
      assert [] + shown == shown;
    }
  }
}
