/** gRPC-Web framing in manager/src/services/node_api.rs, after the "Protocol differences vs gRPC over
    HTTP2" section of the gRPC-Web protocol: length-prefixed frames, the last one a trailer whose type has
    its top bit set. */
module GrpcWeb {
  import opened Common

  type Byte = x: nat | x < 256
  const TWO_TO_THE_32: nat := 0x1_0000_0000

  datatype Frame = Frame(kind: Byte, payload: seq<Byte>)

  predicate IsTrailer(f: Frame) {
    f.kind >= 0x80
  }

  datatype Reply = Reply(message: seq<Byte>, status: Option<nat>, error: Option<string>)

  /** `Panics` is a slice whose end lies before its start. */
  datatype Outcome = Parsed(reply: Reply) | Malformed | Panics

  /** Two library functions that are not modelled: UTF-8 decoding and URI decoding. */
  datatype Library = Library(utf8: seq<Byte> -> Option<string>, decodeUri: string -> string)

  // ---------- frames ----------

  /** A number in k bytes, most significant first (to_be_bytes for k = 4). */
  function Bytes(n: nat, k: nat): (b: seq<Byte>)
    ensures |b| == k
  {
    if k == 0 then [] else Bytes(n / 256, k - 1) + [n % 256]
  }

  /** from_be_bytes. */
  function Number(b: seq<Byte>): nat {
    if b == [] then 0 else Number(b[..|b| - 1]) * 256 + b[|b| - 1]
  }

  /** How many numbers fit k bytes. */
  function Limit(k: nat): nat {
    if k == 0 then 1 else 256 * Limit(k - 1)
  }

  lemma FourBytes()
    ensures Limit(4) == TWO_TO_THE_32
  {
    assert Limit(1) == 256 && Limit(2) == 0x1_0000 && Limit(3) == 0x100_0000;
  }

  lemma {:induction false} NumberOfBytes(n: nat, k: nat)
    requires n < Limit(k)
    ensures Number(Bytes(n, k)) == n
  {
    if k > 0 {
      NumberOfBytes(n / 256, k - 1);
      var b := Bytes(n, k);
      assert b[..|b| - 1] == Bytes(n / 256, k - 1);
    }
  }

  lemma {:induction false} BytesOfNumber(b: seq<Byte>)
    ensures Bytes(Number(b), |b|) == b && Number(b) < Limit(|b|)
  {
    if b != [] {
      BytesOfNumber(b[..|b| - 1]);
      assert Number(b) / 256 == Number(b[..|b| - 1]) && Number(b) % 256 == b[|b| - 1];
    }
  }

  /** The cast of a length to u32. */
  function Truncated(n: nat): (r: nat)
    ensures r < TWO_TO_THE_32 && (n < TWO_TO_THE_32 ==> r == n)
  {
    n % TWO_TO_THE_32
  }

  /** A frame on the wire. */
  function Encode(f: Frame): seq<Byte> {
    [f.kind] + Bytes(Truncated(|f.payload|), 4) + f.payload
  }

  function EncodeAll(frames: seq<Frame>): seq<Byte> {
    if frames == [] then [] else Encode(frames[0]) + EncodeAll(frames[1..])
  }

  predicate Fits(f: Frame) {
    |f.payload| < TWO_TO_THE_32
  }

  datatype Scan = Frames(frames: seq<Frame>) | Bad | OutOfOrder

  function HeaderLength(bytes: seq<Byte>): (length: nat)
    requires |bytes| >= 5
    ensures length < TWO_TO_THE_32
  {
    BytesOfNumber(bytes[1..5]);
    FourBytes();
    Number(bytes[1..5])
  }

  /** Addition of a usize that wraps at `word`. */
  function WrapAdd(a: nat, b: nat, word: nat): nat {
    if a + b < word then a + b else a + b - word
  }

  /** The frames in the bytes that remain after an offset, on a machine whose usize wraps at `word`. */
  function ScanRest(rest: seq<Byte>, offset: nat, word: nat): Scan
    requires offset + |rest| <= word
    decreases |rest|
  {
    if |rest| < 5 then Frames([]) else
      var start := offset + 5;
      var end := WrapAdd(start, HeaderLength(rest), word);
      if end > offset + |rest| then Bad
      else if end < start then OutOfOrder
      else Prepend([Frame(rest[0], rest[5..end - offset])], ScanRest(rest[end - offset..], end, word))
  }

  function ScanAll(bytes: seq<Byte>, word: nat): Scan
    requires |bytes| <= word
  {
    ScanRest(bytes, 0, word)
  }

  function Prepend(done: seq<Frame>, s: Scan): Scan {
    if s.Frames? then Frames(done + s.frames) else s
  }

  /** On a machine whose words hold the sum of any length and any 32-bit number. */
  ghost predicate Wide(bytes: seq<Byte>, word: nat) {
    |bytes| + TWO_TO_THE_32 <= word
  }

  /** On a wide machine only the bytes matter, not where they lie. */
  function ScanWide(bytes: seq<Byte>): Scan
    decreases |bytes|
  {
    if |bytes| < 5 then Frames([])
    else if 5 + HeaderLength(bytes) > |bytes| then Bad
    else Prepend([Frame(bytes[0], bytes[5..5 + HeaderLength(bytes)])], ScanWide(bytes[5 + HeaderLength(bytes)..]))
  }

  lemma {:induction false} WideScan(rest: seq<Byte>, offset: nat, word: nat)
    requires offset + |rest| + TWO_TO_THE_32 <= word
    ensures ScanRest(rest, offset, word) == ScanWide(rest)
    decreases |rest|
  {
    if |rest| >= 5 && 5 + HeaderLength(rest) <= |rest| {
      WideScan(rest[5 + HeaderLength(rest)..], offset + 5 + HeaderLength(rest), word);
    }
  }

  lemma FrameLength(f: Frame, tail: seq<Byte>)
    requires Fits(f)
    ensures var bytes := Encode(f) + tail;
            |Encode(f)| == 5 + |f.payload| && bytes[0] == f.kind && HeaderLength(bytes) == |f.payload|
            && bytes[5..5 + |f.payload|] == f.payload && bytes[5 + |f.payload|..] == tail
  {
    var bytes, header := Encode(f) + tail, Bytes(|f.payload|, 4);
    assert bytes == [f.kind] + header + f.payload + tail;
    assert bytes[1..5] == header;
    FourBytes();
    NumberOfBytes(|f.payload|, 4);
  }

  /** Scanning undoes encoding, whatever fewer than five bytes follow. */
  lemma {:induction false} ScanOfEncoded(frames: seq<Frame>, tail: seq<Byte>)
    requires (forall f :: f in frames ==> Fits(f)) && |tail| < 5
    ensures ScanWide(EncodeAll(frames) + tail) == Frames(frames)
  {
    if frames == [] {
      assert EncodeAll(frames) + tail == tail;
    } else {
      var f, rest := frames[0], EncodeAll(frames[1..]) + tail;
      assert EncodeAll(frames) + tail == Encode(f) + rest;
      FrameLength(f, rest);
      ScanOfEncoded(frames[1..], tail);
      assert frames == [f] + frames[1..];
    }
  }

  /** A successful scan decomposes all but fewer than five trailing bytes. */
  lemma {:induction false} ScanDecomposes(bytes: seq<Byte>) returns (tail: seq<Byte>)
    requires ScanWide(bytes).Frames?
    ensures var frames := ScanWide(bytes).frames;
            (forall f :: f in frames ==> Fits(f)) && |tail| < 5 && bytes == EncodeAll(frames) + tail
    decreases |bytes|
  {
    if |bytes| < 5 {
      return bytes;
    }
    hide Encode, EncodeAll, HeaderLength;
    var length := HeaderLength(bytes);
    var f, rest := Frame(bytes[0], bytes[5..5 + length]), bytes[5 + length..];
    tail := ScanDecomposes(rest);
    HeaderIsEncoded(bytes, length);
    assert ScanWide(bytes).frames == [f] + ScanWide(rest).frames;
    OneFrameMore(f, ScanWide(rest).frames, tail);
  }

  lemma OneFrameMore(f: Frame, frames: seq<Frame>, tail: seq<Byte>)
    ensures EncodeAll([f] + frames) + tail == Encode(f) + (EncodeAll(frames) + tail)
  {
    hide Encode;
    assert ([f] + frames)[1..] == frames;
  }

  lemma HeaderIsEncoded(bytes: seq<Byte>, length: nat)
    requires |bytes| >= 5 && length == HeaderLength(bytes) && 5 + length <= |bytes|
    ensures bytes == Encode(Frame(bytes[0], bytes[5..5 + length])) + bytes[5 + length..]
  {
    BytesOfNumber(bytes[1..5]);
    assert bytes == [bytes[0]] + bytes[1..5] + bytes[5..5 + length] + bytes[5 + length..];
  }

  ghost predicate WholeFrames(bytes: seq<Byte>, frames: seq<Frame>, tail: seq<Byte>) {
    (forall f :: f in frames ==> Fits(f)) && |tail| < 5 && bytes == EncodeAll(frames) + tail
  }

  /** The parser reports a malformed reply exactly when the bytes are not a sequence of whole frames
      followed by fewer than five bytes; on a wide machine it never panics. */
  lemma MalformedExactly(bytes: seq<Byte>, word: nat)
    requires Wide(bytes, word)
    ensures ScanAll(bytes, word).Bad? <==> !exists frames, tail :: WholeFrames(bytes, frames, tail)
    ensures !ScanAll(bytes, word).OutOfOrder?
  {
    WideScan(bytes, 0, word);
    NeverOutOfOrder(bytes);
    if ScanWide(bytes).Frames? {
      var tail := ScanDecomposes(bytes);
      assert WholeFrames(bytes, ScanWide(bytes).frames, tail);
    }
    forall frames, tail | WholeFrames(bytes, frames, tail) ensures ScanWide(bytes) == Frames(frames) {
      ScanOfEncoded(frames, tail);
    }
  }

  lemma {:induction false} NeverOutOfOrder(bytes: seq<Byte>)
    ensures !ScanWide(bytes).OutOfOrder?
    decreases |bytes|
  {
    if |bytes| >= 5 && 5 + HeaderLength(bytes) <= |bytes| {
      NeverOutOfOrder(bytes[5 + HeaderLength(bytes)..]);
    }
  }

  /** Where the first frame that overruns the reply would end, if there is one. */
  function FirstOverrun(rest: seq<Byte>, offset: nat): Option<nat>
    decreases |rest|
  {
    if |rest| < 5 then None
    else if 5 + HeaderLength(rest) > |rest| then Some(offset + 5 + HeaderLength(rest))
    else FirstOverrun(rest[5 + HeaderLength(rest)..], offset + 5 + HeaderLength(rest))
  }

  /** With 32-bit words, as in a browser, the bounds check itself can wrap: the parser panics exactly when
      the first frame that overruns the reply would end at or beyond 2^32. */
  lemma {:induction false} PanicsExactly(rest: seq<Byte>, offset: nat)
    requires offset + |rest| < TWO_TO_THE_32
    ensures ScanRest(rest, offset, TWO_TO_THE_32).OutOfOrder?
       <==> FirstOverrun(rest, offset).Some? && FirstOverrun(rest, offset).value >= TWO_TO_THE_32
    ensures ScanRest(rest, offset, TWO_TO_THE_32).Bad?
       <==> FirstOverrun(rest, offset).Some? && FirstOverrun(rest, offset).value < TWO_TO_THE_32
    decreases |rest|
  {
    if |rest| >= 5 && 5 + HeaderLength(rest) <= |rest| {
      PanicsExactly(rest[5 + HeaderLength(rest)..], offset + 5 + HeaderLength(rest));
    }
  }

  // ---------- trailers ----------

  /** str::split("\r\n"). */
  function Lines(s: string): (lines: seq<string>)
    ensures lines != []
  {
    if s == "" then [""]
    else if |s| >= 2 && s[0] == '\r' && s[1] == '\n' then [""] + Lines(s[2..])
    else
      var rest := Lines(s[1..]);
      [[s[0]] + rest[0]] + rest[1..]
  }

  /** The lines with a line break between each two. */
  ghost function Joined(lines: seq<string>): string {
    if lines == [] then "" else if |lines| == 1 then lines[0] else lines[0] + "\r\n" + Joined(lines[1..])
  }

  ghost predicate HasBreak(s: string) {
    exists i :: 0 <= i < |s| - 1 && s[i] == '\r' && s[i + 1] == '\n'
  }

  /** Splitting loses nothing and leaves no line break inside a line. */
  lemma {:induction false} LinesSplit(s: string)
    ensures Joined(Lines(s)) == s
    ensures forall line :: line in Lines(s) ==> !HasBreak(line)
    ensures s != "" && Lines(s)[0] != "" ==> Lines(s)[0][0] == s[0]
  {
    hide HasBreak;
    EmptyLine();
    if s == "" {
    } else if |s| >= 2 && s[0] == '\r' && s[1] == '\n' {
      var rest := Lines(s[2..]);
      LinesSplit(s[2..]);
      assert Lines(s)[1..] == rest;
      assert s == "\r\n" + s[2..];
    } else {
      var rest := Lines(s[1..]);
      LinesSplit(s[1..]);
      var first := [s[0]] + rest[0];
      assert Lines(s) == [first] + rest[1..] && Lines(s)[1..] == rest[1..];
      assert s == [s[0]] + s[1..];
      LongerFirst(s[0], rest);
      assert rest[0] in rest;
      LongerLine(s[0], rest[0]);
    }
  }

  lemma LongerLine(c: char, line: string)
    requires !HasBreak(line) && !(c == '\r' && line != "" && line[0] == '\n')
    ensures !HasBreak([c] + line)
  {
    var longer := [c] + line;
    forall i | 0 <= i < |longer| - 1 ensures !(longer[i] == '\r' && longer[i + 1] == '\n') {
      if i > 0 {
        assert longer[i] == line[i - 1] && longer[i + 1] == line[i];
      }
    }
  }

  lemma EmptyLine()
    ensures !HasBreak("")
  {
  }

  lemma LongerFirst(c: char, rest: seq<string>)
    requires rest != []
    ensures Joined([[c] + rest[0]] + rest[1..]) == [c] + Joined(rest)
  {
    var lines := [[c] + rest[0]] + rest[1..];
    assert lines[1..] == rest[1..];
  }

  function AllDigits(s: string): bool {
    forall i :: 0 <= i < |s| ==> '0' <= s[i] <= '9'
  }

  function Value(s: string): nat
    requires AllDigits(s)
  {
    if s == "" then 0 else Value(s[..|s| - 1]) * 10 + (s[|s| - 1] as int - '0' as int)
  }

  /** str::parse::<u32>: an optional plus sign and at least one digit, within range. */
  function ParseU32(s: string): Option<nat> {
    var digits := if s != "" && s[0] == '+' then s[1..] else s;
    if digits != "" && AllDigits(digits) && Value(digits) < TWO_TO_THE_32 then Some(Value(digits)) else None
  }

  lemma {:induction false} DecimalRoundTrip(n: nat)
    ensures AllDigits(Decimal(n)) && Decimal(n) != "" && Value(Decimal(n)) == n
    ensures Trimmed(Decimal(n)) && Decimal(n)[0] != '+'
  {
    if n >= 10 {
      DecimalRoundTrip(n / 10);
      var d := Decimal(n);
      assert d[..|d| - 1] == Decimal(n / 10);
    } else {
      assert Decimal(n)[..0] == "";
    }
  }

  const MESSAGE_PREFIX: string := "grpc-message:"
  const STATUS_PREFIX: string := "grpc-status:"

  /** What a line says, if anything. */
  function MessageOf(line: string): Option<string> {
    if MESSAGE_PREFIX <= line then Some(Trim(line[|MESSAGE_PREFIX|..])) else None
  }

  function StatusOf(line: string): Option<nat> {
    if STATUS_PREFIX <= line then ParseU32(Trim(line[|STATUS_PREFIX|..])) else None
  }

  function StatusText(status: nat): string {
    "gRPC status " + Decimal(status)
  }

  function ReadLine(r: Reply, line: string, lib: Library): Reply {
    var r1 := if MessageOf(line).Some? then r.(error := Some(lib.decodeUri(MessageOf(line).value))) else r;
    if StatusOf(line).None? then r1 else
      var status := StatusOf(line).value;
      r1.(status := Some(status), error := if status != 0 && r1.error.None? then Some(StatusText(status)) else r1.error)
  }

  /** A message line sets the error to its decoded text. */
  lemma MessageLine(r: Reply, text: string, lib: Library)
    ensures ReadLine(r, "grpc-message:" + text, lib) == r.(error := Some(lib.decodeUri(Trim(text))))
  {
    var line := "grpc-message:" + text;
    assert line[5] == 'm' && line[|MESSAGE_PREFIX|..] == text;
    assert "grpc-status:"[5] == 's';
  }

  /** A status line sets the status, and unless it is zero the error if there is none yet. */
  lemma StatusLine(r: Reply, status: nat, left: string, right: string, lib: Library)
    requires status < 0x1_0000_0000
    requires (forall c :: c in left ==> IsSpace(c)) && (forall c :: c in right ==> IsSpace(c))
    ensures ReadLine(r, "grpc-status:" + left + Decimal(status) + right, lib)
         == r.(status := Some(status), error := if status != 0 && r.error == None
                                                then Some("gRPC status " + Decimal(status)) else r.error)
  {
    hide Decimal, Value, Trim;
    var rest := left + Decimal(status) + right;
    var line := "grpc-status:" + rest;
    assert "grpc-status:" + left + Decimal(status) + right == line;
    assert line[5] == 's' && line[|STATUS_PREFIX|..] == rest;
    assert "grpc-message:"[5] == 'm';
    DecimalRoundTrip(status);
    SpaceTrims(left, Decimal(status), right);
  }

  lemma {:induction false} SpaceTrims(left: string, core: string, right: string)
    requires Trimmed(core) && core != ""
    requires (forall c :: c in left ==> IsSpace(c)) && (forall c :: c in right ==> IsSpace(c))
    ensures Trim(left + core + right) == core
  {
    if left != "" {
      assert IsSpace(left[0]) && (left + core + right)[1..] == left[1..] + core + right;
      SpaceTrims(left[1..], core, right);
    } else {
      assert left + core + right == core + right && (core + right)[0] == core[0];
      SpaceEndTrims(core, right);
    }
  }

  lemma {:induction false} SpaceEndTrims(core: string, right: string)
    requires Trimmed(core) && core != "" && forall c :: c in right ==> IsSpace(c)
    ensures TrimEnd(core + right) == core
  {
    if right == "" {
      assert core + right == core;
    } else {
      assert right[|right| - 1] in right;
      assert (core + right)[..|core + right| - 1] == core + right[..|right| - 1];
      SpaceEndTrims(core, right[..|right| - 1]);
    }
  }

  /** The number a text is read as: decimal digits after at most one plus sign, less than 2^32. */
  ghost predicate ReadsAs(text: string, n: nat) {
    exists digits :: (text == digits || text == "+" + digits) && digits != "" &&
                     (forall c :: c in digits ==> '0' <= c <= '9') && AllDigits(digits) && n == Value(digits) &&
                     n < 0x1_0000_0000
  }

  lemma NumberExactly(text: string, n: nat)
    ensures ParseU32(text) == Some(n) <==> ReadsAs(text, n)
  {
    hide Value;
    var digits := if text != "" && text[0] == '+' then text[1..] else text;
    if ParseU32(text) == Some(n) {
      assert text == digits || text == "+" + digits;
      assert ReadsAs(text, n);
    }
    if ReadsAs(text, n) {
      var d :| (text == d || text == "+" + d) && d != "" && (forall c :: c in d ==> '0' <= c <= '9') &&
               AllDigits(d) && n == Value(d) && n < 0x1_0000_0000;
      assert d[0] in d;
      assert text == "+" + d ==> text[1..] == d;
      assert digits == d;
    }
  }

  /** Any other line changes nothing. */
  lemma OtherLine(r: Reply, line: string, lib: Library)
    requires !("grpc-message:" <= line)
    requires "grpc-status:" <= line ==> forall n :: !ReadsAs(Trim(line[12..]), n)
    ensures ReadLine(r, line, lib) == r
  {
    if "grpc-status:" <= line {
      var parsed := ParseU32(Trim(line[12..]));
      if parsed.Some? {
        NumberExactly(Trim(line[12..]), parsed.value);
      }
    }
  }

  function ReadLines(r: Reply, lines: seq<string>, lib: Library): Reply {
    if lines == [] then r else ReadLine(ReadLines(r, lines[..|lines| - 1], lib), lines[|lines| - 1], lib)
  }

  function ReadFrame(r: Reply, f: Frame, lib: Library): Reply {
    if !IsTrailer(f) then r.(message := r.message + f.payload)
    else match lib.utf8(f.payload)
      case Some(text) => ReadLines(r, Lines(text), lib)
      case None => r
  }

  function ReadFrames(r: Reply, frames: seq<Frame>, lib: Library): Reply {
    if frames == [] then r else ReadFrame(ReadFrames(r, frames[..|frames| - 1], lib), frames[|frames| - 1], lib)
  }

  const EMPTY_REPLY: Reply := Reply([], None, None)

  function Parse(bytes: seq<Byte>, lib: Library, word: nat): Outcome
    requires |bytes| <= word
  {
    match ScanAll(bytes, word)
    case Frames(frames) => Parsed(ReadFrames(EMPTY_REPLY, frames, lib))
    case Bad => Malformed
    case OutOfOrder => Panics
  }

  // ---------- what a reply means ----------

  function Message(frames: seq<Frame>): seq<Byte> {
    if frames == [] then [] else
      var f := frames[|frames| - 1];
      Message(frames[..|frames| - 1]) + if f.kind >= 128 then [] else f.payload
  }

  /** All trailer lines, in order. */
  function TrailerLines(frames: seq<Frame>, lib: Library): seq<string> {
    if frames == [] then [] else
      var f := frames[|frames| - 1];
      TrailerLines(frames[..|frames| - 1], lib)
      + if f.kind >= 128 && lib.utf8(f.payload).Some? then Lines(lib.utf8(f.payload).value) else []
  }

  function LastMessage(lines: seq<string>): Option<string> {
    if lines == [] then None
    else if MessageOf(lines[|lines| - 1]).Some? then MessageOf(lines[|lines| - 1])
    else LastMessage(lines[..|lines| - 1])
  }

  function LastStatus(lines: seq<string>): Option<nat> {
    if lines == [] then None
    else if StatusOf(lines[|lines| - 1]).Some? then StatusOf(lines[|lines| - 1])
    else LastStatus(lines[..|lines| - 1])
  }

  function FirstFailure(lines: seq<string>): Option<nat> {
    if lines == [] then None
    else if FirstFailure(lines[..|lines| - 1]).Some? then FirstFailure(lines[..|lines| - 1])
    else if StatusOf(lines[|lines| - 1]).Some? && StatusOf(lines[|lines| - 1]) != Some(0)
      then StatusOf(lines[|lines| - 1])
    else None
  }

  lemma NoLineIsBoth(line: string)
    ensures MessageOf(line).None? || StatusOf(line).None?
  {
    assert MESSAGE_PREFIX[5] == 'm' && STATUS_PREFIX[5] == 's';
  }

  /** A message line wins over every status line, the last message line over earlier ones, and the order of
      message and status lines does not matter; without a message the first failing status speaks. */
  function ErrorOf(lines: seq<string>, lib: Library): Option<string> {
    if LastMessage(lines).Some? then Some(lib.decodeUri(LastMessage(lines).value))
    else if FirstFailure(lines).Some? then Some(StatusText(FirstFailure(lines).value))
    else None
  }

  lemma {:induction false} LinesMeaning(lines: seq<string>, lib: Library)
    ensures ReadLines(EMPTY_REPLY, lines, lib) == Reply([], LastStatus(lines), ErrorOf(lines, lib))
  {
    if lines != [] {
      LinesMeaning(lines[..|lines| - 1], lib);
      NoLineIsBoth(lines[|lines| - 1]);
    }
  }

  lemma {:induction false} ReadLinesAppends(r: Reply, a: seq<string>, b: seq<string>, lib: Library)
    ensures ReadLines(r, a + b, lib) == ReadLines(ReadLines(r, a, lib), b, lib)
  {
    if b == [] {
      assert a + b == a;
    } else {
      ReadLinesAppends(r, a, b[..|b| - 1], lib);
      assert (a + b)[..|a + b| - 1] == a + b[..|b| - 1];
    }
  }

  lemma {:induction false} MessageStaysPut(r: Reply, lines: seq<string>, lib: Library, message: seq<Byte>)
    ensures ReadLines(r.(message := message), lines, lib) == ReadLines(r, lines, lib).(message := message)
  {
    if lines != [] {
      MessageStaysPut(r, lines[..|lines| - 1], lib, message);
    }
  }

  /** A parsed reply is the concatenation of the data frames, the last status and the error above. */
  lemma {:induction false} ReplyMeaning(frames: seq<Frame>, lib: Library)
    ensures ReadFrames(EMPTY_REPLY, frames, lib)
         == Reply(Message(frames), LastStatus(TrailerLines(frames, lib)), ErrorOf(TrailerLines(frames, lib), lib))
  {
    var lines := TrailerLines(frames, lib);
    LinesMeaning(lines, lib);
    if frames != [] {
      var front, f := frames[..|frames| - 1], frames[|frames| - 1];
      ReplyMeaning(front, lib);
      var before := TrailerLines(front, lib);
      LinesMeaning(before, lib);
      if IsTrailer(f) && lib.utf8(f.payload).Some? {
        var more := Lines(lib.utf8(f.payload).value);
        ReadLinesAppends(EMPTY_REPLY, before, more, lib);
        MessageStaysPut(ReadLines(EMPTY_REPLY, before, lib), more, lib, Message(front));
      } else {
        assert lines == before;
      }
    }
  }

  // ---------- round trips ----------

  function DataFrames(payloads: seq<seq<Byte>>): seq<Frame> {
    seq(|payloads|, i requires 0 <= i < |payloads| => Frame(0, payloads[i]))
  }

  function Concat(payloads: seq<seq<Byte>>): seq<Byte> {
    if payloads == [] then [] else Concat(payloads[..|payloads| - 1]) + payloads[|payloads| - 1]
  }

  lemma {:induction false} DataMeaning(payloads: seq<seq<Byte>>, lib: Library)
    ensures Message(DataFrames(payloads)) == Concat(payloads)
    ensures TrailerLines(DataFrames(payloads), lib) == []
  {
    if payloads != [] {
      DataMeaning(payloads[..|payloads| - 1], lib);
      var frames := DataFrames(payloads);
      assert frames[..|frames| - 1] == DataFrames(payloads[..|payloads| - 1]);
    }
  }

  function TrailerText(status: nat): string {
    STATUS_PREFIX + Decimal(status) + "\r\n"
  }

  lemma {:induction false} LinesOf(line: string)
    requires '\r' !in line
    ensures Lines(line + "\r\n") == [line, ""]
  {
    var s := line + "\r\n";
    if line == "" {
      assert s == "\r\n" && s[2..] == "";
    } else {
      assert s[1..] == line[1..] + "\r\n";
      LinesOf(line[1..]);
      assert line == [line[0]] + line[1..];
    }
  }

  lemma TrailerLine(status: nat)
    requires status < TWO_TO_THE_32
    ensures Lines(TrailerText(status)) == [STATUS_PREFIX + Decimal(status), ""]
    ensures StatusOf(STATUS_PREFIX + Decimal(status)) == Some(status)
  {
    DecimalRoundTrip(status);
    TrimOfTrimmed(Decimal(status));
    var line := STATUS_PREFIX + Decimal(status);
    assert line[|STATUS_PREFIX|..] == Decimal(status);
    forall c | c in line ensures c != '\r' {
      assert c in STATUS_PREFIX || c in Decimal(status);
    }
    LinesOf(line);
  }

  lemma ParseOfEncoded(frames: seq<Frame>, lib: Library, word: nat)
    requires (forall f :: f in frames ==> Fits(f)) && Wide(EncodeAll(frames), word)
    ensures Parse(EncodeAll(frames), lib, word)
         == Parsed(Reply(Message(frames), LastStatus(TrailerLines(frames, lib)),
           ErrorOf(TrailerLines(frames, lib), lib)))
  {
    assert EncodeAll(frames) + [] == EncodeAll(frames);
    WideScan(EncodeAll(frames), 0, word);
    ScanOfEncoded(frames, []);
    ReplyMeaning(frames, lib);
  }

  /** The lines of a trailer; bytes that are not UTF-8 have none. */
  function LinesIn(trailer: seq<Byte>, lib: Library): seq<string> {
    if lib.utf8(trailer).Some? then Lines(lib.utf8(trailer).value) else []
  }

  /** Round trip: any payloads shorter than 2^32 followed by any trailer frame come back as their
      concatenation, with the status and the error that the trailer's lines say. */
  lemma FramingRoundTrip(payloads: seq<seq<Byte>>, trailer: seq<Byte>, lib: Library, word: nat)
    requires (forall p :: p in payloads ==> |p| < TWO_TO_THE_32) && |trailer| < TWO_TO_THE_32
    requires Wide(EncodeAll(DataFrames(payloads) + [Frame(0x80, trailer)]), word)
    ensures Parse(EncodeAll(DataFrames(payloads) + [Frame(0x80, trailer)]), lib, word)
         == Parsed(Reply(Concat(payloads), LastStatus(LinesIn(trailer, lib)), ErrorOf(LinesIn(trailer, lib), lib)))
  {
    var t := Frame(0x80, trailer);
    var frames := DataFrames(payloads) + [t];
    forall f | f in frames ensures Fits(f) {
    }
    ParseOfEncoded(frames, lib, word);
    WithTrailer(payloads, t, lib);
  }

  /** In particular a trailer that consists of a status line comes back as that status. */
  lemma StatusRoundTrip(payloads: seq<seq<Byte>>, trailer: seq<Byte>, status: nat, lib: Library, word: nat)
    requires (forall p :: p in payloads ==> |p| < TWO_TO_THE_32) && |trailer| < TWO_TO_THE_32 && status < TWO_TO_THE_32
    requires lib.utf8(trailer) == Some(TrailerText(status))
    requires Wide(EncodeAll(DataFrames(payloads) + [Frame(0x80, trailer)]), word)
    ensures Parse(EncodeAll(DataFrames(payloads) + [Frame(0x80, trailer)]), lib, word)
         == Parsed(Reply(Concat(payloads), Some(status), if status == 0 then None else Some(StatusText(status))))
  {
    FramingRoundTrip(payloads, trailer, lib, word);
    TrailerMeaning(status, lib);
  }

  lemma WithTrailer(payloads: seq<seq<Byte>>, t: Frame, lib: Library)
    requires IsTrailer(t)
    ensures Message(DataFrames(payloads) + [t]) == Concat(payloads)
    ensures TrailerLines(DataFrames(payloads) + [t], lib) == LinesIn(t.payload, lib)
  {
    var frames := DataFrames(payloads) + [t];
    assert frames[..|frames| - 1] == DataFrames(payloads);
    DataMeaning(payloads, lib);
  }

  lemma TrailerMeaning(status: nat, lib: Library)
    requires status < TWO_TO_THE_32
    ensures LastStatus(Lines(TrailerText(status))) == Some(status)
    ensures ErrorOf(Lines(TrailerText(status)), lib) == if status == 0 then None else Some(StatusText(status))
  {
    TrailerLine(status);
    var line := STATUS_PREFIX + Decimal(status);
    NoLineIsBoth(line);
    assert [line, ""][..1] == [line] && [line][..0] == [];
    assert MessageOf("") == None && StatusOf("") == None;
    assert LastStatus([line]) == Some(status) && LastMessage([line]) == None;
    assert FirstFailure([line]) == if status == 0 then None else Some(status);
  }

  ghost function TotalPayload(frames: seq<Frame>): nat {
    if frames == [] then 0 else |frames[0].payload| + TotalPayload(frames[1..])
  }

  lemma {:induction false} EncodedSize(frames: seq<Frame>)
    requires forall f :: f in frames ==> Fits(f)
    ensures |EncodeAll(frames)| == TotalPayload(frames) + 5 * |frames|
  {
    if frames != [] {
      EncodedSize(frames[1..]);
    }
  }

  lemma {:induction false} MessageSize(frames: seq<Frame>)
    ensures |Message(frames)| <= TotalPayload(frames)
  {
    if frames != [] {
      MessageSize(frames[..|frames| - 1]);
      TotalOfFront(frames);
    }
  }

  lemma {:induction false} TotalOfFront(frames: seq<Frame>)
    requires frames != []
    ensures TotalPayload(frames) == TotalPayload(frames[..|frames| - 1]) + |frames[|frames| - 1].payload|
  {
    if |frames| > 1 {
      TotalOfFront(frames[1..]);
      assert frames[1..][..|frames| - 2] == frames[..|frames| - 1][1..];
    }
  }

  lemma TruncatedHeader(payload: seq<Byte>)
    ensures |Encode(Frame(0, payload))| == 5 + |payload|
    ensures HeaderLength(Encode(Frame(0, payload))) == Truncated(|payload|)
  {
    var bytes, header := Encode(Frame(0, payload)), Bytes(Truncated(|payload|), 4);
    assert bytes == [0] + header + payload;
    assert bytes[1..5] == header;
    FourBytes();
    NumberOfBytes(Truncated(|payload|), 4);
  }

  lemma LongMessageIsCut(payload: seq<Byte>)
    requires |payload| >= TWO_TO_THE_32 && ScanWide(Encode(Frame(0, payload))).Frames?
    ensures |Message(ScanWide(Encode(Frame(0, payload))).frames)| < |payload|
  {
    var bytes := Encode(Frame(0, payload));
    var frames := ScanWide(bytes).frames;
    var tail := ScanDecomposes(bytes);
    EncodedSize(frames);
    MessageSize(frames);
    TruncatedHeader(payload);
    assert |frames[0].payload| == Truncated(|payload|) < |payload|;
    if |frames| == 1 {
      assert TotalPayload(frames) == |frames[0].payload|;
    }
  }

  /** A single message survives framing exactly when its length fits the 32-bit prefix: a longer one is
      framed with a truncated length and never comes back. */
  lemma OneMessageExactly(payload: seq<Byte>, lib: Library, word: nat)
    requires Wide(Encode(Frame(0, payload)), word)
    ensures Parse(Encode(Frame(0, payload)), lib, word) == Parsed(Reply(payload, None, None)) <==>
              |payload| < TWO_TO_THE_32
  {
    var f := Frame(0, payload);
    WideScan(Encode(f), 0, word);
    if |payload| < TWO_TO_THE_32 {
      assert EncodeAll([f]) == Encode(f);
      assert [f][..0] == [];
      ParseOfEncoded([f], lib, word);
      assert Message([f]) == payload && TrailerLines([f], lib) == [];
    } else if ScanWide(Encode(f)).Frames? {
      LongMessageIsCut(payload);
      ReplyMeaning(ScanWide(Encode(f)).frames, lib);
    }
  }

  /** The length prefix is big-endian. */
  lemma BigEndian(n: nat)
    ensures n < 0x1_0000_0000 ==> Bytes(n, 4) == [n / 0x100_0000, n / 0x1_0000 % 256, n / 256 % 256, n % 256]
  {
    var a, b, c := n / 256, n / 256 / 256, n / 256 / 256 / 256;
    assert b == n / 0x1_0000 && c == n / 0x100_0000;
    assert Bytes(c, 0) == [] && Bytes(c, 1) == [c % 256];
    assert Bytes(b, 2) == Bytes(c, 1) + [b % 256];
    assert Bytes(a, 3) == Bytes(b, 2) + [a % 256];
    assert Bytes(n, 4) == Bytes(a, 3) + [n % 256];
  }

  // ---------- the operations ----------

  /** frame_grpc_web_message. */
  method FrameMessage(payload: seq<Byte>) returns (framed: seq<Byte>)
    ensures framed == Encode(Frame(0, payload))
    ensures |payload| < 0x1_0000_0000 ==>
              framed == [0, |payload| / 0x100_0000, |payload| / 0x1_0000 % 256, |payload| / 256 % 256, |payload| % 256]
                        + payload
  {
    BigEndian(Truncated(|payload|));
    framed := [0];
    framed := framed + Bytes(Truncated(|payload|), 4);
    framed := framed + payload;
  }

  /** The body of the loop over the lines of a trailer. */
  method ReadOneLine(line: string, lib: Library, message: seq<Byte>, status: Option<nat>, error: Option<string>)
    returns (status': Option<nat>, error': Option<string>)
    ensures Reply(message, status', error') == ReadLine(Reply(message, status, error), line, lib)
  {
    status', error' := status, error;
    if MESSAGE_PREFIX <= line {
      error' := Some(lib.decodeUri(Trim(line[|MESSAGE_PREFIX|..])));
    }
    if STATUS_PREFIX <= line {
      var parsed := ParseU32(Trim(line[|STATUS_PREFIX|..]));
      if parsed.Some? {
        status' := parsed;
        if parsed.value != 0 && error' == None {
          error' := Some(StatusText(parsed.value));
        }
      }
    }
  }

  method ReadTrailer(text: string, lib: Library, message: seq<Byte>, status: Option<nat>, error: Option<string>)
    returns (status': Option<nat>, error': Option<string>)
    ensures Reply(message, status', error') == ReadLines(Reply(message, status, error), Lines(text), lib)
  {
    status', error' := status, error;
    var lines := Lines(text);
    for i := 0 to |lines|
      invariant Reply(message, status', error') == ReadLines(Reply(message, status, error), lines[..i], lib)
    {
      LineAppends(Reply(message, status, error), lines, i, lib);
      status', error' := ReadOneLine(lines[i], lib, message, status', error');
    }
    assert lines[..|lines|] == lines;
  }

  lemma LineAppends(r: Reply, lines: seq<string>, i: nat, lib: Library)
    requires i < |lines|
    ensures ReadLines(r, lines[..i + 1], lib) == ReadLine(ReadLines(r, lines[..i], lib), lines[i], lib)
  {
    assert lines[..i + 1][..i] == lines[..i];
  }

  /** What the loop of the parser does with one frame. */
  method ReadOneFrame(f: Frame, lib: Library, message: seq<Byte>, status: Option<nat>, error: Option<string>)
    returns (message': seq<Byte>, status': Option<nat>, error': Option<string>)
    ensures Reply(message', status', error') == ReadFrame(Reply(message, status, error), f, lib)
  {
    message', status', error' := message, status, error;
    if f.kind >= 0x80 {
      var text := lib.utf8(f.payload);
      if text.Some? {
        status', error' := ReadTrailer(text.value, lib, message, status, error);
      }
    } else {
      message' := message + f.payload;
    }
  }

  /** parse_grpc_web_response, on a machine whose usize wraps at `word`. It terminates on all bytes, and
      every index and slice is in bounds unless it reports a panic. */
  method ParseResponse(bytes: seq<Byte>, lib: Library, word: nat) returns (outcome: Outcome)
    requires |bytes| + 5 <= word
    ensures outcome == Parse(bytes, lib, word)
  {
    var offset := 0;
    var message: seq<Byte> := [];
    var status: Option<nat> := None;
    var error: Option<string> := None;
    ghost var done: seq<Frame> := [];
    assert bytes[0..] == bytes;
    PrependNothing(ScanAll(bytes, word));
    while offset + 5 <= |bytes|
      invariant offset <= |bytes|
      invariant Reply(message, status, error) == ReadFrames(EMPTY_REPLY, done, lib)
      invariant ScanAll(bytes, word) == Prepend(done, ScanRest(bytes[offset..], offset, word))
    {
      var length := HeaderLength(bytes[offset..]);
      var start := offset + 5;
      var end := WrapAdd(start, length, word);
      if end > |bytes| {
        return Malformed;
      }
      if end < start {
        return Panics;
      }
      var frame := Frame(bytes[offset], bytes[start..end]);
      FrameTaken(bytes, offset, end, word);
      PrependOne(done, frame, ScanRest(bytes[end..], end, word));
      FrameAppends(done, frame, lib);
      message, status, error := ReadOneFrame(frame, lib, message, status, error);
      done := done + [frame];
      offset := end;
    }
    assert ScanRest(bytes[offset..], offset, word) == Frames([]);
    assert done + [] == done;
    outcome := Parsed(Reply(message, status, error));
  }

  lemma FrameTaken(bytes: seq<Byte>, offset: nat, end: nat, word: nat)
    requires offset + 5 <= end <= |bytes| <= word && end == WrapAdd(offset + 5, HeaderLength(bytes[offset..]), word)
    ensures ScanRest(bytes[offset..], offset, word) ==
              Prepend([Frame(bytes[offset], bytes[offset + 5..end])], ScanRest(bytes[end..], end, word))
  {
    assert bytes[offset..][5..end - offset] == bytes[offset + 5..end];
    assert bytes[offset..][end - offset..] == bytes[end..];
  }

  lemma FrameAppends(done: seq<Frame>, f: Frame, lib: Library)
    ensures ReadFrames(EMPTY_REPLY, done + [f], lib) == ReadFrame(ReadFrames(EMPTY_REPLY, done, lib), f, lib)
  {
    assert (done + [f])[..|done|] == done;
  }

  lemma PrependNothing(s: Scan)
    ensures Prepend([], s) == s
  {
    if s.Frames? {
      assert [] + s.frames == s.frames;
    }
  }

  lemma PrependOne(done: seq<Frame>, f: Frame, s: Scan)
    ensures Prepend(done, Prepend([f], s)) == Prepend(done + [f], s)
  {
    if s.Frames? {
      assert done + ([f] + s.frames) == done + [f] + s.frames;
    }
  }
}
