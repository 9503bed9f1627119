/** Framed messages on a byte stream. */
module Transport {
  import opened Json
  import opened Utf8
  import Ascii
  import Decimal

  const USIZE_MAX: nat := 0xFFFF_FFFF_FFFF_FFFF

  // ----- writing

  function Body(v: Value): (b: seq<byte>)
    ensures b != []
  {
    FirstChar(v);
    Encode(Fingerprint(v))
  }

  function Header(n: nat): string { "Content-Length: " + Decimal.Print(n) + "\r\n\r\n" }

  /** `frame_message`. */
  function Frame(v: Value): seq<byte> { Encode(Header(|Body(v)|)) + Body(v) }

  // ----- reading

  /** What one call of `read_message` can find. */
  datatype Outcome = End | Message(v: Value) | Failed

  /** What the header loop can find: the end of the stream, a malformed header, or the length of
      the body and the bytes from there on. */
  datatype Head = Ended | Bad | Ready(length: nat, rest: seq<byte>)

  /** The length of the first line, with its line feed if there is one. */
  function LineLen(input: seq<byte>): (n: nat)
    ensures n <= |input| && (input != [] ==> n > 0)
  {
    if input == [] then 0 else if input[0] == 10 then 1 else 1 + LineLen(input[1..])
  }

  function TrimEnd(s: string): string {
    if s != [] && s[|s| - 1] in "\r\n" then TrimEnd(s[..|s| - 1]) else s
  }

  /** White space as Unicode defines it. */
  predicate IsSpace(c: char) {
    || '\U{9}' <= c <= '\U{D}' || c == ' ' || c == '\U{85}' || c == '\U{A0}' || c == '\U{1680}'
    || '\U{2000}' <= c <= '\U{200A}' || c in "\U{2028}\U{2029}\U{202F}\U{205F}\U{3000}"
  }

  function TrimLeft(s: string): string {
    if s != [] && IsSpace(s[0]) then TrimLeft(s[1..]) else s
  }

  function TrimRight(s: string): string {
    if s != [] && IsSpace(s[|s| - 1]) then TrimRight(s[..|s| - 1]) else s
  }

  /** The index of the first colon. */
  function Colon(s: string): (r: Option<nat>)
    ensures r.Some? ==> r.value < |s| && s[r.value] == ':'
  {
    if s == [] then None
    else if s[0] == ':' then Some(0)
    else
      var r := Colon(s[1..]);
      if r.Some? then Some(r.value + 1) else None
  }

  /** `parse::<usize>`. */
  function ParseUsize(s: string): Option<nat> {
    var digits := if s != [] && s[0] == '+' then s[1..] else s;
    if digits != [] && Decimal.AllDigits(digits) && Decimal.Value(digits) <= USIZE_MAX then Some(Decimal.Value(digits))
      else None
  }

  /** What a header line does to the content length known so far. */
  datatype Line = Malformed | Other | ContentLength(length: nat)

  function HeaderLine(line: string): Line {
    match Colon(line)
    case None => Malformed
    case Some(k) =>
      if Ascii.Lower(line[..k]) != "content-length" then Other
      else
        match ParseUsize(TrimRight(TrimLeft(line[k + 1..])))
        case None => Malformed
        case Some(n) => ContentLength(n)
  }

  function ReadHead(input: seq<byte>, length: Option<nat>): Head
    decreases |input|
  {
    if input == [] then (if length == None then Ended else Bad)
    else
      var n := LineLen(input);
      match Decode(input[..n])
      case None => Bad
      case Some(text) =>
        var line := TrimEnd(text);
        if line == [] then (if length.Some? then Ready(length.value, input[n..]) else Bad)
        else
          match HeaderLine(line)
          case Malformed => Bad
          case Other => ReadHead(input[n..], length)
          case ContentLength(k) => ReadHead(input[n..], Some(k))
  }

  function ReadBody(body: seq<byte>): Outcome {
    match Decode(body)
    case None => Outcome.Failed
    case Some(text) =>
      match ParseValue(text)
      case Failed => Outcome.Failed
      case Parsed(v, rest) => if rest == [] then Message(v) else Outcome.Failed
  }

  function ReadFrom(input: seq<byte>): (Outcome, seq<byte>) {
    match ReadHead(input, None)
    case Ended => (End, [])
    case Bad => (Outcome.Failed, [])
    case Ready(n, rest) => if n <= |rest| then (ReadBody(rest[..n]), rest[n..]) else (Outcome.Failed, [])
  }

  class Reader {
    var input: seq<byte>

    /** `read_line`: up to and including the next line feed. */
    method ReadLine() returns (line: Option<string>, bytes: nat)
      modifies this
      ensures bytes == LineLen(old(input)) && input == old(input)[bytes..]
      ensures line == Decode(old(input)[..bytes])
    {
      bytes := LineLen(input);
      line := Decode(input[..bytes]);
      input := input[bytes..];
    }

    /** `read_message`: the loop over the header lines, and the body. */
    method ReadMessage() returns (r: Outcome)
      modifies this
      ensures r == ReadFrom(old(input)).0
      ensures r != Outcome.Failed ==> input == ReadFrom(old(input)).1
    {
      hide Decode, HeaderLine, ReadBody, LineLen, TrimEnd;
      var contentLength: Option<nat> := None;
      while true
        invariant ReadHead(input, contentLength) == ReadHead(old(input), None)
        decreases |input|
      {
        var text, bytes := ReadLine();
        if bytes == 0 {
          return if contentLength == None then End else Outcome.Failed;
        }
        if text == None { return Outcome.Failed; }
        var line := TrimEnd(text.value);
        if line == [] { break; }
        match HeaderLine(line)
        case Malformed => return Outcome.Failed;
        case Other =>
        case ContentLength(n) => contentLength := Some(n);
      }
      if contentLength == None { return Outcome.Failed; }
      if contentLength.value > |input| { return Outcome.Failed; }
      r := ReadBody(input[..contentLength.value]);
      input := input[contentLength.value..];
    }
  }

  // ----- one line

  /** A line of ASCII text: it ends with the line feed, or with the stream. */
  predicate WholeLine(text: string, rest: seq<byte>) {
    && text != [] && IsAscii(text) && '\n' !in text[..|text| - 1]
    && (text[|text| - 1] == '\n' || rest == [])
  }

  lemma {:induction false} LineLenIs(a: seq<byte>, rest: seq<byte>)
    requires a != [] && 10 !in a[..|a| - 1] && (a[|a| - 1] == 10 || rest == [])
    ensures LineLen(a + rest) == |a|
  {
    if |a| == 1 {
      assert (a + rest)[1..] == rest;
    } else {
      assert a[..|a| - 1][0] == a[0];
      assert (a + rest)[1..] == a[1..] + rest;
      var front, next := a[..|a| - 1], a[1..][..|a[1..]| - 1];
      assert next == front[1..];
      LineLenIs(a[1..], rest);
    }
  }

  lemma WholeLineLen(text: string, rest: seq<byte>)
    requires WholeLine(text, rest)
    ensures LineLen(Encode(text) + rest) == |Encode(text)|
    ensures Encode(text) != []
  {
    hide LineLen, Encode;
    AsciiBytes(text);
    var a := Encode(text);
    var front := a[..|a| - 1];
    forall k | 0 <= k < |front| ensures front[k] != 10 {
      assert text[..|text| - 1][k] != '\n';
    }
    LineLenIs(a, rest);
  }

  /** The effect of one line on the header loop. */
  lemma LineRead(text: string, rest: seq<byte>, length: Option<nat>)
    requires WholeLine(text, rest)
    ensures var line := TrimEnd(text);
            ReadHead(Encode(text) + rest, length)
            == if line == [] then (if length.Some? then Ready(length.value, rest) else Bad)
               else match HeaderLine(line)
                    case Malformed => Bad
                    case Other => ReadHead(rest, length)
                    case ContentLength(k) => ReadHead(rest, Some(k))
  {
    hide LineLen, Encode, HeaderLine, TrimEnd, Decode;
    WholeLineLen(text, rest);
    DecodeEncode(text);
    var input := Encode(text) + rest;
    assert input[..|Encode(text)|] == Encode(text) && input[|Encode(text)|..] == rest;
  }

  // ----- the header of a frame

  const NAME: string := "Content-Length"

  lemma {:induction false} ColonIs(a: string, b: string)
    requires ':' !in a && b != [] && b[0] == ':'
    ensures Colon(a + b) == Some(|a|)
  {
    if a == [] {
      assert a + b == b;
    } else {
      assert (a + b)[1..] == a[1..] + b;
      ColonIs(a[1..], b);
    }
  }

  lemma {:induction false} NoColon(a: string)
    requires ':' !in a
    ensures Colon(a) == None
  {
    if a != [] { NoColon(a[1..]); }
  }

  lemma NameLower()
    ensures Ascii.Lower(NAME) == "content-length"
  {
    hide Ascii.Lower;
    LowerParts();
    LowerAdds("Con", "tent");
    LowerAdds("-Le", "ngth");
    LowerAdds("Con" + "tent", "-Le" + "ngth");
    assert NAME == ("Con" + "tent") + ("-Le" + "ngth");
    assert "content-length" == ("con" + "tent") + ("-le" + "ngth");
  }

  lemma LowerParts()
    ensures Ascii.Lower("Con") == "con" && Ascii.Lower("tent") == "tent"
    ensures Ascii.Lower("-Le") == "-le" && Ascii.Lower("ngth") == "ngth"
  {
    assert "tent"[1..][1..] == "nt" && "ngth"[1..][1..] == "th";
    assert "Con"[1..] == "on" && "on"[1..] == "n";
    assert "-Le"[1..] == "Le" && "Le"[1..] == "e";
    assert Ascii.Lower("on") == "on" && Ascii.Lower("Le") == "le" && Ascii.Lower("nt") == "nt"
      && Ascii.Lower("th") == "th";
  }

  lemma {:induction false} LowerAdds(a: string, b: string)
    ensures Ascii.Lower(a + b) == Ascii.Lower(a) + Ascii.Lower(b)
  {
    if a == [] {
      assert a + b == b;
    } else {
      assert (a + b)[1..] == a[1..] + b;
      LowerAdds(a[1..], b);
    }
  }

  lemma NotSpace(s: string)
    requires s != [] && Decimal.AllDigits(s)
    ensures TrimRight(s) == s && TrimLeft(s) == s && TrimEnd(s) == s
    ensures ParseUsize(s) == if Decimal.Value(s) <= USIZE_MAX then Some(Decimal.Value(s)) else None
  {
    assert s[0] in s && s[|s| - 1] in s;
  }

  /** A header line with a number is a content length, in whatever letters its name is written. */
  lemma NumberLine(name: string, digits: string)
    requires Ascii.Lower(name) == "content-length" && ':' !in name
    requires digits != [] && Decimal.AllDigits(digits) && Decimal.Value(digits) <= USIZE_MAX
    ensures HeaderLine(name + ": " + digits) == ContentLength(Decimal.Value(digits))
  {
    hide Colon, TrimLeft, TrimRight, Ascii.Lower, ParseUsize, Decimal.AllDigits;
    var line := name + ": " + digits;
    assert line == name + (": " + digits);
    ColonIs(name, ": " + digits);
    assert line[..|name|] == name;
    assert line[|name| + 1..] == " " + digits;
    SpaceTrimmed(digits);
    NotSpace(digits);
  }

  lemma SpaceTrimmed(s: string)
    requires s != [] && Decimal.AllDigits(s)
    ensures TrimLeft(" " + s) == s
  {
    assert (" " + s)[1..] == s;
    assert s[0] in s;
  }

  lemma TrimOne(s: string, c: char)
    requires c == '\r' || c == '\n'
    ensures TrimEnd(s + [c]) == TrimEnd(s)
  {
    assert (s + [c])[..|s|] == s;
  }

  lemma FeedTrimmed(s: string)
    requires s != [] && s[|s| - 1] !in "\r\n"
    ensures TrimEnd(s + "\r\n") == s && TrimEnd(s + "\r") == s && TrimEnd(s) == s
  {
    assert TrimEnd(s) == s;
    hide TrimEnd;
    TrimOne(s, '\r');
    TrimOne(s + "\r", '\n');
    assert s + "\r" + "\n" == s + "\r\n";
  }

  lemma NothingButFeed()
    ensures TrimEnd("\r\n") == "" && TrimEnd("\r") == ""
  {
    assert "\r\n"[..1] == "\r" && "\r"[..0] == "";
  }

  lemma {:induction false} AsciiAdds(a: string, b: string)
    requires IsAscii(a) && IsAscii(b)
    ensures IsAscii(a + b)
  {
  }

  lemma DigitsAscii(s: string)
    requires Decimal.AllDigits(s)
    ensures IsAscii(s) && '\n' !in s && '\r' !in s && ':' !in s
  {
  }

  /** The first line of a frame. */
  lemma FirstLine(n: nat, rest: seq<byte>)
    requires n <= USIZE_MAX
    ensures ReadHead(Encode(NAME + ": " + Decimal.Print(n) + "\r\n") + rest, None) == ReadHead(rest, Some(n))
  {
    NameLower();
    LengthRead(NAME, n, rest, None);
  }

  lemma WholeFirst(digits: string, rest: seq<byte>)
    requires Decimal.AllDigits(digits)
    ensures WholeLine(NAME + ": " + digits + "\r\n", rest)
  {
    DigitsAscii(digits);
    AsciiAdds(NAME + ": ", digits);
    AsciiAdds(NAME + ": " + digits, "\r\n");
    var text := NAME + ": " + digits + "\r\n";
    assert text[..|text| - 1] == NAME + ": " + digits + "\r";
  }

  /** The header of a frame is read as the length it states, and nothing more is consumed. */
  lemma HeaderRead(n: nat, rest: seq<byte>)
    requires n <= USIZE_MAX
    ensures ReadHead(Encode(Header(n)) + rest, None) == Ready(n, rest)
  {
    hide Encode, HeaderLine, TrimEnd, ReadHead;
    var first := NAME + ": " + Decimal.Print(n) + "\r\n";
    assert Header(n) == first + "\r\n";
    EncodeAdds(first, "\r\n");
    var second := Encode("\r\n") + rest;
    assert Encode(Header(n)) + rest == Encode(first) + second;
    FirstLine(n, second);
    NothingButFeed();
    LineRead("\r\n", rest, Some(n));
  }

  // ----- whole streams

  /** A length that a `Vec` can have. */
  predicate Fits(v: Value) { |Body(v)| <= USIZE_MAX }

  /** A frame is read back as its message, and no byte behind it is consumed. */
  lemma FrameRead(v: Value, rest: seq<byte>)
    requires Fits(v)
    ensures ReadFrom(Frame(v) + rest) == (Message(v), rest)
  {
    hide ReadHead, Encode, ParseValue, Fingerprint, Header;
    var body := Body(v);
    assert Frame(v) + rest == Encode(Header(|body|)) + (body + rest);
    HeaderRead(|body|, body + rest);
    assert (body + rest)[..|body|] == body && (body + rest)[|body|..] == rest;
    DecodeEncode(Fingerprint(v));
    RoundTrip(v, []);
    assert Fingerprint(v) + [] == Fingerprint(v);
  }

  /** Reading until the end of the stream or the first failure. */
  function ReadAll(input: seq<byte>): (seq<Value>, Outcome)
    decreases |input|
  {
    match ReadFrom(input)
    case (Message(v), rest) =>
      if |rest| < |input| then
        var more := ReadAll(rest);
        ([v] + more.0, more.1)
      else ([], Outcome.Failed)
    case (o, _) => ([], o)
  }

  function Frames(vs: seq<Value>): seq<byte> {
    if vs == [] then [] else Frame(vs[0]) + Frames(vs[1..])
  }

  lemma ReadAllStep(input: seq<byte>, v: Value, rest: seq<byte>)
    requires ReadFrom(input) == (Message(v), rest) && |rest| < |input|
    ensures ReadAll(input) == ([v] + ReadAll(rest).0, ReadAll(rest).1)
  {
    hide ReadFrom;
  }

  lemma {:induction false} FramesRead(vs: seq<Value>, tail: seq<byte>)
    requires forall v | v in vs :: Fits(v)
    ensures ReadAll(Frames(vs) + tail) == (vs + ReadAll(tail).0, ReadAll(tail).1)
  {
    hide ReadFrom, Fits, Frame, ReadAll;
    if vs == [] {
      assert Frames(vs) + tail == tail && vs + ReadAll(tail).0 == ReadAll(tail).0;
    } else {
      var rest := Frames(vs[1..]) + tail;
      assert Frames(vs) + tail == Frame(vs[0]) + rest;
      FrameRead(vs[0], rest);
      FrameNonEmpty(vs[0]);
      ReadAllStep(Frame(vs[0]) + rest, vs[0], rest);
      FramesRead(vs[1..], tail);
      assert vs + ReadAll(tail).0 == [vs[0]] + (vs[1..] + ReadAll(tail).0);
    }
  }

  lemma FrameNonEmpty(v: Value)
    ensures Frame(v) != []
  {
    hide Encode;
  }

  lemma EmptyStream()
    ensures ReadAll([]) == ([], End)
  {
  }

  /** Reading what was written, in one stream, gives back exactly the messages, `null` among them,
      and then the end of the stream. */
  lemma StreamRead(vs: seq<Value>)
    requires forall v | v in vs :: Fits(v)
    ensures ReadAll(Frames(vs)) == (vs, End)
  {
    hide ReadAll, Fits, Frames;
    FramesRead(vs, []);
    EmptyStream();
    assert Frames(vs) + [] == Frames(vs) && vs + [] == vs;
  }

  // ----- other headers

  /** A header line that states something else: a name without a colon, in whatever letters, that is not
      that of the content length. */
  predicate OtherLine(name: string, value: string) {
    && ':' !in name && Ascii.Lower(name) != "content-length"
    && IsAscii(name + ":" + value) && '\n' !in name + ":" + value
    && (name + ":" + value)[|name + ":" + value| - 1] != '\r'
  }

  datatype Field = Field(name: string, value: string)

  function FieldLine(f: Field): string { f.name + ":" + f.value + "\r\n" }

  function FieldLines(fields: seq<Field>): string {
    if fields == [] then "" else FieldLine(fields[0]) + FieldLines(fields[1..])
  }

  /** One such line changes nothing. */
  lemma OtherRead(f: Field, rest: seq<byte>, length: Option<nat>)
    requires OtherLine(f.name, f.value)
    ensures ReadHead(Encode(FieldLine(f)) + rest, length) == ReadHead(rest, length)
  {
    hide Encode, TrimEnd, ReadHead, IsAscii, Ascii.Lower, Colon;
    var line := f.name + ":" + f.value;
    assert line[|line| - 1] in line;
    FeedTrimmed(line);
    LineIsWhole(line, rest);
    LineRead(FieldLine(f), rest, length);
    assert line == f.name + (":" + f.value);
    ColonIs(f.name, ":" + f.value);
    assert line[..|f.name|] == f.name;
  }

  lemma LineIsWhole(line: string, rest: seq<byte>)
    requires IsAscii(line) && '\n' !in line
    ensures WholeLine(line + "\r\n", rest)
  {
    AsciiAdds(line, "\r\n");
    var text := line + "\r\n";
    assert text[..|text| - 1] == line + "\r";
  }

  lemma {:induction false} OthersRead(fields: seq<Field>, rest: seq<byte>, length: Option<nat>)
    requires forall f | f in fields :: OtherLine(f.name, f.value)
    ensures ReadHead(Encode(FieldLines(fields)) + rest, length) == ReadHead(rest, length)
  {
    hide Encode, ReadHead, OtherLine, FieldLine;
    if fields == [] {
      EncodeStep("");
      assert Encode("") + rest == rest;
    } else {
      var first, others := FieldLine(fields[0]), FieldLines(fields[1..]);
      EncodeAdds(first, others);
      assert Encode(first + others) + rest == Encode(first) + (Encode(others) + rest);
      OtherRead(fields[0], Encode(others) + rest, length);
      OthersRead(fields[1..], rest, length);
    }
  }

  lemma {:induction false} LowerKeeps(s: string)
    ensures |Ascii.Lower(s)| == |s|
    ensures forall k | 0 <= k < |s| :: Ascii.Lower(s)[k] == Ascii.LowerChar(s[k])
  {
    if s != [] { LowerKeeps(s[1..]); }
  }

  /** The name of the content length, in any letters. */
  lemma AnyLetters(name: string)
    requires Ascii.Lower(name) == "content-length"
    ensures ':' !in name && '\n' !in name && IsAscii(name)
  {
    LowerKeeps(name);
    var lower := "content-length";
    forall k | 0 <= k < |name| ensures name[k] != ':' && name[k] != '\n' && name[k] < '\U{80}' {
      assert Ascii.LowerChar(name[k]) == lower[k];
      assert lower[k] == '-' || 'a' <= lower[k] <= 'z';
    }
  }

  lemma LengthRead(name: string, n: nat, rest: seq<byte>, length: Option<nat>)
    requires Ascii.Lower(name) == "content-length" && n <= USIZE_MAX
    ensures ReadHead(Encode(name + ": " + Decimal.Print(n) + "\r\n") + rest, length) == ReadHead(rest, Some(n))
  {
    hide Encode, TrimEnd, ReadHead, HeaderLine, IsAscii, Ascii.Lower, Decimal.AllDigits;
    var digits := Decimal.Print(n);
    var line := name + ": " + digits;
    AnyLetters(name);
    DigitsAscii(digits);
    Decimal.PrintValue(n);
    SpaceAscii(name, digits);
    assert line[|line| - 1] == digits[|digits| - 1] && digits[|digits| - 1] in digits;
    FeedTrimmed(line);
    LineIsWhole(line, rest);
    LineRead(line + "\r\n", rest, length);
    NumberLine(name, digits);
  }

  lemma SpaceAscii(name: string, digits: string)
    requires IsAscii(name) && IsAscii(digits) && '\n' !in name && '\n' !in digits
    ensures IsAscii(name + ": " + digits) && '\n' !in name + ": " + digits
  {
  }

  /** A message is read whatever other header lines come with it, before or after its length, and in
      whatever letters the name of the length is written. */
  lemma MessageRead(before: seq<Field>, name: string, after: seq<Field>, v: Value, rest: seq<byte>)
    requires Fits(v) && Ascii.Lower(name) == "content-length"
    requires forall f | f in before + after :: OtherLine(f.name, f.value)
    ensures var length := name + ": " + Decimal.Print(|Body(v)|) + "\r\n";
            var head := FieldLines(before) + (length + (FieldLines(after) + "\r\n"));
            ReadFrom(Encode(head) + (Body(v) + rest)) == (Message(v), rest)
  {
    hide Encode, ReadHead, OtherLine, FieldLines, Body, Ascii.Lower, Decimal.Print;
    assert |Body(v)| <= USIZE_MAX by { FitsIs(v); }
    var length := name + ": " + Decimal.Print(|Body(v)|) + "\r\n";
    var end := FieldLines(after) + "\r\n";
    var body := Body(v) + rest;
    forall f | f in before ensures OtherLine(f.name, f.value) { assert f in before + after; }
    forall f | f in after ensures OtherLine(f.name, f.value) { assert f in before + after; }
    EncodeAdds(FieldLines(before), length + end);
    EncodeAdds(length, end);
    EncodeAdds(FieldLines(after), "\r\n");
    var r2 := Encode("\r\n") + body;
    var r1 := Encode(FieldLines(after)) + r2;
    var r0 := Encode(length) + r1;
    assert Encode(FieldLines(before) + (length + end)) + body == Encode(FieldLines(before)) + r0;
    OthersRead(before, r0, None);
    LengthRead(name, |Body(v)|, r1, None);
    OthersRead(after, r2, Some(|Body(v)|));
    BlankLine(body, |Body(v)|);
    BodyRead(v, rest);
  }

  lemma BlankLine(rest: seq<byte>, n: nat)
    ensures ReadHead(Encode("\r\n") + rest, Some(n)) == Ready(n, rest)
  {
    hide Encode, TrimEnd, ReadHead, HeaderLine;
    NothingButFeed();
    LineRead("\r\n", rest, Some(n));
  }

  lemma BodyRead(v: Value, rest: seq<byte>)
    ensures var all := Body(v) + rest;
            ReadBody(all[..|Body(v)|]) == Message(v) && all[|Body(v)|..] == rest
  {
    hide Encode, ParseValue, Fingerprint, Decode;
    var all := Body(v) + rest;
    assert all[..|Body(v)|] == Body(v) && all[|Body(v)|..] == rest;
    DecodeEncode(Fingerprint(v));
    RoundTrip(v, []);
    assert Fingerprint(v) + [] == Fingerprint(v);
  }

  // ----- streams cut short

  /** A line at which the stream breaks off is either malformed or a content length without the
      end of the header; it fails in both cases. */
  lemma BrokenLine(text: string)
    requires WholeLine(text, []) && TrimEnd(text) != [] && HeaderLine(TrimEnd(text)) != Other
    ensures ReadHead(Encode(text), None) == Bad
  {
    hide Encode, HeaderLine, TrimEnd, ReadHead;
    LineRead(text, [], None);
    assert Encode(text) + [] == Encode(text);
    NothingRead();
  }

  lemma NothingRead()
    ensures forall n: nat :: ReadHead([], Some(n)) == Bad
  {
  }

  /** No proper part of the line `Content-Length: n` is some other header. */
  lemma PartOfLine(digits: string, k: nat)
    requires Decimal.AllDigits(digits) && 0 < k <= |NAME + ": " + digits|
    ensures HeaderLine((NAME + ": " + digits)[..k]) != Other
  {
    hide Colon, ParseUsize, TrimRight, TrimLeft, Ascii.Lower;
    var part := (NAME + ": " + digits)[..k];
    if k <= |NAME| {
      assert part == NAME[..k];
      NoColon(part);
    } else {
      var b := part[|NAME|..];
      assert part[..|NAME|] == NAME && part == NAME + b && b[0] == ':';
      ColonIs(NAME, b);
      NameLower();
    }
  }

  /** A frame cut short is never taken for a message, nor for the end of the stream. */
  lemma FrameCut(v: Value, k: nat)
    requires Fits(v) && 0 < k < |Frame(v)|
    ensures ReadFrom(Frame(v)[..k]).0 == Outcome.Failed
  {
    hide Encode, ReadHead, HeaderLine, TrimEnd, Decimal.AllDigits, Header, Decimal.Print, Fits, Body;
    var n, digits := |Body(v)|, Decimal.Print(|Body(v)|);
    var header := Encode(Header(n));
    if k >= |header| {
      var part := Body(v)[..k - |header|];
      assert Frame(v)[..k] == header + part;
      assert n <= USIZE_MAX by { FitsIs(v); }
      HeaderRead(n, part);
    } else {
      assert Frame(v)[..k] == header[..k];
      assert n <= USIZE_MAX by { FitsIs(v); }
      HeaderCut(n, k);
    }
  }

  lemma FitsIs(v: Value)
    requires Fits(v)
    ensures |Body(v)| <= USIZE_MAX
  {
  }

  lemma AsciiPart(s: string, k: nat)
    requires IsAscii(s) && k <= |s|
    ensures IsAscii(s[..k])
  {
    forall c | c in s[..k] ensures c in s {
    }
  }

  lemma EncodePrefix(s: string, k: nat)
    requires IsAscii(s) && k <= |s|
    ensures |Encode(s)| == |s| && Encode(s)[..k] == Encode(s[..k])
  {
    hide Encode;
    EncodeAdds(s[..k], s[k..]);
    assert s == s[..k] + s[k..];
    AsciiBytes(s);
    AsciiPart(s, k);
    AsciiBytes(s[..k]);
  }

  /** The stream breaks off in the second line of the header. */
  lemma AfterFirst(n: nat, s: string)
    requires s == "" || s == "\r"
    ensures ReadHead(Encode(s), Some(n)) == if s == "" then Bad else Ready(n, [])
  {
    hide Encode, TrimEnd, HeaderLine;
    EncodeStep("");
    if s != "" {
      NothingButFeed();
      assert s[..0] == [];
      LineRead(s, [], Some(n));
      assert Encode(s) + [] == Encode(s);
    }
  }

  /** The stream breaks off in the first line of the header. */
  lemma PartIsLine(digits: string, k: nat)
    requires digits != [] && Decimal.AllDigits(digits) && 0 < k <= |NAME| + 3 + |digits|
    ensures var text := (NAME + ": " + digits + "\r\n")[..k];
            WholeLine(text, []) && TrimEnd(text) != [] && HeaderLine(TrimEnd(text)) != Other
  {
    hide HeaderLine, Decimal.AllDigits, TrimEnd;
    var line := NAME + ": " + digits;
    var whole := line + "\r\n";
    var text := whole[..k];
    WholeFirst(digits, []);
    forall i | 0 <= i < k ensures text[i] < '\U{80}' && text[i] != '\n' {
      assert text[i] == whole[..|whole| - 1][i];
      assert text[i] in whole;
    }
    if k <= |line| {
      assert text == line[..k];
      LastOfLine(digits, k);
      FeedTrimmed(text);
      PartOfLine(digits, k);
    } else {
      assert text == line + "\r";
      LastOfLine(digits, |line|);
      assert line[..|line|] == line;
      FeedTrimmed(line);
      PartOfLine(digits, |line|);
    }
  }

  lemma LastOfLine(digits: string, k: nat)
    requires Decimal.AllDigits(digits) && 0 < k <= |NAME + ": " + digits|
    ensures (NAME + ": " + digits)[k - 1] !in "\r\n"
  {
    DigitsAscii(digits);
    if k > |NAME| + 2 {
      assert (NAME + ": " + digits)[k - 1] == digits[k - 1 - |NAME| - 2];
      assert digits[k - 1 - |NAME| - 2] in digits;
    }
  }

  lemma HeaderAscii(n: nat)
    ensures IsAscii(Header(n))
  {
    hide Decimal.Print;
    var digits := Decimal.Print(n);
    DigitsAscii(digits);
    AsciiAdds(NAME + ": ", digits);
    AsciiAdds(NAME + ": " + digits, "\r\n\r\n");
  }

  lemma HeaderCut(n: nat, k: nat)
    requires n <= USIZE_MAX && 0 < n && 0 < k < |Encode(Header(n))|
    ensures var head := ReadHead(Encode(Header(n))[..k], None);
            head == Bad || (head.Ready? && head.length == n && head.rest == [])
  {
    hide Encode, ReadHead, HeaderLine, TrimEnd, Decimal.AllDigits, Decimal.Print;
    var digits := Decimal.Print(n);
    var line := NAME + ": " + digits;
    var h := Header(n);
    assert h == line + "\r\n\r\n";
    HeaderAscii(n);
    AsciiBytes(h);
    EncodePrefix(h, k);
    assert line[|line| - 1] == digits[|digits| - 1] && digits[|digits| - 1] in digits;
    if k >= |line| + 2 {
      FirstLine(n, Encode(h[..k][|line| + 2..]));
      assert h[..k] == (line + "\r\n") + h[..k][|line| + 2..];
      EncodeAdds(line + "\r\n", h[..k][|line| + 2..]);
      var m, end := k - |line| - 2, h[..k][|line| + 2..];
      assert |end| == m <= 1;
      if m == 1 { assert end[0] == h[|line| + 2] == '\r'; }
      assert end == (if m == 0 then "" else "\r");
      AfterFirst(n, end);
    } else {
      var text := h[..k];
      assert text == (line + "\r\n")[..k];
      PartIsLine(digits, k);
      BrokenLine(text);
    }
  }

  /** A stream that breaks off inside a frame yields the messages before it, and then a failure. */
  lemma StreamCut(vs: seq<Value>, v: Value, k: nat)
    requires (forall w | w in vs :: Fits(w)) && Fits(v) && 0 < k < |Frame(v)|
    ensures ReadAll(Frames(vs) + Frame(v)[..k]) == (vs, Outcome.Failed)
  {
    hide ReadFrom, Fits, Frames, Frame;
    FrameCut(v, k);
    FramesRead(vs, Frame(v)[..k]);
    assert vs + [] == vs;
  }
}
