/** Colouring source text by the semantic tokens of a language server. */
module Render {
  import opened Json
  import opened Text
  import Decimal

  /** A token in the relative encoding of the protocol. */
  datatype Token = Token(deltaLine: u32, deltaStart: u32, length: u32, tokenType: u32)

  // ----- the line index

  function StripReturn(line: string): string {
    if line != [] && line[|line| - 1] == '\r' then line[..|line| - 1] else line
  }

  /** The byte offset of a position, lines counted without their carriage return. */
  function LineOffset(source: string, line: nat, column: nat): Option<nat> {
    if line >= |Lines(source)| then None
    else After(Head(Lines(source), line), ByteOffset(StripReturn(Lines(source)[line]), column))
  }

  datatype IndexedLine = IndexedLine(start: nat, text: string)

  predicate Indexes(lines: seq<string>, index: seq<IndexedLine>) {
    && |index| <= |lines|
    && forall k | 0 <= k < |index| :: index[k] == IndexedLine(ByteLen(Head(lines, k)), StripReturn(lines[k]))
  }

  lemma IndexNext(lines: seq<string>, index: seq<IndexedLine>)
    requires Indexes(lines, index) && |index| < |lines|
    ensures Indexes(lines, index + [IndexedLine(ByteLen(Head(lines, |index|)), StripReturn(lines[|index|]))])
  {
    hide ByteLen, StripReturn, Head;
  }

  lemma HeadNext(lines: seq<string>, k: nat)
    requires k < |lines|
    ensures ByteLen(Head(lines, k + 1)) == ByteLen(Head(lines, k)) + ByteLen(lines[k]) + 1
  {
    hide ByteLen;
    LengthsAdd(Head(lines, k), lines[k]);
    LineFeed(Head(lines, k) + lines[k]);
  }

  /** `SourceLines::new`: a running offset over the lines. */
  method SourceLines(source: string) returns (index: seq<IndexedLine>)
    ensures |index| == |Lines(source)| && Indexes(Lines(source), index)
  {
    hide Lines, Indexes, StripReturn, ByteLen, Head;
    var lines := Lines(source);
    var offset := 0;
    index := [];
    assert Indexes(lines, []) && ByteLen(Head(lines, 0)) == 0 by { NothingIndexed(lines); }
    for k := 0 to |lines|
      invariant |index| == k && offset == ByteLen(Head(lines, k))
      invariant Indexes(lines, index)
    {
      IndexNext(lines, index);
      HeadNext(lines, k);
      index := index + [IndexedLine(offset, StripReturn(lines[k]))];
      offset := offset + ByteLen(lines[k]) + 1;
    }
  }

  /** `SourceLines::offset`. */
  function Offset(index: seq<IndexedLine>, line: nat, column: nat): Option<nat> {
    if line >= |index| then None
    else
      var byte := ByteOffset(index[line].text, column);
      if byte == None then None else Some(index[line].start + byte.value)
  }

  /** Looking a position up in the index gives its offset in the source. */
  lemma OffsetIs(source: string, index: seq<IndexedLine>, line: nat, column: nat)
    requires |index| == |Lines(source)| && Indexes(Lines(source), index)
    ensures Offset(index, line, column) == LineOffset(source, line, column)
  {
    hide Lines, Head, ByteOffset, StripReturn, ByteLen;
  }

  lemma NothingIndexed(lines: seq<string>)
    ensures Indexes(lines, []) && ByteLen(Head(lines, 0)) == 0
  {
  }

  lemma StripPrefix(line: string)
    ensures |StripReturn(line)| <= |line|
    ensures forall i | 0 <= i <= |StripReturn(line)| :: StripReturn(line)[..i] == line[..i]
  {
  }

  /** A column of a stripped line is a column of the line, at the same offset; the columns that
      are lost lie behind the carriage return. */
  lemma StrippedColumns(line: string, column: nat)
    ensures ByteOffset(StripReturn(line), column)
         == if column <= Units(StripReturn(line)) then ByteOffset(line, column) else None
  {
    hide Units, ByteLen;
    var t := StripReturn(line);
    StripPrefix(line);
    assert t[..|t|] == t;
    var i, j := IndexOfUnits(t, column), IndexOfUnits(line, column);
    if i.Some? {
      assert t[..i.value] == line[..i.value];
      IndexOfUnitsIs(line, i.value);
      if i.value < |t| { PrefixLengths(t, i.value, |t|); }
    } else if j.Some? {
      if j.value <= |t| {
        assert t[..j.value] == line[..j.value];
      } else {
        PrefixLengths(line, |t|, j.value);
        assert line[..|t|] == t;
      }
    }
  }

  /** The index of the renderer and that of the formatter agree: where the renderer has an offset
      the formatter has the same, and the renderer rejects exactly those further positions that
      lie behind the carriage return of a line. */
  lemma IndexesAgree(source: string, line: nat, column: nat)
    ensures LineOffset(source, line, column).Some? ==>
              LineOffset(source, line, column) == PositionToOffset(source, Position(line, column))
    ensures LineOffset(source, line, column).Some?
      <==> && PositionToOffset(source, Position(line, column)).Some?
           && line < |Lines(source)| && column <= Units(StripReturn(Lines(source)[line]))
  {
    hide Lines, ByteOffset, PositionToOffset, Units, StripReturn;
    PositionInLine(source, line, column);
    if line < |Lines(source)| {
      StrippedColumns(Lines(source)[line], column);
      if column > Units(StripReturn(Lines(source)[line])) { StrippedLonger(Lines(source)[line], column); }
    }
  }

  lemma StrippedLonger(line: string, column: nat)
    requires column > Units(StripReturn(line))
    ensures ByteOffset(StripReturn(line), column) == None
  {
    hide Units, ByteLen, StripReturn;
    var t := StripReturn(line);
    assert t[..|t|] == t;
    forall i | 0 <= i <= |t| ensures Units(t[..i]) != column {
      PrefixLengths(t, i, |t|);
    }
  }

  // ----- positions of tokens

  /** The absolute line of a token: the sum of all line deltas up to it. */
  function TokenLine(tokens: seq<Token>, i: nat): nat
    requires i < |tokens|
  {
    (if i == 0 then 0 else TokenLine(tokens, i - 1)) + tokens[i].deltaLine
  }

  /** The absolute column of a token: relative to the token before it on the same line. */
  function TokenColumn(tokens: seq<Token>, i: nat): nat
    requires i < |tokens|
  {
    if tokens[i].deltaLine == 0 && i > 0 then TokenColumn(tokens, i - 1) + tokens[i].deltaStart
    else tokens[i].deltaStart
  }

  function TokenStart(source: string, tokens: seq<Token>, i: nat): Option<nat>
    requires i < |tokens|
  {
    LineOffset(source, TokenLine(tokens, i), TokenColumn(tokens, i))
  }

  function TokenEnd(source: string, tokens: seq<Token>, i: nat): Option<nat>
    requires i < |tokens|
  {
    LineOffset(source, TokenLine(tokens, i), TokenColumn(tokens, i) + tokens[i].length)
  }

  /** What a response must satisfy at one token: no overflow, valid boundaries, a length, a type
      of the legend, and no overlap with the token before. */
  predicate ValidToken(source: string, tokens: seq<Token>, legend: seq<string>, i: nat)
    requires i < |tokens|
  {
    && TokenLine(tokens, i) < 0x1_0000_0000
    && TokenColumn(tokens, i) + tokens[i].length < 0x1_0000_0000
    && TokenStart(source, tokens, i).Some? && TokenEnd(source, tokens, i).Some?
    && tokens[i].length > 0
    && tokens[i].tokenType < |legend|
    && (i > 0 ==> TokenEnd(source, tokens, i - 1).Some?
                  && TokenEnd(source, tokens, i - 1).value <= TokenStart(source, tokens, i).value)
  }

  predicate AllValid(source: string, tokens: seq<Token>, legend: seq<string>) {
    forall i | 0 <= i < |tokens| :: ValidToken(source, tokens, legend, i)
  }

  lemma TokenOrder(source: string, tokens: seq<Token>, legend: seq<string>, i: nat) returns (from: nat, to: nat)
    requires i < |tokens| && ValidToken(source, tokens, legend, i)
    ensures TokenStart(source, tokens, i) == Some(from) && TokenEnd(source, tokens, i) == Some(to) && from < to
    ensures forall end | i > 0 && TokenEnd(source, tokens, i - 1) == Some(end) :: end <= from
  {
    hide LineOffset, TokenLine, TokenColumn;
    from, to := TokenStart(source, tokens, i).value, TokenEnd(source, tokens, i).value;
    OffsetsInOrder(source, TokenLine(tokens, i), TokenColumn(tokens, i), TokenColumn(tokens, i) + tokens[i].length);
  }

  /** Valid tokens are non-empty, ascending and disjoint pieces of the source. */
  lemma {:induction false} TokensAscend(source: string, tokens: seq<Token>, legend: seq<string>, i: nat, j: nat)
    returns (from: nat, to: nat, next: nat)
    requires i < j < |tokens| && AllValid(source, tokens, legend)
    ensures TokenStart(source, tokens, i) == Some(from) && TokenEnd(source, tokens, i) == Some(to)
    ensures TokenStart(source, tokens, j) == Some(next)
    ensures from < to <= next
    decreases j
  {
    hide ValidToken, TokenStart, TokenEnd;
    from, to := TokenOrder(source, tokens, legend, i);
    var end;
    next, end := TokenOrder(source, tokens, legend, j);
    if i + 1 < j {
      var _, _, before := TokensAscend(source, tokens, legend, i, j - 1);
      var start, last := TokenOrder(source, tokens, legend, j - 1);
    }
  }

  // ----- output

  /** A piece of the output: text as it is, or a token in its style. */
  datatype Segment = Plain(text: string) | Coloured(style: Option<string>, text: string)

  const RESET: string := "\U{1B}[0m"

  function Paint(segment: Segment): string {
    if segment.Coloured? && segment.style.Some? then segment.style.value + segment.text + RESET
    else segment.text
  }

  function Painted(segments: seq<Segment>): string {
    if segments == [] then "" else Painted(segments[..|segments| - 1]) + Paint(segments[|segments| - 1])
  }

  function Written(segments: seq<Segment>): string {
    if segments == [] then "" else Written(segments[..|segments| - 1]) + segments[|segments| - 1].text
  }

  lemma Segment1(segments: seq<Segment>, x: Segment)
    ensures Painted(segments + [x]) == Painted(segments) + Paint(x)
    ensures Written(segments + [x]) == Written(segments) + x.text
  {
    assert (segments + [x])[..|segments|] == segments;
  }

  function Palette(tokenType: string): Option<string> {
    if tokenType in {"namespace", "type", "class", "enum", "interface", "struct", "typeParameter"}
      then Some("\U{1B}[36m")
    else if tokenType in {"function", "method", "macro"} then Some("\U{1B}[33m")
    else if tokenType in {"keyword", "modifier", "decorator", "operator"} then Some("\U{1B}[35m")
    else if tokenType in {"string", "regexp"} then Some("\U{1B}[32m")
    else if tokenType in {"number", "enumMember"} then Some("\U{1B}[34m")
    else if tokenType == "comment" then Some("\U{1B}[90m")
    else if tokenType in {"variable", "parameter", "property", "event"} then Some("\U{1B}[37m")
    else None
  }

  /** The token types of the language server protocol 3.17, section "Semantic Tokens". */
  const STANDARD: seq<string> :=
    ["namespace", "type", "class", "enum", "interface", "struct", "typeParameter", "parameter", "variable", "property",
     "enumMember", "event", "function", "method", "macro", "keyword", "modifier", "comment", "string", "number",
     "regexp", "operator", "decorator"]

  /** The foreground colours of a terminal that stand for kinds of token types. */
  function Colour(tokenType: string): nat {
    if tokenType == "comment" then 90
    else if tokenType in ["string", "regexp"] then 32
    else if tokenType in ["function", "method", "macro"] then 33
    else if tokenType in ["number", "enumMember"] then 34
    else if tokenType in ["keyword", "modifier", "decorator", "operator"] then 35
    else if tokenType in ["variable", "parameter", "property", "event"] then 37
    else 36
  }

  /** Exactly the token types of the protocol have a style. */
  lemma PaletteCovers(tokenType: string)
    ensures Palette(tokenType).Some? <==> tokenType in STANDARD
  {
  }

  /** Each kind has the escape sequence of its colour. */
  lemma PaletteColours(tokenType: string)
    requires Palette(tokenType).Some?
    ensures Palette(tokenType).value == "\U{1B}[" + Decimal.Print(Colour(tokenType)) + "m"
  {
    hide Decimal.Print;
    match Colour(tokenType)
    case 90 => Printed(9, 0, "\U{1B}[90m");
    case 32 => Printed(3, 2, "\U{1B}[32m");
    case 33 => Printed(3, 3, "\U{1B}[33m");
    case 34 => Printed(3, 4, "\U{1B}[34m");
    case 35 => Printed(3, 5, "\U{1B}[35m");
    case 37 => Printed(3, 7, "\U{1B}[37m");
    case _ => Printed(3, 6, "\U{1B}[36m");
  }

  lemma Printed(a: nat, b: nat, style: string)
    requires 0 < a < 10 && b < 10
    requires style == "\U{1B}[" + [Decimal.DigitChar(a), Decimal.DigitChar(b)] + "m"
    ensures style == "\U{1B}[" + Decimal.Print(10 * a + b) + "m"
  {
    TwoDigits(a, b);
  }

  lemma TwoDigits(a: nat, b: nat)
    requires 0 < a < 10 && b < 10
    ensures Decimal.Print(10 * a + b) == [Decimal.DigitChar(a), Decimal.DigitChar(b)]
  {
    assert (10 * a + b) / 10 == a && (10 * a + b) % 10 == b;
  }

  /** The segment of one token: the source between its absolute boundaries, in the style of its
      type. */
  predicate TokenSegment(source: string, tokens: seq<Token>, legend: seq<string>, i: nat, x: Segment)
    requires i < |tokens|
  {
    && tokens[i].tokenType < |legend|
    && TokenStart(source, tokens, i).Some? && TokenEnd(source, tokens, i).Some?
    && x.Coloured? && x.style == Palette(legend[tokens[i].tokenType])
    && x.text != [] && Slice(source, TokenStart(source, tokens, i).value, TokenEnd(source, tokens, i).value)
       == Some(x.text)
  }

  /** Offsets within one line grow with the column, and are boundaries of the source. */
  lemma OffsetsInOrder(source: string, line: nat, a: nat, b: nat)
    requires LineOffset(source, line, a).Some? && LineOffset(source, line, b).Some? && a < b
    ensures LineOffset(source, line, a).value < LineOffset(source, line, b).value
    ensures IndexOfByte(source, LineOffset(source, line, a).value).Some?
    ensures IndexOfByte(source, LineOffset(source, line, b).value).Some?
    ensures IndexOfByte(source, LineOffset(source, line, a).value).value
          < IndexOfByte(source, LineOffset(source, line, b).value).value
  {
    hide Lines, LineStarts, IndexOfUnits, IndexOfByte, Units, ByteLen, StripReturn, PositionToOffset, LineOffset,
         PositionAt;
    var i := BoundaryOf(source, line, a);
    var j := BoundaryOf(source, line, b);
    if j < i { PositionsMonotone(source, j, i); }
    if i < j { PositionsMonotone(source, i, j); }
    IndexOfByteIs(source, i);
    IndexOfByteIs(source, j);
  }

  lemma BoundaryOf(source: string, line: nat, column: nat) returns (i: nat)
    requires LineOffset(source, line, column).Some?
    ensures i <= |source| && PositionAt(source, i) == Position(line, column)
    ensures LineOffset(source, line, column) == Some(ByteLen(source[..i]))
  {
    hide Lines, LineStarts, IndexOfUnits, IndexOfByte, Units, ByteLen, StripReturn, PositionToOffset, PositionAt,
         LineOffset;
    IndexesAgree(source, line, column);
    PositionToOffsetIs(source, Position(line, column));
    i :| 0 <= i <= |source| && PositionAt(source, i) == Position(line, column);
  }

  /** Where the loop of `highlight` stands after `i` tokens. */
  predicate Reached(source: string, tokens: seq<Token>, i: nat, line: nat, column: nat, previousEnd: nat)
    requires i <= |tokens|
  {
    if i == 0 then line == 0 && column == 0 && previousEnd == 0
    else line == TokenLine(tokens, i - 1) && column == TokenColumn(tokens, i - 1)
         && TokenEnd(source, tokens, i - 1) == Some(previousEnd)
  }

  /** Every token stands in what is written where it stands in the source. */
  predicate Placed(source: string, tokens: seq<Token>, i: nat, segments: seq<Segment>)
    requires i <= |tokens| && |segments| >= 2 * i
  {
    forall k | 0 <= k < i :: TokenStart(source, tokens, k) == Some(ByteLen(Written(segments[..2 * k + 1])))
  }

  /** What it has written by then: the segments are the source up to there. */
  predicate Covered(source: string, tokens: seq<Token>, legend: seq<string>, i: nat, previousEnd: nat,
                    segments: seq<Segment>)
    requires i <= |tokens|
  {
    && CoveredText(source, previousEnd, segments)
    && |segments| == 2 * i && PlainBetween(segments)
    && Segmented(source, tokens, legend, i, segments)
    && Placed(source, tokens, i, segments)
  }

  predicate CoveredText(source: string, previousEnd: nat, segments: seq<Segment>) {
    && IndexOfByte(source, previousEnd).Some?
    && Written(segments) == source[..IndexOfByte(source, previousEnd).value]
  }

  /** What stands before, between and behind the tokens is plain. */
  predicate PlainBetween(segments: seq<Segment>) {
    forall k | 0 <= k < |segments| && k % 2 == 0 :: segments[k].Plain?
  }

  lemma PlainNext(segments: seq<Segment>, plain: Segment, coloured: Segment)
    requires PlainBetween(segments) && |segments| % 2 == 0 && plain.Plain?
    ensures PlainBetween(segments + [plain]) && PlainBetween(segments + [plain] + [coloured])
  {
    var more := segments + [plain];
    var all := more + [coloured];
    forall k | 0 <= k < |all| && k % 2 == 0 ensures all[k].Plain? && (k < |more| ==> more[k].Plain?) {
      if k < |segments| {
        assert all[k] == segments[k] && more[k] == segments[k];
      } else {
        assert k == |segments|;
      }
    }
  }

  /** Every second segment is a token. */
  predicate Segmented(source: string, tokens: seq<Token>, legend: seq<string>, i: nat, segments: seq<Segment>)
    requires i <= |tokens|
  {
    && |segments| >= 2 * i
    && forall k | 0 <= k < i :: TokenSegment(source, tokens, legend, k, segments[2 * k + 1])
  }

  /** The checks of one iteration are the validity of the token. */
  lemma Judged(source: string, tokens: seq<Token>, legend: seq<string>, i: nat, line: nat, column: nat,
               previousEnd: nat)
    requires i < |tokens| && Reached(source, tokens, i, line, column, previousEnd)
    ensures TokenLine(tokens, i) == line + tokens[i].deltaLine
    ensures TokenColumn(tokens, i) == if tokens[i].deltaLine == 0 then column + tokens[i].deltaStart
            else tokens[i].deltaStart
    ensures var l, c, n := TokenLine(tokens, i), TokenColumn(tokens, i), tokens[i].length;
            ValidToken(source, tokens, legend, i)
            <==> && l < 0x1_0000_0000 && c + n < 0x1_0000_0000
                 && LineOffset(source, l, c).Some? && LineOffset(source, l, c + n).Some?
                 && n > 0 && tokens[i].tokenType < |legend|
                 && previousEnd <= LineOffset(source, l, c).value
  {
    hide LineOffset;
  }

  /** The two pieces that one accepted token adds, and where they end. */
  lemma TokenCuts(source: string, tokens: seq<Token>, legend: seq<string>, i: nat, previousEnd: nat, from: nat, to: nat)
    requires i < |tokens| && ValidToken(source, tokens, legend, i)
    requires IndexOfByte(source, previousEnd).Some? && previousEnd <= from
    requires TokenStart(source, tokens, i) == Some(from) && TokenEnd(source, tokens, i) == Some(to)
    ensures IndexOfByte(source, to).Some?
    ensures Slice(source, previousEnd, from).Some? && Slice(source, from, to).Some?
    ensures Slice(source, from, to).value != []
    ensures source[..IndexOfByte(source, to).value]
         == source[..IndexOfByte(source, previousEnd).value] + Slice(source, previousEnd, from).value
           + Slice(source, from, to).value
  {
    hide LineOffset, IndexOfByte, TokenLine, TokenColumn, Slice;
    OffsetsInOrder(source, TokenLine(tokens, i), TokenColumn(tokens, i), TokenColumn(tokens, i) + tokens[i].length);
    CutsAgree(source, previousEnd, from, to);
  }

  lemma SegmentedNext(source: string, tokens: seq<Token>, legend: seq<string>, i: nat, segments: seq<Segment>,
                      plain: Segment, coloured: Segment)
    requires i < |tokens| && |segments| == 2 * i && Segmented(source, tokens, legend, i, segments)
    requires TokenSegment(source, tokens, legend, i, coloured)
    ensures Segmented(source, tokens, legend, i + 1, segments + [plain] + [coloured])
  {
    hide TokenSegment;
    var all := segments + [plain] + [coloured];
    forall k | 0 <= k < i + 1 ensures TokenSegment(source, tokens, legend, k, all[2 * k + 1]) {
      if k < i { assert all[2 * k + 1] == segments[2 * k + 1]; }
    }
  }

  lemma TextNext(source: string, a: nat, b: nat, segments: seq<Segment>, plain: Segment, coloured: Segment)
    requires CoveredText(source, a, segments) && IndexOfByte(source, b).Some?
    requires source[..IndexOfByte(source, b).value] == source[..IndexOfByte(source, a).value] + plain.text
             + coloured.text
    ensures CoveredText(source, b, segments + [plain] + [coloured])
  {
    hide IndexOfByte, Written;
    Segment1(segments, plain);
    Segment1(segments + [plain], coloured);
  }

  lemma PlacedNext(source: string, tokens: seq<Token>, i: nat, a: nat, from: nat,
                   segments: seq<Segment>, plain: Segment, coloured: Segment)
    requires i < |tokens| && |segments| == 2 * i && Placed(source, tokens, i, segments)
    requires CoveredText(source, a, segments)
    requires TokenStart(source, tokens, i) == Some(from) && Slice(source, a, from) == Some(plain.text)
    ensures Placed(source, tokens, i + 1, segments + [plain] + [coloured])
  {
    hide IndexOfByte, TokenStart, Written, ByteLen;
    Segment1(segments, plain);
    CutBefore(source, a, from);
    var all := segments + [plain] + [coloured];
    forall k | 0 <= k < i + 1 ensures TokenStart(source, tokens, k) == Some(ByteLen(Written(all[..2 * k + 1]))) {
      if k < i {
        assert all[..2 * k + 1] == segments[..2 * k + 1];
      } else {
        assert all[..2 * k + 1] == segments + [plain];
      }
    }
  }

  lemma PlacedStays(source: string, tokens: seq<Token>, i: nat, segments: seq<Segment>, x: Segment)
    requires i <= |tokens| && |segments| >= 2 * i && Placed(source, tokens, i, segments)
    ensures Placed(source, tokens, i, segments + [x])
  {
    hide TokenStart, Written, ByteLen;
    forall k | 0 <= k < i ensures (segments + [x])[..2 * k + 1] == segments[..2 * k + 1] {
    }
  }

  lemma CutBefore(source: string, a: nat, b: nat)
    requires Slice(source, a, b).Some?
    ensures var i, j := IndexOfByte(source, a), IndexOfByte(source, b);
            && i.Some? && j.Some? && source[..j.value] == source[..i.value] + Slice(source, a, b).value
            && ByteLen(source[..j.value]) == b
  {
    hide IndexOfByte, ByteLen;
  }

  lemma CoveredNext(source: string, tokens: seq<Token>, legend: seq<string>, i: nat, a: nat, b: nat,
                    segments: seq<Segment>, plain: Segment, coloured: Segment)
    requires i < |tokens| && Covered(source, tokens, legend, i, a, segments)
    requires TokenStart(source, tokens, i).Some?
    requires Slice(source, a, TokenStart(source, tokens, i).value) == Some(plain.text)
    requires plain.Plain? && TokenSegment(source, tokens, legend, i, coloured)
    requires IndexOfByte(source, a).Some? && IndexOfByte(source, b).Some?
    requires source[..IndexOfByte(source, b).value] == source[..IndexOfByte(source, a).value] + plain.text
             + coloured.text
    ensures Covered(source, tokens, legend, i + 1, b, segments + [plain] + [coloured])
  {
    hide IndexOfByte, CoveredText, PlainBetween, TokenSegment, TokenStart, Segmented, Placed, Slice;
    PlacedNext(source, tokens, i, a, TokenStart(source, tokens, i).value, segments, plain, coloured);
    TextNext(source, a, b, segments, plain, coloured);
    PlainNext(segments, plain, coloured);
    SegmentedNext(source, tokens, legend, i, segments, plain, coloured);
  }

  /** One accepted token. */
  lemma OneToken(source: string, tokens: seq<Token>, legend: seq<string>, i: nat, line: nat, column: nat,
                 previousEnd: nat,
                 segments: seq<Segment>, before: Option<string>, text: Option<string>)
    requires i < |tokens| && Reached(source, tokens, i, line, column, previousEnd)
    requires Covered(source, tokens, legend, i, previousEnd, segments)
    requires ValidToken(source, tokens, legend, i)
    requires before == Slice(source, previousEnd, TokenStart(source, tokens, i).value)
    requires text == Slice(source, TokenStart(source, tokens, i).value, TokenEnd(source, tokens, i).value)
    ensures before.Some? && text.Some?
    ensures Reached(source, tokens, i + 1, TokenLine(tokens, i), TokenColumn(tokens, i),
                    TokenEnd(source, tokens, i).value)
    ensures Covered(source, tokens, legend, i + 1, TokenEnd(source, tokens, i).value,
                    segments + [Plain(before.value)] + [Coloured(Palette(legend[tokens[i].tokenType]), text.value)])
  {
    hide LineOffset, IndexOfByte, Palette, Written, TokenLine, TokenColumn, Slice;
    Judged(source, tokens, legend, i, line, column, previousEnd);
    var from, to := TokenStart(source, tokens, i).value, TokenEnd(source, tokens, i).value;
    TokenCuts(source, tokens, legend, i, previousEnd, from, to);
    CoveredNext(source, tokens, legend, i, previousEnd, to, segments,
                Plain(before.value), Coloured(Palette(legend[tokens[i].tokenType]), text.value));
  }

  /** `highlight` on the tokens of a response. It succeeds exactly when every token is valid, and
      then its output, piece by piece, is the source: what lies between the tokens as it is, and
      each token's text in the style of its type, at the token's own place. */
  method Highlight(source: string, tokens: seq<Token>, legend: seq<string>)
    returns (r: Option<string>, ghost segments: seq<Segment>)
    ensures r.Some? <==> AllValid(source, tokens, legend)
    ensures r.Some? ==> r.value == Painted(segments) && Written(segments) == source
    ensures r.Some? ==> |segments| == 2 * |tokens| + 1 && PlainBetween(segments)
    ensures r.Some? ==> Segmented(source, tokens, legend, |tokens|, segments)
    ensures r.Some? ==> Placed(source, tokens, |tokens|, segments)
  {
    hide LineOffset, IndexOfByte, Palette, Painted, Written, Paint, Slice, ValidToken, Reached, Covered, TokenLine,
         TokenColumn, TokenSegment, Segmented, Placed, Offset, Lines, Indexes;
    var lines := SourceLines(source);
    var output: string, previousEnd: nat, line: nat, column: nat := "", 0, 0, 0;
    segments := [];
    Beginning(source, tokens, legend);
    for i := 0 to |tokens|
      invariant forall k | 0 <= k < i :: ValidToken(source, tokens, legend, k)
      invariant Reached(source, tokens, i, line, column, previousEnd)
      invariant Covered(source, tokens, legend, i, previousEnd, segments)
      invariant output == Painted(segments)
    {
      var token := tokens[i];
      Judged(source, tokens, legend, i, line, column, previousEnd);
      ghost var l, c := line, column;
      line := line + token.deltaLine;
      if line >= 0x1_0000_0000 { return None, []; }
      column := if token.deltaLine == 0 then column + token.deltaStart else token.deltaStart;
      if column >= 0x1_0000_0000 || column + token.length >= 0x1_0000_0000 { return None, []; }
      OffsetIs(source, lines, line, column);
      OffsetIs(source, lines, line, column + token.length);
      var start, end := Offset(lines, line, column), Offset(lines, line, column + token.length);
      if start == None || end == None { return None, []; }
      if token.length == 0 || start.value < previousEnd { return None, []; }
      if token.tokenType >= |legend| { return None, []; }
      var before, text := Slice(source, previousEnd, start.value), Slice(source, start.value, end.value);
      OneToken(source, tokens, legend, i, l, c, previousEnd, segments, before, text);
      var style := Palette(legend[token.tokenType]);
      PaintedPair(segments, before.value, style, text.value);
      output := output + before.value;
      if style.Some? {
        output := output + style.value;
        output := output + text.value;
        output := output + RESET;
      } else {
        output := output + text.value;
      }
      segments := segments + [Plain(before.value)] + [Coloured(style, text.value)];
      previousEnd := end.value;
    }
    var rest := Slice(source, previousEnd, ByteLen(source));
    Ending(source, tokens, legend, previousEnd, segments, rest);
    segments := segments + [Plain(rest.value)];
    return Some(output + rest.value), segments;
  }

  lemma Beginning(source: string, tokens: seq<Token>, legend: seq<string>)
    ensures Reached(source, tokens, 0, 0, 0, 0) && Covered(source, tokens, legend, 0, 0, []) && Painted([]) == ""
  {
    assert source[..0] == [];
    IndexOfByteIs(source, 0);
  }

  lemma Ending(source: string, tokens: seq<Token>, legend: seq<string>, previousEnd: nat, segments: seq<Segment>,
               rest: Option<string>)
    requires Covered(source, tokens, legend, |tokens|, previousEnd, segments)
    requires rest == Slice(source, previousEnd, ByteLen(source))
    ensures rest.Some?
    ensures var all := segments + [Plain(rest.value)];
            && Painted(all) == Painted(segments) + rest.value && Written(all) == source
            && |all| == 2 * |tokens| + 1 && PlainBetween(all)
            && Segmented(source, tokens, legend, |tokens|, all) && Placed(source, tokens, |tokens|, all)
  {
    hide IndexOfByte, Painted, Written, TokenSegment, TokenStart, Slice, PlainBetween, Placed;
    Remainder(source, previousEnd);
    PlacedStays(source, tokens, |tokens|, segments, Plain(rest.value));
    PlainNext(segments, Plain(rest.value), Plain(rest.value));
    Segment1(segments, Plain(rest.value));
    forall i | 0 <= i < |tokens|
      ensures TokenSegment(source, tokens, legend, i, (segments + [Plain(rest.value)])[2 * i + 1])
    {
      assert (segments + [Plain(rest.value)])[2 * i + 1] == segments[2 * i + 1];
    }
  }

  lemma PaintedPair(segments: seq<Segment>, before: string, style: Option<string>, text: string)
    ensures Painted(segments + [Plain(before)] + [Coloured(style, text)])
         == if style.Some? then Painted(segments) + before + style.value + text + RESET
           else Painted(segments) + before + text
  {
    hide Painted, Written;
    Segment1(segments, Plain(before));
    Segment1(segments + [Plain(before)], Coloured(style, text));
    if style.Some? { Regroup(Painted(segments) + before, style.value, text, RESET); }
  }

  lemma Regroup(a: string, b: string, c: string, d: string)
    ensures a + (b + c + d) == a + b + c + d
  {
  }

  lemma CutsAgree(source: string, a: nat, b: nat, c: nat)
    requires IndexOfByte(source, a).Some? && IndexOfByte(source, b).Some? && IndexOfByte(source, c).Some?
    requires a <= b && IndexOfByte(source, b).value < IndexOfByte(source, c).value
    ensures Slice(source, a, b).Some? && Slice(source, b, c).Some? && Slice(source, b, c).value != []
    ensures source[..IndexOfByte(source, c).value]
         == source[..IndexOfByte(source, a).value] + Slice(source, a, b).value + Slice(source, b, c).value
  {
    hide IndexOfByte;
    var i, j := IndexOfByte(source, a).value, IndexOfByte(source, b).value;
    if j < i { PrefixLengths(source, j, i); }
  }

  lemma Remainder(source: string, a: nat)
    requires IndexOfByte(source, a).Some?
    ensures Slice(source, a, ByteLen(source)).Some?
    ensures source == source[..IndexOfByte(source, a).value] + Slice(source, a, ByteLen(source)).value
  {
    hide IndexOfByte;
    assert source[..|source|] == source;
    IndexOfByteIs(source, |source|);
  }
}
