/** Source text and its coordinates: characters, UTF-8 byte offsets and UTF-16 columns.

    A source string is a sequence of characters (Unicode scalar values); a byte offset is the
    UTF-8 length of the text before it. */
module Text {
  import opened Json

  type u32 = x: int | 0 <= x < 0x1_0000_0000

  function Utf8Len(c: char): (n: nat)
    ensures 1 <= n <= 4
  {
    if c < '\U{80}' then 1 else if c < '\U{800}' then 2 else if c < '\U{10000}' then 3 else 4
  }

  function Utf16Len(c: char): (n: nat)
    ensures 1 <= n <= 2
  {
    if c < '\U{10000}' then 1 else 2
  }

  function ByteLen(s: string): nat {
    if s == [] then 0 else ByteLen(s[..|s| - 1]) + Utf8Len(s[|s| - 1])
  }

  function Units(s: string): nat {
    if s == [] then 0 else Units(s[..|s| - 1]) + Utf16Len(s[|s| - 1])
  }

  lemma {:induction false} LengthsAdd(a: string, b: string)
    ensures ByteLen(a + b) == ByteLen(a) + ByteLen(b)
    ensures Units(a + b) == Units(a) + Units(b)
  {
    if b == [] {
      assert a + b == a;
    } else {
      LengthsAdd(a, b[..|b| - 1]);
      assert (a + b)[..|a + b| - 1] == a + b[..|b| - 1];
    }
  }

  lemma PrefixLengths(s: string, i: nat, j: nat)
    requires i <= j <= |s|
    ensures ByteLen(s[..j]) == ByteLen(s[..i]) + ByteLen(s[i..j])
    ensures Units(s[..j]) == Units(s[..i]) + Units(s[i..j])
    ensures i < j ==> ByteLen(s[..i]) < ByteLen(s[..j]) && Units(s[..i]) < Units(s[..j])
  {
    assert s[..j] == s[..i] + s[i..j];
    LengthsAdd(s[..i], s[i..j]);
    if i < j { assert s[i..j] != []; }
  }

  // ----- byte offsets

  /** The character index of a byte offset, if the offset is a character boundary. */
  function IndexOfByte(s: string, b: nat): (r: Option<nat>)
    ensures r.Some? ==> r.value <= |s| && ByteLen(s[..r.value]) == b
    ensures r == None ==> forall i | 0 <= i <= |s| :: ByteLen(s[..i]) != b
  {
    assert s[..|s|] == s;
    if ByteLen(s) == b then Some(|s|)
    else if s == [] then None
    else
      var front := s[..|s| - 1];
      assert forall i | 0 <= i <= |front| :: front[..i] == s[..i];
      IndexOfByte(front, b)
  }

  lemma IndexOfByteIs(s: string, i: nat)
    requires i <= |s|
    ensures IndexOfByte(s, ByteLen(s[..i])) == Some(i)
  {
    var r := IndexOfByte(s, ByteLen(s[..i]));
    if r.Some? && r.value < i { PrefixLengths(s, r.value, i); }
    if r.Some? && i < r.value { PrefixLengths(s, i, r.value); }
  }

  /** `str::get` on a byte range. */
  function Slice(s: string, a: nat, b: nat): Option<string> {
    var i, j := IndexOfByte(s, a), IndexOfByte(s, b);
    if i.Some? && j.Some? && i.value <= j.value then Some(s[i.value..j.value]) else None
  }

  lemma SliceIs(s: string, i: nat, j: nat)
    requires i <= j <= |s|
    ensures Slice(s, ByteLen(s[..i]), ByteLen(s[..j])) == Some(s[i..j])
  {
    IndexOfByteIs(s, i);
    IndexOfByteIs(s, j);
  }

  // ----- one line

  /** The character index at which a text has a number of UTF-16 units before it. */
  function IndexOfUnits(s: string, column: nat): (r: Option<nat>)
    ensures r.Some? ==> r.value <= |s| && Units(s[..r.value]) == column
    ensures r == None ==> forall i | 0 <= i <= |s| :: Units(s[..i]) != column
  {
    assert s[..|s|] == s;
    if Units(s) == column then Some(|s|)
    else if s == [] then None
    else
      var front := s[..|s| - 1];
      assert forall i | 0 <= i <= |front| :: front[..i] == s[..i];
      IndexOfUnits(front, column)
  }

  lemma IndexOfUnitsIs(s: string, i: nat)
    requires i <= |s|
    ensures IndexOfUnits(s, Units(s[..i])) == Some(i)
  {
    var r := IndexOfUnits(s, Units(s[..i]));
    if r.Some? && r.value < i { PrefixLengths(s, r.value, i); }
    if r.Some? && i < r.value { PrefixLengths(s, i, r.value); }
  }

  /** `SourceLine::byte_offset`. */
  function ByteOffset(line: string, column: nat): Option<nat> {
    var i := IndexOfUnits(line, column);
    if i.Some? then Some(ByteLen(line[..i.value])) else None
  }

  /** The loop of `offset_for_units`: it walks over the characters, counting units, and gives up
      as soon as it is past the column. */
  method OffsetForUnits(line: string, column: nat) returns (r: Option<nat>)
    ensures r == ByteOffset(line, column)
  {
    var units, bytes := 0, 0;
    for k := 0 to |line|
      invariant units == Units(line[..k]) && bytes == ByteLen(line[..k])
      invariant units <= column
      invariant forall i | 0 <= i < k :: Units(line[..i]) != column
    {
      if units == column {
        IndexOfUnitsIs(line, k);
        return Some(bytes);
      }
      assert line[..k + 1][..k] == line[..k];
      units := units + Utf16Len(line[k]);
      bytes := bytes + Utf8Len(line[k]);
      if units > column {
        forall i | 0 <= i <= |line| ensures Units(line[..i]) != column {
          if i > k + 1 { PrefixLengths(line, k + 1, i); }
        }
        return None;
      }
    }
    assert line[..|line|] == line;
    if units == column {
      IndexOfUnitsIs(line, |line|);
      return Some(bytes);
    }
    return None;
  }

  /** `SourceLine::utf16_column`. */
  function Utf16Column(line: string, offset: nat): Option<u32> {
    var i := IndexOfByte(line, offset);
    if i.Some? && Units(line[..i.value]) < 0x1_0000_0000 then Some(Units(line[..i.value])) else None
  }

  /** `SourceLine::character_offset`. */
  function CharacterOffset(line: string, column: nat): Option<nat> {
    if column <= |line| then Some(ByteLen(line[..column])) else None
  }

  /** `SourceLine::character_column`, counted from one. */
  function CharacterColumn(line: string, column: nat): Option<nat> {
    match ByteOffset(line, column)
    case None => None
    case Some(b) => var i := IndexOfByte(line, b); if i.Some? then Some(i.value + 1) else None
  }

  /** Columns and offsets of one line determine each other: a column is accepted exactly when it
      is the number of UTF-16 units before some character boundary, so not inside a surrogate
      pair, and then both conversions lead back. */
  lemma ColumnsAndOffsets(line: string, column: u32, offset: nat)
    ensures ByteOffset(line, column) == Some(offset) <==> Utf16Column(line, offset) == Some(column)
    ensures ByteOffset(line, column).Some? <==> exists i | 0 <= i <= |line| :: Units(line[..i]) == column
  {
    hide IndexOfUnits, IndexOfByte, Units, ByteLen;
    var i, j := IndexOfUnits(line, column), IndexOfByte(line, offset);
    if i.Some? { IndexOfByteIs(line, i.value); }
    if j.Some? { IndexOfUnitsIs(line, j.value); }
  }

  /** Counting characters and counting UTF-16 units name the same boundaries. */
  lemma CharactersAndOffsets(line: string, column: nat)
    ensures CharacterColumn(line, column).Some? ==>
              CharacterOffset(line, CharacterColumn(line, column).value - 1) == ByteOffset(line, column)
    ensures CharacterColumn(line, column).Some? <==> ByteOffset(line, column).Some?
    ensures column <= |line| ==>
              CharacterColumn(line, Units(line[..column])) == Some(column + 1)
  {
    hide IndexOfUnits, IndexOfByte, Units, ByteLen;
    var i := IndexOfUnits(line, column);
    if i.Some? { IndexOfByteIs(line, i.value); }
    if column <= |line| { IndexOfUnitsIs(line, column); IndexOfByteIs(line, column); }
  }

  // ----- lines

  predicate OneLine(s: string) { '\n' !in s }

  /** `split('\n')`. */
  function Lines(s: string): (lines: seq<string>)
    ensures lines != []
    ensures forall line | line in lines :: OneLine(line)
  {
    if s == [] then [""]
    else
      AddChar(Lines(s[..|s| - 1]), s[|s| - 1])
  }

  /** What one more character does to the lines of a text. */
  function AddChar(before: seq<string>, c: char): (lines: seq<string>)
    requires before != [] && forall line | line in before :: OneLine(line)
    ensures lines != [] && forall line | line in lines :: OneLine(line)
  {
    if c == '\n' then before + [""]
    else
      var last := before[|before| - 1];
      OneLineAdd(last, c);
      before[..|before| - 1] + [last + [c]]
  }

  lemma OneLineAdd(s: string, c: char)
    requires OneLine(s) && c != '\n'
    ensures OneLine(s + [c])
  {
    forall k | 0 <= k < |s + [c]| ensures (s + [c])[k] != '\n' {
      if k < |s| { assert s[k] in s; }
    }
  }

  lemma LinesAdd(s: string, c: char)
    ensures Lines(s + [c]) == AddChar(Lines(s), c)
  {
    assert (s + [c])[..|s|] == s;
  }

  /** The text of the first `k` lines with their line feeds. */
  function Head(lines: seq<string>, k: nat): string
    requires k <= |lines|
  {
    if k == 0 then "" else Head(lines, k - 1) + lines[k - 1] + "\n"
  }

  lemma {:induction false} HeadSame(a: seq<string>, b: seq<string>, k: nat)
    requires k <= |a| && k <= |b| && a[..k] == b[..k]
    ensures Head(a, k) == Head(b, k)
  {
    if k > 0 {
      assert a[k - 1] == a[..k][k - 1] == b[..k][k - 1] == b[k - 1];
      assert a[..k - 1] == a[..k][..k - 1] == b[..k - 1];
      HeadSame(a, b, k - 1);
    }
  }

  lemma {:induction false} LinesJoin(s: string)
    ensures var lines := Lines(s);
            s == Head(lines, |lines| - 1) + lines[|lines| - 1]
  {
    hide Lines;
    if s == [] {
      NoLines();
    } else {
      var front, c := s[..|s| - 1], s[|s| - 1];
      LinesJoin(front);
      LinesAdd(front, c);
      assert s == front + [c];
      AddJoins(Lines(front), c);
    }
  }

  lemma AddJoins(before: seq<string>, c: char)
    requires before != [] && forall line | line in before :: OneLine(line)
    ensures var lines := AddChar(before, c);
            Head(lines, |lines| - 1) + lines[|lines| - 1] == Head(before, |before| - 1) + before[|before| - 1] + [c]
  {
    var lines, n := AddChar(before, c), |before| - 1;
    HeadSame(before, lines, n);
    if c == '\n' {
      assert lines[n] == before[n];
      assert Head(lines, n + 1) == Head(lines, n) + lines[n] + "\n";
    } else {
      assert lines[n] == before[n] + [c];
    }
  }

  /** The lines of a text that consists of whole lines and the beginning of one more. */
  lemma {:induction false} LinesOf(lines: seq<string>, k: nat, t: string)
    requires k <= |lines| && OneLine(t) && forall line | line in lines :: OneLine(line)
    ensures Lines(Head(lines, k) + t) == lines[..k] + [t]
    decreases k, |t|
  {
    hide Lines;
    if t != [] {
      var t', c := t[..|t| - 1], t[|t| - 1];
      LinesOf(lines, k, t');
      assert c in t;
      LinesAdd(Head(lines, k) + t', c);
      assert Head(lines, k) + t' + [c] == Head(lines, k) + t;
      assert t' + [c] == t;
    } else if k > 0 {
      LinesOf(lines, k - 1, lines[k - 1]);
      LinesAdd(Head(lines, k - 1) + lines[k - 1], '\n');
      assert Head(lines, k) + t == Head(lines, k - 1) + lines[k - 1] + ['\n'];
      assert lines[..k - 1] + [lines[k - 1]] == lines[..k];
    } else {
      NoLines();
      assert Head(lines, 0) + t == [] && lines[..0] == [];
    }
  }

  lemma NoLines()
    ensures Lines([]) == [""]
  {
  }

  /** The start of every line precedes the text. */
  lemma {:induction false} HeadPrefix(s: string, k: nat)
    requires k < |Lines(s)|
    ensures var lines := Lines(s);
            |Head(lines, k)| + |lines[k]| <= |s|
            && s[..|Head(lines, k)|] == Head(lines, k)
            && s[|Head(lines, k)|..|Head(lines, k)| + |lines[k]|] == lines[k]
    decreases |Lines(s)| - k
  {
    var lines := Lines(s);
    if k == |lines| - 1 {
      LinesJoin(s);
    } else {
      HeadPrefix(s, k + 1);
      var next := Head(lines, k + 1);
      assert next == Head(lines, k) + lines[k] + "\n";
      assert s[..|Head(lines, k)|] == s[..|next|][..|Head(lines, k)|];
      assert s[|Head(lines, k)|..|Head(lines, k)| + |lines[k]|]
          == s[..|next|][|Head(lines, k)|..|Head(lines, k)| + |lines[k]|];
    }
  }

  // ----- positions

  datatype Position = Position(line: nat, column: nat)

  predicate Before(p: Position, q: Position) {
    p.line < q.line || (p.line == q.line && p.column < q.column)
  }

  /** The position of a character index: the lines before it, and the UTF-16 units before it in
      its own line. */
  function PositionAt(s: string, i: nat): Position
    requires i <= |s|
  {
    var lines := Lines(s[..i]);
    Position(|lines| - 1, Units(lines[|lines| - 1]))
  }

  /** The character index of character `j` of line `k`. */
  function IndexAt(s: string, k: nat, j: nat): nat
    requires k < |Lines(s)|
  {
    |Head(Lines(s), k)| + j
  }

  /** Indexes and pairs of a line and a character in it name each other. */
  lemma IndexAtIs(s: string, k: nat, j: nat)
    requires k < |Lines(s)| && j <= |Lines(s)[k]|
    ensures var i := IndexAt(s, k, j);
            && i <= |s|
            && s[..i] == Head(Lines(s), k) + Lines(s)[k][..j]
            && Lines(s[..i]) == Lines(s)[..k] + [Lines(s)[k][..j]]
            && PositionAt(s, i) == Position(k, Units(Lines(s)[k][..j]))
  {
    hide Lines, Head, Units;
    var lines, i := Lines(s), IndexAt(s, k, j);
    HeadPrefix(s, k);
    var h := |Head(lines, k)|;
    assert s[..i] == s[..h] + s[h..h + |lines[k]|][..j];
    assert OneLine(lines[k]);
    LinesOf(lines, k, lines[k][..j]);
  }

  lemma {:induction false} IndexIsAt(s: string, i: nat) returns (k: nat, j: nat)
    requires i <= |s|
    ensures k < |Lines(s)| && j <= |Lines(s)[k]| && IndexAt(s, k, j) == i
    decreases |s|
  {
    if i == |s| {
      k, j := |Lines(s)| - 1, |Lines(s)[|Lines(s)| - 1]|;
      LinesJoin(s);
    } else {
      var front := s[..|s| - 1];
      k, j := IndexIsAt(front, i);
      HeadSame(Lines(front), Lines(s), k);
    }
  }

  // ----- the line index of the formatter

  /** `line_start_offsets`. */
  function LineStarts(s: string): seq<nat> {
    if s == [] then [0]
    else LineStarts(s[..|s| - 1]) + if s[|s| - 1] == '\n' then [ByteLen(s)] else []
  }

  lemma {:induction false} LineStartsAre(s: string)
    ensures |LineStarts(s)| == |Lines(s)|
    ensures forall k | 0 <= k < |Lines(s)| :: LineStarts(s)[k] == ByteLen(Head(Lines(s), k))
  {
    if s != [] {
      var front := s[..|s| - 1];
      LineStartsAre(front);
      var before, lines := Lines(front), Lines(s);
      forall k | 0 <= k < |lines| ensures LineStarts(s)[k] == ByteLen(Head(lines, k)) {
        if k < |before| { HeadSame(before, lines, k); }
        else {
          LinesJoin(s);
          assert s == Head(lines, k) + "";
          assert s == Head(lines, k);
        }
      }
    }
  }

  /** `position_to_offset`. */
  function PositionToOffset(s: string, position: Position): Option<nat> {
    var starts := LineStarts(s);
    if position.line >= |starts| then None
    else
      var start := starts[position.line];
      var end := if position.line + 1 < |starts|
                 then (if starts[position.line + 1] > 0 then starts[position.line + 1] - 1 else 0)
                 else ByteLen(s);
      match Slice(s, start, end)
      case None => None
      case Some(line) =>
        match ByteOffset(line, position.column)
        case None => None
        case Some(b) => Some(start + b)
  }

  lemma LineFeed(s: string)
    ensures ByteLen(s + "\n") == ByteLen(s) + 1
  {
    assert (s + "\n")[..|s|] == s;
  }

  lemma HeadStep(lines: seq<string>, k: nat)
    requires k < |lines|
    ensures Head(lines, k + 1) == Head(lines, k) + lines[k] + "\n"
  {
  }

  /** The line that the formatter cuts out of the source is the line of that number. */
  lemma LineCut(s: string, k: nat)
    requires k < |Lines(s)|
    ensures var starts := LineStarts(s);
            && |starts| == |Lines(s)|
            && starts[k] == ByteLen(Head(Lines(s), k))
            && (var end := if k + 1 < |starts| then (if starts[k + 1] > 0 then starts[k + 1] - 1 else 0)
                else ByteLen(s);
                Slice(s, starts[k], end) == Some(Lines(s)[k]))
  {
    hide IndexOfByte, LineStarts, Lines, ByteLen, Head, Slice;
    var lines := Lines(s);
    LineStartsAre(s);
    HeadPrefix(s, k);
    var h := |Head(lines, k)|;
    SliceIs(s, h, h + |lines[k]|);
    assert s[..h + |lines[k]|] == Head(lines, k) + lines[k];
    if k + 1 < |lines| {
      HeadStep(lines, k);
      LineFeed(Head(lines, k) + lines[k]);
    } else {
      LinesJoin(s);
    }
  }

  /** The conversion in terms of the lines. */
  lemma PositionInLine(s: string, k: nat, column: nat)
    ensures k >= |Lines(s)| ==> PositionToOffset(s, Position(k, column)) == None
    ensures k < |Lines(s)| ==>
              PositionToOffset(s, Position(k, column)) == After(Head(Lines(s), k), ByteOffset(Lines(s)[k], column))
  {
    hide Lines, LineStarts, Slice, ByteOffset, ByteLen, Head;
    LineStartsAre(s);
    if k < |Lines(s)| { LineCut(s, k); }
  }

  function After(head: string, b: Option<nat>): Option<nat> {
    if b.Some? then Some(ByteLen(head) + b.value) else None
  }

  /** A position is accepted exactly when it is the position of some character boundary, and then
      the result is that boundary: positions inside a surrogate pair, past the end of a line or
      past the last line are rejected. */
  lemma PositionToOffsetIs(s: string, position: Position)
    ensures PositionToOffset(s, position).Some? <==> exists i | 0 <= i <= |s| :: PositionAt(s, i) == position
    ensures forall i | 0 <= i <= |s| && PositionAt(s, i) == position ::
            PositionToOffset(s, position) == Some(ByteLen(s[..i]))
  {
    hide Lines, Head, Units, LineStarts, Slice, IndexOfUnits, ByteLen;
    var lines := Lines(s);
    LineStartsAre(s);
    if position.line < |lines| {
      LineCut(s, position.line);
      var line := lines[position.line];
      var r := IndexOfUnits(line, position.column);
      if r.Some? { IndexAtIs(s, position.line, r.value); }
    }
    forall i | 0 <= i <= |s| && PositionAt(s, i) == position
      ensures PositionToOffset(s, position) == Some(ByteLen(s[..i]))
    {
      var k, j := IndexIsAt(s, i);
      IndexAtIs(s, k, j);
      LineCut(s, k);
      IndexOfUnitsIs(lines[k], j);
      LengthsAdd(Head(lines, k), lines[k][..j]);
    }
  }

  /** Positions and byte offsets of boundaries grow together, so each boundary has one position
      and the conversion is strictly monotone. */
  lemma PositionsMonotone(s: string, i: nat, j: nat)
    requires i < j <= |s|
    ensures Before(PositionAt(s, i), PositionAt(s, j))
    ensures ByteLen(s[..i]) < ByteLen(s[..j])
  {
    hide Lines, Head, Units, ByteLen;
    PrefixLengths(s, i, j);
    var k, a := IndexIsAt(s, i);
    var l, b := IndexIsAt(s, j);
    IndexAtIs(s, k, a);
    IndexAtIs(s, l, b);
    if l < k { HeadGrows(Lines(s), l, k); }
    if k == l { PrefixLengths(Lines(s)[k], a, b); }
  }

  lemma {:induction false} HeadGrows(lines: seq<string>, k: nat, l: nat)
    requires k < l <= |lines|
    ensures |Head(lines, k)| + |lines[k]| < |Head(lines, l)|
    decreases l
  {
    if k + 1 < l { HeadGrows(lines, k, l - 1); }
  }
}
