/** The text of a range, cut out of the cached lines of a file. */
module SourceCache {
  import opened Json
  import opened Text
  import opened Render

  const UNAVAILABLE: string := "<line unavailable>"

  // ----- the cached lines

  function Stripped(lines: seq<string>): (r: seq<string>)
    ensures |r| == |lines| && forall k | 0 <= k < |lines| :: r[k] == StripReturn(lines[k])
  {
    if lines == [] then [] else Stripped(lines[..|lines| - 1]) + [StripReturn(lines[|lines| - 1])]
  }

  /** What the cache keeps of a file: its lines without carriage returns. */
  function CachedLines(contents: string): (lines: seq<string>)
    ensures lines != [] && forall line | line in lines :: OneLine(line)
  {
    var lines := Stripped(Lines(contents));
    StrippedLines(Lines(contents));
    lines
  }

  lemma StrippedLines(lines: seq<string>)
    requires forall line | line in lines :: OneLine(line)
    ensures forall line | line in Stripped(lines) :: OneLine(line)
  {
    forall k | 0 <= k < |lines| ensures OneLine(StripReturn(lines[k])) {
      assert OneLine(lines[k]);
      forall i | 0 <= i < |StripReturn(lines[k])| ensures StripReturn(lines[k])[i] != '\n' {
        assert lines[k][i] in lines[k];
      }
    }
  }

  /** The text those lines stand for: the file with its line endings made uniform. */
  function Normalized(contents: string): string {
    var lines := CachedLines(contents);
    Head(lines, |lines| - 1) + lines[|lines| - 1]
  }

  lemma NormalizedLines(contents: string)
    ensures Lines(Normalized(contents)) == CachedLines(contents)
  {
    hide Lines, CachedLines, Head;
    var lines := CachedLines(contents);
    LinesOf(lines, |lines| - 1, lines[|lines| - 1]);
    assert lines[..|lines| - 1] + [lines[|lines| - 1]] == lines;
  }

  /** Without carriage returns it is the file itself. */
  lemma NothingToNormalize(contents: string)
    requires '\r' !in contents
    ensures Normalized(contents) == contents
  {
    hide Lines, Head;
    var lines := Lines(contents);
    LinesJoin(contents);
    forall k | 0 <= k < |lines| ensures StripReturn(lines[k]) == lines[k] {
      HeadPrefix(contents, k);
      var h := |Head(lines, k)|;
      if lines[k] != [] { assert lines[k][|lines[k]| - 1] == contents[h + |lines[k]| - 1]; }
    }
    assert CachedLines(contents) == lines;
  }

  /** The text of lines that all end in a carriage return and a line feed, but for the last. */
  function WithReturns(lines: seq<string>): string
    requires lines != []
  {
    if |lines| == 1 then lines[0] else WithReturns(lines[..|lines| - 1]) + "\r\n" + lines[|lines| - 1]
  }

  predicate Plain(line: string) { '\n' !in line && '\r' !in line }

  lemma {:induction false} ReturnLines(lines: seq<string>)
    requires lines != [] && forall line | line in lines :: Plain(line)
    ensures Lines(WithReturns(lines)) == Returned(lines[..|lines| - 1]) + [lines[|lines| - 1]]
  {
    hide Lines, Head;
    var front, last := lines[..|lines| - 1], lines[|lines| - 1];
    assert last in lines;
    if front == [] {
      LinesOf([], 0, last);
      assert Head([], 0) + last == last by { NoHead(last); }
      assert [][..0] + [last] == [last];
    } else {
      forall line | line in front ensures Plain(line) { assert line in lines; }
      ReturnLines(front);
      var rest := Lines(WithReturns(front));
      LineAdded(WithReturns(front), front[|front| - 1], last);
      assert rest[..|rest| - 1] == Returned(front[..|front| - 1]);
    }
  }

  lemma NoHead(last: string)
    ensures Head([], 0) + last == last
  {
  }

  function Returned(lines: seq<string>): (r: seq<string>)
    ensures |r| == |lines|
  {
    if lines == [] then [] else Returned(lines[..|lines| - 1]) + [lines[|lines| - 1] + "\r"]
  }

  /** A carriage return, a line feed and one more line. */
  lemma LineAdded(s: string, x: string, last: string)
    requires Plain(last) && Lines(s)[|Lines(s)| - 1] == x
    ensures Lines(s + "\r\n" + last) == Lines(s)[..|Lines(s)| - 1] + [x + "\r"] + [last]
  {
    hide Lines, Head;
    var before := Lines(s);
    var n := |before| - 1;
    LinesJoin(s);
    var all := before[..n] + [x + "\r"];
    assert OneLine(x + "\r") by {
      assert x in before;
      OneLineAdd(x, '\r');
    }
    HeadSame(before, all, n);
    HeadStep(all, n);
    assert Head(all, n + 1) + last == s + "\r\n" + last;
    LinesOf(all, n + 1, last);
    assert all[..n + 1] == all;
  }

  /** A file with such line endings is cached as its lines, so it counts as the same text with line
      feeds alone. */
  lemma ReturnsDropped(lines: seq<string>)
    requires lines != [] && forall line | line in lines :: Plain(line)
    ensures CachedLines(WithReturns(lines)) == lines
    ensures forall line | line in CachedLines(WithReturns(lines)) :: '\r' !in line
  {
    hide Lines;
    ReturnLines(lines);
    var front, last := lines[..|lines| - 1], lines[|lines| - 1];
    var all := Returned(front) + [last];
    forall k | 0 <= k < |lines| ensures StripReturn(all[k]) == lines[k] {
      assert lines[k] in lines;
      if k < |front| {
        ReturnedAt(front, k);
        assert lines[k] == front[k];
        assert (front[k] + "\r")[..|front[k]|] == front[k];
      } else if lines[k] != [] {
        assert lines[k][|lines[k]| - 1] in lines[k];
      }
    }
    assert CachedLines(WithReturns(lines)) == lines;
  }

  lemma {:induction false} ReturnedAt(lines: seq<string>, k: nat)
    requires k < |lines|
    ensures Returned(lines)[k] == lines[k] + "\r"
  {
    if k < |lines| - 1 { ReturnedAt(lines[..|lines| - 1], k); }
  }

  // ----- ranges

  /** The bytes of a text between the offsets of two positions. */
  function Between(t: string, start: Position, end: Position): Option<string> {
    match (PositionToOffset(t, start), PositionToOffset(t, end))
    case (Some(a), Some(b)) => Slice(t, a, b)
    case _ => None
  }

  function Shown(text: Option<string>): string {
    if text.Some? then text.value else UNAVAILABLE
  }

  /** The piece of one line that a range takes. */
  function Chunk(lines: seq<string>, start: Position, end: Position, k: nat): Option<string>
    requires k < |lines|
  {
    var a := if k == start.line then ByteOffset(lines[k], start.column) else Some(0);
    var b := if k == end.line then ByteOffset(lines[k], end.column) else Some(ByteLen(lines[k]));
    if a.Some? && b.Some? then Slice(lines[k], a.value, b.value) else None
  }

  function Join(chunks: seq<string>): string {
    if chunks == [] then ""
    else if |chunks| == 1 then chunks[0]
    else Join(chunks[..|chunks| - 1]) + "\n" + chunks[|chunks| - 1]
  }

  lemma Join1(chunks: seq<string>, x: string)
    requires chunks != []
    ensures Join(chunks + [x]) == Join(chunks) + "\n" + x
  {
    assert (chunks + [x])[..|chunks|] == chunks;
  }

  /** A chunk in terms of characters. */
  lemma ChunkIs(lines: seq<string>, start: Position, end: Position, k: nat)
    requires k < |lines|
    ensures var a := if k == start.line then IndexOfUnits(lines[k], start.column) else Some(0);
            var b := if k == end.line then IndexOfUnits(lines[k], end.column) else Some(|lines[k]|);
            Chunk(lines, start, end, k)
            == if a.Some? && b.Some? && a.value <= b.value then Some(lines[k][a.value..b.value]) else None
  {
    hide IndexOfUnits, IndexOfByte, ByteLen;
    var line := lines[k];
    assert line[..0] == [] && line[..|line|] == line;
    NoBytes();
    IndexOfByteIs(line, 0);
    IndexOfByteIs(line, |line|);
    var a, b := IndexOfUnits(line, start.column), IndexOfUnits(line, end.column);
    if a.Some? { IndexOfByteIs(line, a.value); }
    if b.Some? { IndexOfByteIs(line, b.value); }
  }

  lemma NoBytes()
    ensures ByteLen([]) == 0
  {
  }

  /** Lines `k` up to but not including `l`, from character `i` of the first, with line feeds. */
  function Rows(lines: seq<string>, k: nat, i: nat, l: nat): string
    requires k <= l <= |lines| && (k < l ==> i <= |lines[k]|)
  {
    if l == k then "" else Rows(lines, k, i, l - 1) + (if l - 1 == k then lines[k][i..] else lines[l - 1]) + "\n"
  }

  lemma {:induction false} RowsFill(lines: seq<string>, k: nat, i: nat, l: nat)
    requires k < l <= |lines| && i <= |lines[k]|
    ensures Head(lines, k) + lines[k][..i] + Rows(lines, k, i, l) == Head(lines, l)
    decreases l
  {
    hide Rows, Head;
    RowNext(lines, k, i, l - 1);
    HeadStep(lines, l - 1);
    if l == k + 1 {
      Rejoin(Head(lines, k), lines[k], i);
    } else {
      RowsFill(lines, k, i, l - 1);
      Regroup(Head(lines, k) + lines[k][..i], Rows(lines, k, i, l - 1), lines[l - 1], "\n");
    }
  }

  lemma Rejoin(head: string, line: string, i: nat)
    requires i <= |line|
    ensures head + line[..i] + (line[i..] + "\n") == head + line + "\n"
  {
    assert line == line[..i] + line[i..];
  }

  /** What the range holds, character by character. */
  lemma RangeHolds(t: string, k: nat, i: nat, l: nat, j: nat)
    requires k <= l < |Lines(t)| && i <= |Lines(t)[k]| && j <= |Lines(t)[l]| && (k == l ==> i <= j)
    ensures var lines := Lines(t);
            var a, b := IndexAt(t, k, i), IndexAt(t, l, j);
            && a <= b <= |t|
            && t[a..b] == if k == l then lines[k][i..j] else Rows(lines, k, i, l) + lines[l][..j]
  {
    hide Lines, Head, Rows;
    var lines := Lines(t);
    var a, b := IndexAt(t, k, i), IndexAt(t, l, j);
    IndexAtIs(t, k, i);
    IndexAtIs(t, l, j);
    if k == l {
      assert t[..b] == t[..a] + lines[k][i..j] by {
        assert lines[k][..j] == lines[k][..i] + lines[k][i..j];
      }
      Cut(t, a, b, lines[k][i..j]);
    } else {
      RowsFill(lines, k, i, l);
      var rows := Rows(lines, k, i, l);
      assert t[..b] == (t[..a] + rows) + lines[l][..j] == t[..a] + (rows + lines[l][..j]);
      Cut(t, a, b, Rows(lines, k, i, l) + lines[l][..j]);
    }
  }

  lemma Cut(t: string, a: nat, b: nat, x: string)
    requires a <= |t| && b <= |t| && t[..b] == t[..a] + x
    ensures a <= b && t[a..b] == x
  {
    assert b == a + |x|;
    assert t[a..b] == t[..b][a..];
  }

  /** The characters that a pair of positions cuts out of a text, by lines. */
  lemma BetweenIs(t: string, start: Position, end: Position)
    ensures var lines := Lines(t);
            Between(t, start, end)
            == if start.line >= |lines| || end.line >= |lines| then None
               else Cells(lines, start.line, IndexOfUnits(lines[start.line], start.column),
                          end.line, IndexOfUnits(lines[end.line], end.column))
  {
    hide Lines, PositionToOffset, IndexOfUnits, Rows, IndexOfByte, ByteLen;
    PositionInLine(t, start.line, start.column);
    PositionInLine(t, end.line, end.column);
    var lines := Lines(t);
    if start.line < |lines| && end.line < |lines| {
      var x, y := IndexOfUnits(lines[start.line], start.column), IndexOfUnits(lines[end.line], end.column);
      if x.Some? && y.Some? {
        OffsetAt(t, start.line, x.value);
        OffsetAt(t, end.line, y.value);
        CellsIs(t, start.line, x.value, end.line, y.value);
      }
    }
  }

  function Cells(lines: seq<string>, k: nat, i: Option<nat>, l: nat, j: Option<nat>): Option<string>
    requires k < |lines| && l < |lines|
    requires (i.Some? ==> i.value <= |lines[k]|) && (j.Some? ==> j.value <= |lines[l]|)
  {
    if i == None || j == None || k > l then None
    else if k == l then (if i.value <= j.value then Some(lines[k][i.value..j.value]) else None)
    else Some(Rows(lines, k, i.value, l) + lines[l][..j.value])
  }

  lemma OffsetAt(t: string, k: nat, i: nat)
    requires k < |Lines(t)| && i <= |Lines(t)[k]|
    ensures IndexAt(t, k, i) <= |t|
    ensures ByteLen(Head(Lines(t), k)) + ByteLen(Lines(t)[k][..i]) == ByteLen(t[..IndexAt(t, k, i)])
  {
    hide Lines, Head, ByteLen;
    IndexAtIs(t, k, i);
    LengthsAdd(Head(Lines(t), k), Lines(t)[k][..i]);
  }

  lemma CellsIs(t: string, k: nat, i: nat, l: nat, j: nat)
    requires k < |Lines(t)| && i <= |Lines(t)[k]| && l < |Lines(t)| && j <= |Lines(t)[l]|
    ensures IndexAt(t, k, i) <= |t| && IndexAt(t, l, j) <= |t|
    ensures Slice(t, ByteLen(t[..IndexAt(t, k, i)]), ByteLen(t[..IndexAt(t, l, j)]))
            == Cells(Lines(t), k, Some(i), l, Some(j))
  {
    hide Lines, Head, ByteLen, IndexOfByte, Rows;
    var a, b := IndexAt(t, k, i), IndexAt(t, l, j);
    IndexAtIs(t, k, i);
    IndexAtIs(t, l, j);
    IndexOfByteIs(t, a);
    IndexOfByteIs(t, b);
    if k < l || (k == l && i <= j) {
      RangeHolds(t, k, i, l, j);
    } else if l < k {
      HeadGrows(Lines(t), l, k);
    }
  }

  /** The loop over the lines of a range. */
  method Collect(lines: seq<string>, start: Position, end: Position) returns (r: Option<string>)
    requires start.line <= end.line < |lines|
    ensures r == Cells(lines, start.line, IndexOfUnits(lines[start.line], start.column),
                       end.line, IndexOfUnits(lines[end.line], end.column))
  {
    hide IndexOfUnits, Chunk, Rows, Join;
    var chunks: seq<string> := [];
    ghost var i := IndexOfUnits(lines[start.line], start.column);
    for k := start.line to end.line + 1
      invariant |chunks| == k - start.line
      invariant k > start.line ==> i.Some?
      invariant start.line < k <= end.line ==> Join(chunks) + "\n" == Rows(lines, start.line, i.value, k)
      invariant k > end.line ==>
        Some(Join(chunks)) == Cells(lines, start.line, i, end.line, IndexOfUnits(lines[end.line], end.column))
    {
      var chunk := Chunk(lines, start, end, k);
      ChunkIs(lines, start, end, k);
      if chunk == None { return None; }
      if k > start.line { Join1(chunks, chunk.value); } else { JoinOne(chunk.value); }
      if k < end.line { RowNext(lines, start.line, i.value, k); }
      chunks := chunks + [chunk.value];
    }
    return Some(Join(chunks));
  }

  lemma JoinOne(x: string)
    ensures Join([] + [x]) == x
  {
    assert [] + [x] == [x];
  }

  lemma RowNext(lines: seq<string>, k: nat, i: nat, l: nat)
    requires k <= l < |lines| && i <= |lines[k]|
    ensures Rows(lines, k, i, l + 1) == if l == k then lines[k][i..] + "\n" else Rows(lines, k, i, l) + lines[l] + "\n"
  {
    assert Rows(lines, k, i, k) == "";
  }

  /** `range_content`: for every range, valid or not, the answer is what the byte offsets of its
      two positions cut out of the normalized file. */
  method RangeContent(contents: Option<string>, start: Position, end: Position) returns (r: string)
    ensures r == match contents
                 case None => UNAVAILABLE
                 case Some(text) => Shown(Between(Normalized(text), start, end))
  {
    hide CachedLines, Cells, Between, Normalized, Lines, IndexOfUnits;
    var lines := if contents.Some? then CachedLines(contents.value) else [];
    if contents.Some? {
      NormalizedLines(contents.value);
      BetweenIs(Normalized(contents.value), start, end);
    }
    if start.line > end.line || end.line >= |lines| {
      if end.line < start.line < |lines| { NotBackwards(lines, start, end); }
      return UNAVAILABLE;
    }
    var text := Collect(lines, start, end);
    return Shown(text);
  }

  lemma NotBackwards(lines: seq<string>, start: Position, end: Position)
    requires end.line < start.line < |lines|
    ensures Cells(lines, start.line, IndexOfUnits(lines[start.line], start.column),
                  end.line, IndexOfUnits(lines[end.line], end.column)) == None
  {
  }

  /** On a file without carriage returns, a range between two boundaries is the text between them. */
  lemma RangeOfBoundaries(contents: string, i: nat, j: nat)
    requires '\r' !in contents && i <= j <= |contents|
    ensures Between(Normalized(contents), PositionAt(contents, i), PositionAt(contents, j)) == Some(contents[i..j])
  {
    hide PositionToOffset, PositionAt, Normalized, Slice, ByteLen;
    NothingToNormalize(contents);
    PositionToOffsetIs(contents, PositionAt(contents, i));
    PositionToOffsetIs(contents, PositionAt(contents, j));
    SliceIs(contents, i, j);
  }
}
