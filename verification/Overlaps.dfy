/** Which lists of edits are refused: exactly those in which two edits overlap. */
module Overlaps {
  import opened Json
  import opened Text
  import opened Edits

  /** Two edits overlap if each begins before the end of the other; edits that touch do not, and neither
      do inserts at one position. */
  predicate Overlap(a: Span, b: Span) { a.start < b.end && b.start < a.end }

  /** No two edits of a list overlap. */
  predicate Apart(spans: seq<Span>) {
    forall i, j | 0 <= i < j < |spans| :: !Overlap(spans[i], spans[j])
  }

  predicate ApartFrom(spans: seq<Span>, x: Span) { forall y | y in spans :: !Overlap(y, x) }

  lemma ApartCons(x: Span, rest: seq<Span>)
    ensures Apart([x] + rest) <==> Apart(rest) && ApartFrom(rest, x)
  {
    var all := [x] + rest;
    if Apart(all) {
      forall i, j | 0 <= i < j < |rest| ensures !Overlap(rest[i], rest[j]) {
        assert all[i + 1] == rest[i] && all[j + 1] == rest[j];
      }
      forall y | y in rest ensures !Overlap(y, x) {
        var k :| 0 <= k < |rest| && rest[k] == y;
        assert all[0] == x && all[k + 1] == y;
      }
    }
    if Apart(rest) && ApartFrom(rest, x) {
      forall i, j | 0 <= i < j < |all| ensures !Overlap(all[i], all[j]) {
        assert all[j] == rest[j - 1] && rest[j - 1] in rest && (i > 0 ==> all[i] == rest[i - 1]);
      }
    }
  }

  lemma {:induction false} InsertApart(spans: seq<Span>, x: Span)
    ensures Apart(Insert(spans, x)) <==> Apart(spans) && ApartFrom(spans, x)
  {
    hide Apart;
    if spans == [] {
      ApartCons(x, []);
      assert [x] + [] == [x];
    } else {
      var first, rest := spans[0], spans[1..];
      assert spans == [first] + rest;
      ApartCons(first, rest);
      if NotBefore(first, x) {
        InsertApart(rest, x);
        ApartCons(first, Insert(rest, x));
        OneMoreApart(rest, Insert(rest, x), x, first);
        OneMoreApart(rest, spans, first, x);
      } else {
        ApartCons(x, spans);
      }
    }
  }

  lemma OneMoreApart(some: seq<Span>, more: seq<Span>, y: Span, x: Span)
    requires forall z :: z in more <==> z in some || z == y
    ensures ApartFrom(more, x) <==> ApartFrom(some, x) && !Overlap(y, x)
  {
    assert y in more;
  }

  lemma {:induction false} LastApart(spans: seq<Span>)
    requires spans != []
    ensures var front, last := spans[..|spans| - 1], spans[|spans| - 1];
            Apart(spans) <==> Apart(front) && ApartFrom(front, last)
  {
    var front, last := spans[..|spans| - 1], spans[|spans| - 1];
    if Apart(spans) {
      forall y | y in front ensures !Overlap(y, last) {
        var k :| 0 <= k < |front| && front[k] == y;
        assert spans[k] == y;
      }
    }
  }

  lemma {:induction false} SortApart(spans: seq<Span>)
    ensures Apart(Sort(spans)) <==> Apart(spans)
  {
    hide Apart, ApartFrom;
    if spans != [] {
      var front, last := spans[..|spans| - 1], spans[|spans| - 1];
      SortApart(front);
      InsertApart(Sort(front), last);
      LastApart(spans);
      SortSorts(front);
      SameApart(Sort(front), front, last);
    }
  }

  lemma SameApart(a: seq<Span>, b: seq<Span>, x: Span)
    requires multiset(a) == multiset(b)
    ensures ApartFrom(a, x) <==> ApartFrom(b, x)
  {
    forall y ensures y in a <==> y in b { assert y in multiset(a) <==> y in multiset(b); }
  }

  predicate Forward(spans: seq<Span>) { forall x | x in spans :: x.start <= x.end }

  /** In descending order it is enough to compare neighbours. */
  lemma {:induction false} NeighboursSuffice(spans: seq<Span>)
    requires Descending(spans) && Forward(spans)
    ensures Disjoint(spans) <==> Apart(spans)
  {
    if Disjoint(spans) {
      forall i, j | 0 <= i < j < |spans| ensures !Overlap(spans[i], spans[j]) { Chain(spans, i, j); }
    }
    if Apart(spans) {
      forall i | 0 <= i < |spans| - 1 ensures spans[i + 1].end <= spans[i].start {
        assert !Overlap(spans[i], spans[i + 1]) && NotBefore(spans[i], spans[i + 1]);
        assert spans[i] in spans && spans[i + 1] in spans;
      }
    }
  }

  lemma {:induction false} Chain(spans: seq<Span>, i: nat, j: nat)
    requires i < j < |spans| && Disjoint(spans) && Forward(spans)
    ensures spans[j].end <= spans[i].start
    decreases j
  {
    if i + 1 < j {
      Chain(spans, i, j - 1);
      assert spans[j - 1] in spans;
    }
    assert spans[j - 1 + 1].end <= spans[j - 1].start;
  }

  /** The edits are refused exactly if a range is invalid or two of them overlap, in whatever order they
      are listed. */
  lemma RefusedExactly(source: string, edits: seq<Edit>)
    requires SpansOf(source, edits).Some?
    ensures Disjoint(Sort(SpansOf(source, edits).value)) <==> Apart(SpansOf(source, edits).value)
  {
    hide SpansOf, Sort, Descending, Disjoint, Apart;
    var spans := SpansOf(source, edits).value;
    SortApart(spans);
    SortSorts(spans);
    SortedInText(source, edits);
    NeighboursSuffice(Sort(spans));
  }

  /** A range is valid exactly if its two positions are those of two characters of the text, the first of
      which does not come after the second; it then covers the text between them, which may be
      empty. */
  lemma RangeAccepted(source: string, edit: Edit)
    ensures SpanOf(source, edit).Some?
       <==> exists i, j | 0 <= i <= j <= |source| ::
              PositionAt(source, i) == edit.start && PositionAt(source, j) == edit.end
    ensures forall i, j | 0 <= i <= j <= |source| && PositionAt(source, i) == edit.start
            && PositionAt(source, j) == edit.end ::
              SpanOf(source, edit) == Some(Span(ByteLen(source[..i]), ByteLen(source[..j]), edit.newText))
  {
    hide PositionToOffset, PositionAt, ByteLen;
    PositionToOffsetIs(source, edit.start);
    PositionToOffsetIs(source, edit.end);
    forall i, j | 0 <= i <= j <= |source| && PositionAt(source, i) == edit.start && PositionAt(source, j) == edit.end
      ensures SpanOf(source, edit) == Some(Span(ByteLen(source[..i]), ByteLen(source[..j]), edit.newText))
    {
      InOrderOf(source, i, j);
    }
    if SpanOf(source, edit).Some? {
      var i :| 0 <= i <= |source| && PositionAt(source, i) == edit.start;
      var j :| 0 <= j <= |source| && PositionAt(source, j) == edit.end;
      if j < i { PrefixLengths(source, j, i); }
    }
  }

  lemma InOrderOf(source: string, i: nat, j: nat)
    requires i <= j <= |source|
    ensures ByteLen(source[..i]) <= ByteLen(source[..j])
  {
    PrefixLengths(source, i, j);
  }
}
