/** Applying the text edits of a formatting response. */
module Edits {
  import opened Json
  import opened Text

  datatype Edit = Edit(start: Position, end: Position, newText: string)

  /** An edit whose range was turned into byte offsets. */
  datatype Span = Span(start: nat, end: nat, newText: string)

  // ----- from ranges to spans

  function SpanOf(source: string, edit: Edit): Option<Span> {
    var start, end := PositionToOffset(source, edit.start), PositionToOffset(source, edit.end);
    if start.Some? && end.Some? && start.value <= end.value
    then Some(Span(start.value, end.value, edit.newText)) else None
  }

  function SpansOf(source: string, edits: seq<Edit>): Option<seq<Span>> {
    if edits == [] then Some([])
    else
      var before, last := SpansOf(source, edits[..|edits| - 1]), SpanOf(source, edits[|edits| - 1]);
      if before.Some? && last.Some? then Some(before.value + [last.value]) else None
  }

  predicate Boundary(s: string, b: nat) { IndexOfByte(s, b).Some? }

  predicate InText(s: string, span: Span) {
    span.start <= span.end && Boundary(s, span.start) && Boundary(s, span.end)
  }

  lemma SpanInText(source: string, edit: Edit)
    ensures SpanOf(source, edit).Some? ==> InText(source, SpanOf(source, edit).value)
  {
    hide PositionToOffset, PositionAt, IndexOfByte;
    PositionToOffsetIs(source, edit.start);
    PositionToOffsetIs(source, edit.end);
    if SpanOf(source, edit).Some? {
      var i :| 0 <= i <= |source| && PositionAt(source, i) == edit.start;
      IndexOfByteIs(source, i);
      var j :| 0 <= j <= |source| && PositionAt(source, j) == edit.end;
      IndexOfByteIs(source, j);
    }
  }

  lemma {:induction false} SpansInText(source: string, edits: seq<Edit>)
    ensures SpansOf(source, edits).Some? ==>
              |SpansOf(source, edits).value| == |edits|
              && forall span | span in SpansOf(source, edits).value :: InText(source, span)
  {
    hide SpanOf, InText;
    if edits != [] {
      SpansInText(source, edits[..|edits| - 1]);
      SpanInText(source, edits[|edits| - 1]);
    }
  }

  // ----- order

  /** The order of `sort_by`: later starts first, and of equal starts later ends first. */
  predicate NotBefore(a: Span, b: Span) {
    a.start > b.start || (a.start == b.start && a.end >= b.end)
  }

  predicate Descending(spans: seq<Span>) {
    forall i, j | 0 <= i < j < |spans| :: NotBefore(spans[i], spans[j])
  }

  /** Insertion behind all spans that need not come after: the sort is stable. */
  function Insert(spans: seq<Span>, span: Span): (r: seq<Span>)
    ensures forall x :: x in r <==> x in spans || x == span
    ensures multiset(r) == multiset(spans) + multiset{span}
  {
    if spans == [] then [span]
    else
      assert spans == [spans[0]] + spans[1..];
      if NotBefore(spans[0], span) then [spans[0]] + Insert(spans[1..], span)
      else [span] + spans
  }

  function Sort(spans: seq<Span>): seq<Span> {
    if spans == [] then [] else Insert(Sort(spans[..|spans| - 1]), spans[|spans| - 1])
  }

  lemma DescendingCons(x: Span, rest: seq<Span>)
    requires Descending(rest) && forall y | y in rest :: NotBefore(x, y)
    ensures Descending([x] + rest)
  {
  }

  lemma {:induction false} InsertSorts(spans: seq<Span>, span: Span)
    requires Descending(spans)
    ensures Descending(Insert(spans, span))
  {
    if spans != [] {
      var x, rest := spans[0], spans[1..];
      assert forall y | y in rest :: NotBefore(x, y);
      if NotBefore(x, span) {
        InsertSorts(rest, span);
        DescendingCons(x, Insert(rest, span));
      } else {
        assert forall y | y in spans :: NotBefore(span, y);
        DescendingCons(span, spans);
      }
    }
  }

  /** The sort orders the spans and keeps each as often as it occurs. */
  lemma {:induction false} SortSorts(spans: seq<Span>)
    ensures Descending(Sort(spans))
    ensures multiset(Sort(spans)) == multiset(spans)
  {
    if spans != [] {
      var front, last := spans[..|spans| - 1], spans[|spans| - 1];
      SortSorts(front);
      InsertSorts(Sort(front), last);
      assert spans == front + [last];
    }
  }

  /** No two spans of a list have the same range. */
  predicate DistinctRanges(spans: seq<Span>) {
    forall i, j | 0 <= i < j < |spans| :: spans[i].start != spans[j].start || spans[i].end != spans[j].end
  }

  lemma FirstIsGreatest(spans: seq<Span>, x: Span)
    requires Descending(spans) && x in spans
    ensures x == spans[0] || NotBefore(spans[0], x)
  {
  }

  lemma RestMultiset(spans: seq<Span>)
    requires spans != []
    ensures multiset(spans[1..]) == multiset(spans) - multiset{spans[0]}
  {
    assert spans == [spans[0]] + spans[1..];
  }

  lemma RestSorted(spans: seq<Span>)
    requires spans != []
    ensures Descending(spans) ==> Descending(spans[1..])
    ensures DistinctRanges(spans) ==> DistinctRanges(spans[1..])
  {
  }

  lemma HeadsAgree(a: seq<Span>, b: seq<Span>)
    requires a != [] && b != [] && Descending(a) && Descending(b) && DistinctRanges(a)
    requires multiset(a) == multiset(b)
    ensures a[0] == b[0]
  {
    hide Descending, DistinctRanges;
    assert a[0] in multiset(b) && b[0] in multiset(a);
    FirstIsGreatest(b, a[0]);
    FirstIsGreatest(a, b[0]);
    SameRange(a, b[0]);
  }

  lemma {:induction false} SortedUnique(a: seq<Span>, b: seq<Span>)
    requires Descending(a) && Descending(b) && DistinctRanges(a)
    requires multiset(a) == multiset(b)
    ensures a == b
    decreases |a|
  {
    hide Descending, DistinctRanges;
    assert |multiset(a)| == |a| && |multiset(b)| == |b|;
    if a != [] {
      HeadsAgree(a, b);
      RestSorted(a);
      RestSorted(b);
      RestMultiset(a);
      RestMultiset(b);
      SortedUnique(a[1..], b[1..]);
      assert a == [a[0]] + a[1..] && b == [b[0]] + b[1..];
    }
  }

  lemma SameRange(a: seq<Span>, x: Span)
    requires DistinctRanges(a) && a != [] && x in a && x.start == a[0].start && x.end == a[0].end
    ensures x == a[0]
  {
  }

  /** Without equal ranges the order in which the edits are listed does not matter. */
  lemma OrderIrrelevant(a: seq<Span>, b: seq<Span>)
    requires multiset(a) == multiset(b) && DistinctRanges(Sort(a))
    ensures Sort(a) == Sort(b)
  {
    SortSorts(a);
    SortSorts(b);
    SortedUnique(Sort(a), Sort(b));
  }

  // ----- the edited text

  /** The windows test: no edit reaches past the start of the one before it in the list. */
  predicate Disjoint(spans: seq<Span>) {
    forall i | 0 <= i < |spans| - 1 :: spans[i + 1].end <= spans[i].start
  }

  /** The character index of a boundary. */
  function At(s: string, b: nat): (i: nat)
    ensures i <= |s|
  {
    var i := IndexOfByte(s, b);
    if i.Some? then i.value else 0
  }

  /** Spans that follow one another in a text from character `from` on. */
  predicate InOrder(source: string, spans: seq<Span>, from: nat) {
    if spans == [] then from <= |source|
    else
      && InText(source, spans[0])
      && from <= At(source, spans[0].start) <= At(source, spans[0].end)
      && InOrder(source, spans[1..], At(source, spans[0].end))
  }

  /** All edits at once, from left to right: the text between the spans is kept, each span is
      replaced by its new text. */
  function Splice(source: string, spans: seq<Span>, from: nat): string
    requires InOrder(source, spans, from)
  {
    if spans == [] then source[from..]
    else source[from..At(source, spans[0].start)] + spans[0].newText
         + Splice(source, spans[1..], At(source, spans[0].end))
  }

  lemma SpliceFrom(source: string, spans: seq<Span>, a: nat, b: nat)
    requires InOrder(source, spans, b) && a <= b
    ensures InOrder(source, spans, a) && b <= |source|
    ensures Splice(source, spans, a) == source[a..b] + Splice(source, spans, b)
  {
    hide InText, At;
    if spans == [] {
      assert source[a..] == source[a..b] + source[b..];
    } else {
      var i := At(source, spans[0].start);
      assert source[a..i] == source[a..b] + source[b..i];
      Onto(source[a..b], source[b..i], spans[0].newText, Splice(source, spans[1..], At(source, spans[0].end)));
    }
  }

  lemma Onto(a: string, b: string, x: string, rest: string)
    ensures (a + b) + x + rest == a + (b + x + rest)
  {
  }

  function Reverse(spans: seq<Span>): seq<Span> {
    if spans == [] then [] else Reverse(spans[1..]) + [spans[0]]
  }

  lemma {:induction false} ReverseAppend(spans: seq<Span>, x: Span)
    ensures Reverse(spans + [x]) == [x] + Reverse(spans)
  {
    if spans == [] {
      assert [] + [x] == [x];
    } else {
      assert (spans + [x])[1..] == spans[1..] + [x];
      ReverseAppend(spans[1..], x);
    }
  }

  /** `String::replace_range`. */
  function Replace(s: string, span: Span): string
    requires InText(s, span)
  {
    var i, j := At(s, span.start), At(s, span.end);
    if i <= j then s[..i] + span.newText + s[j..] else s
  }

  /** Byte offsets of boundaries and their character indexes are in the same order. */
  lemma AtOrder(s: string, a: nat, b: nat)
    requires Boundary(s, a) && Boundary(s, b) && a <= b
    ensures At(s, a) <= At(s, b)
  {
    var i, j := At(s, a), At(s, b);
    if j < i { PrefixLengths(s, j, i); }
  }

  /** In a buffer that begins like the source, the boundaries of that beginning are where they
      are in the source. */
  lemma AtPrefix(source: string, buffer: string, n: nat, b: nat)
    requires n <= |source| && n <= |buffer| && buffer[..n] == source[..n]
    requires Boundary(source, b) && At(source, b) <= n
    ensures Boundary(buffer, b) && At(buffer, b) == At(source, b)
  {
    var i := At(source, b);
    assert buffer[..i] == buffer[..n][..i] == source[..n][..i] == source[..i];
    IndexOfByteIs(buffer, i);
  }

  /** One turn of the backward loop: the buffer still begins like the source up to `limit`, the
      next span lies before it, so its offsets are boundaries of the buffer, and replacing it
      extends the spliced part of the buffer to the left. */
  lemma ReplaceStep(source: string, buffer: string, done: seq<Span>, limit: nat, span: Span)
    requires InOrder(source, done, limit) && limit <= |source|
    requires buffer == source[..limit] + Splice(source, done, limit)
    requires InText(source, span) && At(source, span.end) <= limit
    ensures InText(buffer, span)
    ensures var i := At(source, span.start);
            && i <= limit && InOrder(source, [span] + done, i)
            && Replace(buffer, span) == source[..i] + Splice(source, [span] + done, i)
  {
    hide IndexOfByte, Splice, Boundary;
    var i, j := At(source, span.start), At(source, span.end);
    var tail := Splice(source, done, limit);
    AtOrder(source, span.start, span.end);
    Parts(source, buffer, tail, limit, i, j);
    AtPrefix(source, buffer, limit, span.start);
    AtPrefix(source, buffer, limit, span.end);
    SpliceFrom(source, done, j, limit);
    SpliceCons(source, span, done);
    assert source[..i] + (span.newText + (source[j..limit] + tail))
        == source[..i] + span.newText + (source[j..limit] + tail);
  }

  lemma Parts(source: string, buffer: string, tail: string, limit: nat, i: nat, j: nat)
    requires i <= j <= limit <= |source| && buffer == source[..limit] + tail
    ensures buffer[..limit] == source[..limit] && buffer[..i] == source[..i] && buffer[j..] == source[j..limit] + tail
  {
  }

  lemma SpliceCons(source: string, span: Span, done: seq<Span>)
    requires InText(source, span) && InOrder(source, done, At(source, span.end))
    requires At(source, span.start) <= At(source, span.end)
    ensures InOrder(source, [span] + done, At(source, span.start))
    ensures Splice(source, [span] + done, At(source, span.start))
         == span.newText + Splice(source, done, At(source, span.end))
  {
    hide IndexOfByte;
    assert ([span] + done)[1..] == done;
    var i := At(source, span.start);
    assert source[i..i] == [];
    assert [] + span.newText == span.newText;
  }

  /** `apply_text_edits`: the spans are sorted from the back of the text to its front and applied
      one after the other to the same buffer. The result is that of applying all of them at once,
      or nothing when a range is invalid or two edits overlap. */
  method ApplyTextEdits(source: string, edits: seq<Edit>) returns (r: Option<string>)
    ensures match SpansOf(source, edits)
            case None => r == None
            case Some(spans) =>
              var sorted := Sort(spans);
              if !Disjoint(sorted) then r == None
              else InOrder(source, Reverse(sorted), 0) && r == Some(Splice(source, Reverse(sorted), 0))
  {
    hide SpanOf, SpansOf, IndexOfByte, Sort, Boundary, Splice, InText, InOrder, Reverse, Replace, Disjoint, Applied;
    if edits == [] {
      NoEdits(source);
      return Some(source);
    }
    var accepted := SpansOf(source, edits);
    if accepted == None { return None; }
    var spans := Sort(accepted.value);
    SortedInText(source, edits);
    if !Disjoint(spans) { return None; }
    var formatted := source;
    NoneApplied(source, spans);
    for n := 0 to |spans|
      invariant Applied(source, spans, n, formatted)
    {
      ApplyNext(source, spans, n, formatted);
      formatted := Replace(formatted, spans[n]);
    }
    AllApplied(source, spans, formatted);
    return Some(formatted);
  }

  /** The buffer after the last `n` edits of the text: it begins like the source and goes on with
      the spliced rest. */
  predicate Applied(source: string, spans: seq<Span>, n: nat, buffer: string)
    requires n <= |spans|
  {
    && InOrder(source, Reverse(spans[..n]), Limit(source, spans, n))
    && buffer == source[..Limit(source, spans, n)] + Splice(source, Reverse(spans[..n]), Limit(source, spans, n))
  }

  lemma ApplyNext(source: string, spans: seq<Span>, n: nat, buffer: string)
    requires n < |spans| && Disjoint(spans) && forall span | span in spans :: InText(source, span)
    requires Applied(source, spans, n, buffer)
    ensures InText(buffer, spans[n]) && Applied(source, spans, n + 1, Replace(buffer, spans[n]))
  {
    hide IndexOfByte, Boundary, Splice, InText, InOrder, Replace, Disjoint, Reverse, At;
    var span := spans[n];
    assert InText(source, span) && (n > 0 ==> InText(source, spans[n - 1]));
    Fits(source, spans, n);
    ReplaceStep(source, buffer, Reverse(spans[..n]), Limit(source, spans, n), span);
    assert spans[..n + 1] == spans[..n] + [span];
    ReverseAppend(spans[..n], span);
  }

  lemma AllApplied(source: string, spans: seq<Span>, buffer: string)
    requires Applied(source, spans, |spans|, buffer)
    ensures InOrder(source, Reverse(spans), 0) && buffer == Splice(source, Reverse(spans), 0)
  {
    hide IndexOfByte, Splice, InOrder, Reverse, At;
    assert spans[..|spans|] == spans;
    SpliceFrom(source, Reverse(spans), 0, Limit(source, spans, |spans|));
    assert source[0..Limit(source, spans, |spans|)] == source[..Limit(source, spans, |spans|)];
  }

  /** The sorted spans of an accepted list follow one another in the text. */
  lemma AcceptedInOrder(source: string, spans: seq<Span>)
    requires Disjoint(spans) && forall span | span in spans :: InText(source, span)
    ensures InOrder(source, Reverse(spans), 0)
  {
    hide IndexOfByte, Boundary, Splice, InText, InOrder, Replace, Disjoint, Reverse, At, Applied;
    var buffer := source;
    NoneApplied(source, spans);
    for n := 0 to |spans|
      invariant Applied(source, spans, n, buffer)
    {
      ApplyNext(source, spans, n, buffer);
      buffer := Replace(buffer, spans[n]);
    }
    AllApplied(source, spans, buffer);
  }

  lemma NoEdits(source: string)
    ensures SpansOf(source, []) == Some([]) && Sort([]) == [] && Disjoint([])
    ensures InOrder(source, Reverse([]), 0) && Splice(source, Reverse([]), 0) == source
  {
    SpliceNothing(source);
  }

  lemma NoneApplied(source: string, spans: seq<Span>)
    ensures Applied(source, spans, 0, source)
  {
    assert spans[..0] == [];
    SpliceNothing(source);
  }

  /** Where the part of the text begins that the first `n` spans have rewritten. */
  function Limit(source: string, spans: seq<Span>, n: nat): (limit: nat)
    requires n <= |spans|
    ensures limit <= |source|
  {
    if n == 0 then |source| else At(source, spans[n - 1].start)
  }

  lemma SpliceNothing(source: string)
    ensures Splice(source, [], 0) == source
    ensures source[..|source|] + Splice(source, [], |source|) == source
  {
  }

  lemma SortedInText(source: string, edits: seq<Edit>)
    requires SpansOf(source, edits).Some?
    ensures forall span | span in Sort(SpansOf(source, edits).value) :: InText(source, span)
  {
    hide InText, SpansOf, Sort, Insert, Descending;
    SpansInText(source, edits);
    var spans := SpansOf(source, edits).value;
    SortSorts(spans);
    forall span | span in Sort(spans) ensures InText(source, span) {
      assert span in multiset(Sort(spans));
      assert span in multiset(spans);
    }
  }

  lemma Fits(source: string, spans: seq<Span>, n: nat)
    requires n < |spans| && Disjoint(spans) && InText(source, spans[n])
    requires n > 0 ==> InText(source, spans[n - 1])
    ensures At(source, spans[n].end) <= Limit(source, spans, n)
  {
    hide IndexOfByte;
    if n > 0 { AtOrder(source, spans[n].end, spans[n - 1].start); }
  }

  // ----- what follows for the edited text

  function Added(spans: seq<Span>): nat {
    if spans == [] then 0 else ByteLen(spans[0].newText) + Added(spans[1..])
  }

  function Removed(spans: seq<Span>): int {
    if spans == [] then 0 else spans[0].end - spans[0].start + Removed(spans[1..])
  }

  lemma BytesBetween(s: string, i: nat, j: nat)
    requires i <= j <= |s|
    ensures ByteLen(s[i..j]) == ByteLen(s[..j]) - ByteLen(s[..i])
  {
    PrefixLengths(s, i, j);
  }

  /** The edited text is as long as the source, with what was inserted and without what was
      removed. */
  lemma {:induction false} SpliceLength(source: string, spans: seq<Span>, from: nat)
    requires InOrder(source, spans, from)
    ensures from <= |source|
    ensures ByteLen(Splice(source, spans, from)) == ByteLen(source[from..]) + Added(spans) - Removed(spans)
    decreases |spans|
  {
    hide ByteLen, IndexOfByte;
    if spans != [] {
      var x := spans[0];
      var i, j := At(source, x.start), At(source, x.end);
      SpliceLength(source, spans[1..], j);
      PieceLength(source, from, i, j, x.newText, Splice(source, spans[1..], j));
    }
  }

  lemma PieceLength(source: string, from: nat, i: nat, j: nat, text: string, rest: string)
    requires from <= i <= j <= |source|
    ensures ByteLen(source[from..i] + text + rest) - ByteLen(rest)
         == ByteLen(source[from..]) - ByteLen(source[j..])
           + ByteLen(text) - (ByteLen(source[..j]) - ByteLen(source[..i]))
  {
    hide ByteLen;
    LengthsAdd(source[from..i] + text, rest);
    LengthsAdd(source[from..i], text);
    BytesBetween(source, from, i);
    LengthsAdd(source[from..j], source[j..]);
    assert source[from..j] + source[j..] == source[from..];
    BytesBetween(source, from, j);
  }

  lemma {:induction false} SpansSplit(source: string, a: seq<Edit>, b: seq<Edit>)
    ensures SpansOf(source, a + b).Some? <==> SpansOf(source, a).Some? && SpansOf(source, b).Some?
    ensures SpansOf(source, a + b).Some? ==>
              SpansOf(source, a + b).value == SpansOf(source, a).value + SpansOf(source, b).value
    decreases |b|
  {
    hide SpanOf;
    if b == [] {
      assert a + b == a;
    } else {
      var b', e := b[..|b| - 1], b[|b| - 1];
      SpansSplit(source, a, b');
      assert (a + b)[..|a + b| - 1] == a + b';
    }
  }

  lemma SpansOne(source: string, e: Edit)
    ensures SpansOf(source, [e]) == if SpanOf(source, e).Some? then Some([SpanOf(source, e).value]) else None
  {
    hide SpanOf;
    assert [e][..0] == [];
    if SpanOf(source, e).Some? { assert [] + [SpanOf(source, e).value] == [SpanOf(source, e).value]; }
  }

  /** The spans of a permuted list of edits are the permuted spans. */
  lemma {:induction false} SpansPermuted(source: string, a: seq<Edit>, b: seq<Edit>)
    requires multiset(a) == multiset(b)
    ensures SpansOf(source, a).Some? <==> SpansOf(source, b).Some?
    ensures SpansOf(source, a).Some? ==> multiset(SpansOf(source, a).value) == multiset(SpansOf(source, b).value)
    decreases |a|
  {
    hide SpanOf, SpansOf;
    assert |multiset(a)| == |a| && |multiset(b)| == |b|;
    if a == [] {
      assert b == [];
    } else {
      var e := a[0];
      assert e in multiset(b);
      var k :| 0 <= k < |b| && b[k] == e;
      assert a == [e] + a[1..];
      assert b == b[..k] + ([e] + b[k + 1..]);
      var b' := b[..k] + b[k + 1..];
      assert multiset(a[1..]) == multiset(a) - multiset{e};
      assert multiset(b') == multiset(b) - multiset{e};
      SpansPermuted(source, a[1..], b');
      SpansSplit(source, [e], a[1..]);
      SpansSplit(source, b[..k], [e] + b[k + 1..]);
      SpansSplit(source, [e], b[k + 1..]);
      SpansSplit(source, b[..k], b[k + 1..]);
      SpansOne(source, e);
    }
  }

  /** As long as no two edits have the same range, the order in which the server lists them is
      irrelevant: the same edits are sorted to the same list of spans. */
  lemma ListOrderIrrelevant(source: string, a: seq<Edit>, b: seq<Edit>)
    requires multiset(a) == multiset(b)
    requires SpansOf(source, a).Some? ==> DistinctRanges(Sort(SpansOf(source, a).value))
    ensures match (SpansOf(source, a), SpansOf(source, b))
            case (Some(x), Some(y)) => Sort(x) == Sort(y)
            case (None, None) => true
            case _ => false
  {
    hide SpansOf, Sort, DistinctRanges;
    SpansPermuted(source, a, b);
    if SpansOf(source, a).Some? {
      OrderIrrelevant(SpansOf(source, a).value, SpansOf(source, b).value);
    }
  }

  /** Two inserts at one position end up in reverse list order, so the text the protocol asks for
      comes out exactly when the two new texts commute. */
  lemma TwoInsertsReversed(source: string, p: nat, a: string, b: string)
    requires p <= |source|
    ensures var at := ByteLen(source[..p]);
            var spans := Reverse(Sort([Span(at, at, a), Span(at, at, b)]));
            && InOrder(source, spans, 0)
            && Splice(source, spans, 0) == source[..p] + b + a + source[p..]
            && (Splice(source, spans, 0) == source[..p] + a + b + source[p..] <==> a + b == b + a)
  {
    hide Splice, Sort, Reverse, InOrder, ByteLen;
    var at := ByteLen(source[..p]);
    SortTwo(Span(at, at, a), Span(at, at, b));
    SpliceTwo(source, p, a, b);
    Grouped(source[..p], b, a, source[p..]);
    Grouped(source[..p], a, b, source[p..]);
    Middle(source[..p], a + b, b + a, source[p..]);
  }

  lemma Grouped(l: string, x: string, y: string, r: string)
    ensures l + x + y + r == l + (x + y) + r == l + x + (y + r)
  {
  }

  lemma SpliceOne(source: string, p: nat, a: string)
    requires p <= |source|
    ensures var at := ByteLen(source[..p]);
            At(source, at) == p && InText(source, Span(at, at, a))
            && InOrder(source, [Span(at, at, a)], p) && Splice(source, [Span(at, at, a)], p) == a + source[p..]
  {
    hide ByteLen, IndexOfByte;
    IndexOfByteIs(source, p);
    var x := Span(ByteLen(source[..p]), ByteLen(source[..p]), a);
    assert [x][1..] == [];
    assert source[p..p] == [];
  }

  lemma SpliceTwo(source: string, p: nat, a: string, b: string)
    requires p <= |source|
    ensures var at := ByteLen(source[..p]);
            var spans := [Span(at, at, b), Span(at, at, a)];
            InOrder(source, spans, 0) && Splice(source, spans, 0) == source[..p] + b + (a + source[p..])
  {
    hide ByteLen, IndexOfByte;
    SpliceOne(source, p, a);
    SpliceOne(source, p, b);
    var at := ByteLen(source[..p]);
    var spans := [Span(at, at, b), Span(at, at, a)];
    assert spans[1..] == [Span(at, at, a)];
    assert source[0..p] == source[..p];
  }

  lemma Middle(l: string, x: string, y: string, r: string)
    requires |x| == |y|
    ensures l + x + r == l + y + r <==> x == y
  {
    if l + x + r == l + y + r {
      assert (l + x + r)[|l|..|l| + |x|] == x;
      assert (l + y + r)[|l|..|l| + |x|] == y;
    }
  }

  lemma SortTwo(x: Span, y: Span)
    requires x.start == y.start && x.end == y.end
    ensures Reverse(Sort([x, y])) == [y, x]
  {
    assert Sort([x]) == [x] by { assert [x][..0] == []; }
    assert Insert([x], y) == [x, y] by { assert [x][1..] == []; }
    assert Reverse([y]) == [y] by { assert [y][1..] == []; }
    assert Sort([x, y]) == [x, y] by { hide Insert; assert [x, y][..1] == [x]; }
    hide Sort;
    assert [x, y][1..] == [y];
  }
}
