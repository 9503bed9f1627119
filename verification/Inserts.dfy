/** The order of inserts at one position: what the formatter does, and what the protocol asks for. */
module Inserts {
  import opened Json
  import opened Text
  import opened Edits

  // ----- the order the protocol asks for

  /** Insertion behind all spans that do not come after it. */
  function Place(spans: seq<Span>, span: Span): seq<Span> {
    if spans == [] then [span]
    else if NotBefore(span, spans[0]) then [spans[0]] + Place(spans[1..], span)
    else [span] + spans
  }

  /** The spans from the front of the text to its back; those with the same range in array order. */
  function Ascending(spans: seq<Span>): seq<Span> {
    if spans == [] then [] else Place(Ascending(spans[..|spans| - 1]), spans[|spans| - 1])
  }

  // ----- ranges

  datatype Range = Range(start: nat, end: nat)

  predicate AtMost(a: Range, b: Range) {
    a.start < b.start || (a.start == b.start && a.end <= b.end)
  }

  predicate Rising(ranges: seq<Range>) {
    forall i, j | 0 <= i < j < |ranges| :: AtMost(ranges[i], ranges[j])
  }

  function RangeOf(x: Span): Range { Range(x.start, x.end) }

  function Ranges(spans: seq<Span>): (r: seq<Range>)
    ensures |r| == |spans| && forall k | 0 <= k < |spans| :: r[k] == RangeOf(spans[k])
  {
    if spans == [] then [] else [RangeOf(spans[0])] + Ranges(spans[1..])
  }

  lemma RangesCons(x: Span, rest: seq<Span>)
    ensures Ranges([x] + rest) == [RangeOf(x)] + Ranges(rest)
    ensures multiset(Ranges([x] + rest)) == multiset{RangeOf(x)} + multiset(Ranges(rest))
  {
    assert Ranges([x] + rest) == [RangeOf(x)] + Ranges(rest);
  }

  lemma RangesLast(front: seq<Span>, x: Span)
    ensures multiset(Ranges(front + [x])) == multiset(Ranges(front)) + multiset{RangeOf(x)}
  {
    assert Ranges(front + [x]) == Ranges(front) + [RangeOf(x)];
  }

  lemma NoRanges()
    ensures Ranges([]) == []
  {
  }

  lemma {:induction false} InsertRanges(spans: seq<Span>, x: Span)
    ensures multiset(Ranges(Insert(spans, x))) == multiset(Ranges(spans)) + multiset{RangeOf(x)}
  {
    hide Ranges, NotBefore;
    NoRanges();
    RangesCons(x, spans);
    if spans != [] {
      var y, rest := spans[0], spans[1..];
      assert spans == [y] + rest;
      InsertRanges(rest, x);
      RangesCons(y, rest);
      RangesCons(y, Insert(rest, x));
    } else {
      assert [x] + spans == [x];
    }
  }

  lemma {:induction false} PlaceRanges(spans: seq<Span>, x: Span)
    ensures multiset(Ranges(Place(spans, x))) == multiset(Ranges(spans)) + multiset{RangeOf(x)}
  {
    hide Ranges, NotBefore;
    NoRanges();
    RangesCons(x, spans);
    if spans != [] {
      var y, rest := spans[0], spans[1..];
      assert spans == [y] + rest;
      PlaceRanges(rest, x);
      RangesCons(y, rest);
      RangesCons(y, Place(rest, x));
    } else {
      assert [x] + spans == [x];
    }
  }

  lemma {:induction false} ReverseAt(spans: seq<Span>)
    ensures |Reverse(spans)| == |spans| && forall k | 0 <= k < |spans| :: Reverse(spans)[k] == spans[|spans| - 1 - k]
  {
    if spans != [] { ReverseAt(spans[1..]); }
  }

  lemma {:induction false} ReverseRanges(spans: seq<Span>)
    ensures multiset(Ranges(Reverse(spans))) == multiset(Ranges(spans))
  {
    hide Ranges;
    NoRanges();
    if spans != [] {
      ReverseRanges(spans[1..]);
      RangesLast(Reverse(spans[1..]), spans[0]);
      RangesCons(spans[0], spans[1..]);
      assert spans == [spans[0]] + spans[1..];
    }
  }

  lemma {:induction false} SameRanges(spans: seq<Span>)
    ensures multiset(Ranges(Ascending(spans))) == multiset(Ranges(Sort(spans)))
  {
    hide Ranges;
    if spans != [] {
      var front, last := spans[..|spans| - 1], spans[|spans| - 1];
      SameRanges(front);
      PlaceRanges(Ascending(front), last);
      InsertRanges(Sort(front), last);
    }
  }

  lemma RisingCons(x: Range, rest: seq<Range>)
    requires Rising(rest) && forall y | y in rest :: AtMost(x, y)
    ensures Rising([x] + rest)
  {
  }

  lemma {:induction false} PlaceRises(spans: seq<Span>, x: Span)
    requires Rising(Ranges(spans))
    ensures Rising(Ranges(Place(spans, x)))
    ensures forall y | y in Ranges(Place(spans, x)) :: y == RangeOf(x) || y in Ranges(spans)
  {
    hide Ranges, Rising;
    NoRanges();
    if spans == [] {
      RangesCons(x, []);
      assert [x] + [] == [x];
      OneRises(RangeOf(x));
    } else {
      var y, rest := spans[0], spans[1..];
      assert spans == [y] + rest;
      RangesCons(y, rest);
      RisingParts(RangeOf(y), Ranges(rest));
      if NotBefore(x, y) {
        PlaceRises(rest, x);
        RangesCons(y, Place(rest, x));
        RisingCons(RangeOf(y), Ranges(Place(rest, x)));
      } else {
        RangesCons(x, spans);
        RisingCons(RangeOf(x), Ranges(spans));
      }
    }
  }

  lemma OneRises(x: Range)
    ensures Rising([x] + [])
  {
  }

  lemma RisingParts(x: Range, rest: seq<Range>)
    requires Rising([x] + rest)
    ensures Rising(rest) && forall y | y in rest :: AtMost(x, y)
  {
    var all := [x] + rest;
    forall i | 0 <= i < |rest| ensures AtMost(x, rest[i]) {
      assert all[0] == x && all[i + 1] == rest[i];
    }
    forall i, j | 0 <= i < j < |rest| ensures AtMost(rest[i], rest[j]) {
      assert all[i + 1] == rest[i] && all[j + 1] == rest[j];
    }
  }

  lemma {:induction false} AscendingRises(spans: seq<Span>)
    ensures Rising(Ranges(Ascending(spans)))
  {
    if spans != [] {
      AscendingRises(spans[..|spans| - 1]);
      PlaceRises(Ascending(spans[..|spans| - 1]), spans[|spans| - 1]);
    }
  }

  lemma ReversedRises(spans: seq<Span>)
    requires Descending(spans)
    ensures Rising(Ranges(Reverse(spans)))
  {
    ReverseAt(spans);
    var r, n := Ranges(Reverse(spans)), |spans|;
    forall i, j | 0 <= i < j < n ensures AtMost(r[i], r[j]) {
      assert NotBefore(spans[n - 1 - j], spans[n - 1 - i]);
    }
  }

  lemma {:induction false} RisingUnique(a: seq<Range>, b: seq<Range>)
    requires Rising(a) && Rising(b) && multiset(a) == multiset(b)
    ensures a == b
    decreases |a|
  {
    assert |multiset(a)| == |a| && |multiset(b)| == |b|;
    if a != [] {
      RisingHeads(a, b);
      assert a == [a[0]] + a[1..] && b == [b[0]] + b[1..];
      assert multiset(a[1..]) == multiset(a) - multiset{a[0]};
      assert multiset(b[1..]) == multiset(b) - multiset{b[0]};
      RisingRest(a);
      RisingRest(b);
      RisingUnique(a[1..], b[1..]);
    }
  }

  lemma RisingHeads(a: seq<Range>, b: seq<Range>)
    requires a != [] && b != [] && Rising(a) && Rising(b) && multiset(a) == multiset(b)
    ensures a[0] == b[0]
  {
    assert a[0] in multiset(b) && b[0] in multiset(a);
    var i :| 0 <= i < |b| && b[i] == a[0];
    var j :| 0 <= j < |a| && a[j] == b[0];
  }

  lemma RisingRest(a: seq<Range>)
    requires a != [] && Rising(a)
    ensures Rising(a[1..])
  {
  }

  /** Both orders have the same ranges in the same places. */
  lemma OrdersAgree(spans: seq<Span>)
    ensures Ranges(Ascending(spans)) == Ranges(Reverse(Sort(spans)))
    ensures Rising(Ranges(Ascending(spans)))
  {
    hide Ascending, Sort, Reverse, Ranges, Rising;
    SortSorts(spans);
    AscendingRises(spans);
    ReversedRises(Sort(spans));
    ReverseRanges(Sort(spans));
    SameRanges(spans);
    RisingUnique(Ranges(Ascending(spans)), Ranges(Reverse(Sort(spans))));
  }

  // ----- the texts of one range

  /** The new texts of the spans with a range, in list order. */
  function Texts(spans: seq<Span>, r: Range): seq<string> {
    if spans == [] then [] else TextOf(spans[0], r) + Texts(spans[1..], r)
  }

  function TextOf(x: Span, r: Range): seq<string> { if RangeOf(x) == r then [x.newText] else [] }

  function Concat(texts: seq<string>): string {
    if texts == [] then "" else texts[0] + Concat(texts[1..])
  }

  function Backwards(texts: seq<string>): seq<string> {
    if texts == [] then [] else Backwards(texts[1..]) + [texts[0]]
  }

  lemma {:induction false} TextsAdd(a: seq<Span>, b: seq<Span>, r: Range)
    ensures Texts(a + b, r) == Texts(a, r) + Texts(b, r)
  {
    hide TextOf;
    if a == [] {
      assert a + b == b;
    } else {
      TextsAdd(a[1..], b, r);
      assert (a + b)[1..] == a[1..] + b;
    }
  }

  lemma TextsOne(x: Span, r: Range)
    ensures Texts([x], r) == TextOf(x, r)
  {
    assert [x][1..] == [];
  }

  lemma {:induction false} NoTexts(spans: seq<Span>, r: Range)
    requires r !in Ranges(spans)
    ensures Texts(spans, r) == []
  {
    if spans != [] {
      assert Ranges(spans)[0] == RangeOf(spans[0]);
      assert Ranges(spans)[1..] == Ranges(spans[1..]);
      NoTexts(spans[1..], r);
    }
  }

  /** An insertion into a sorted list puts a text behind those of its range. */
  lemma {:induction false} PlaceTexts(spans: seq<Span>, x: Span, r: Range)
    requires Rising(Ranges(spans))
    ensures Texts(Place(spans, x), r) == Texts(spans, r) + TextOf(x, r)
  {
    if spans == [] {
      TextsOne(x, r);
    } else if NotBefore(x, spans[0]) {
      var rest := spans[1..];
      assert Ranges(rest) == Ranges(spans)[1..];
      RisingRest(Ranges(spans));
      PlaceTexts(rest, x, r);
      assert ([spans[0]] + Place(rest, x))[1..] == Place(rest, x);
    } else {
      assert ([x] + spans)[1..] == spans;
      if r == RangeOf(x) {
        LaterRanges(Ranges(spans), r);
        NoTexts(spans, r);
      }
    }
  }

  lemma LaterRanges(ranges: seq<Range>, r: Range)
    requires ranges != [] && Rising(ranges) && !AtMost(ranges[0], r)
    ensures r !in ranges
  {
  }

  lemma {:induction false} InsertTexts(spans: seq<Span>, x: Span, r: Range)
    requires Descending(spans)
    ensures Texts(Insert(spans, x), r) == Texts(spans, r) + TextOf(x, r)
  {
    if spans == [] {
      TextsOne(x, r);
    } else if NotBefore(spans[0], x) {
      var rest := spans[1..];
      InsertTexts(rest, x, r);
      assert ([spans[0]] + Insert(rest, x))[1..] == Insert(rest, x);
    } else {
      assert ([x] + spans)[1..] == spans;
      if r == RangeOf(x) {
        EarlierRanges(spans, x);
        NoTexts(spans, r);
      }
    }
  }

  lemma EarlierRanges(spans: seq<Span>, x: Span)
    requires spans != [] && Descending(spans) && !NotBefore(spans[0], x)
    ensures RangeOf(x) !in Ranges(spans)
  {
  }

  /** Both sorts are stable. */
  lemma {:induction false} SortedTexts(spans: seq<Span>, r: Range)
    ensures Texts(Ascending(spans), r) == Texts(spans, r)
    ensures Texts(Sort(spans), r) == Texts(spans, r)
  {
    hide Texts, Place, Insert, TextOf, Rising, Ranges, Descending;
    if spans != [] {
      var front, last := spans[..|spans| - 1], spans[|spans| - 1];
      SortedTexts(front, r);
      AscendingRises(front);
      PlaceTexts(Ascending(front), last, r);
      SortSorts(front);
      InsertTexts(Sort(front), last, r);
      assert spans == front + [last];
      TextsAdd(front, [last], r);
      TextsOne(last, r);
    }
  }

  lemma {:induction false} ReversedTexts(spans: seq<Span>, r: Range)
    ensures Texts(Reverse(spans), r) == Backwards(Texts(spans, r))
  {
    if spans != [] {
      ReversedTexts(spans[1..], r);
      TextsAdd(Reverse(spans[1..]), [spans[0]], r);
      TextsOne(spans[0], r);
      BackwardsCons(TextOf(spans[0], r), Texts(spans[1..], r));
    }
  }

  lemma BackwardsCons(first: seq<string>, rest: seq<string>)
    requires |first| <= 1
    ensures Backwards(first + rest) == Backwards(rest) + first
  {
    if first == [] {
      assert first + rest == rest;
    } else {
      assert (first + rest)[1..] == rest;
      assert first == [first[0]];
    }
  }

  lemma {:induction false} ConcatAdd(texts: seq<string>, x: string)
    ensures Concat(texts + [x]) == Concat(texts) + x
  {
    if texts == [] {
      assert [x][1..] == [];
      assert texts + [x] == [x];
    } else {
      ConcatAdd(texts[1..], x);
      assert (texts + [x])[1..] == texts[1..] + [x];
    }
  }

  lemma {:induction false} BackwardsLength(texts: seq<string>)
    ensures |Concat(Backwards(texts))| == |Concat(texts)|
  {
    if texts != [] {
      BackwardsLength(texts[1..]);
      ConcatAdd(Backwards(texts[1..]), texts[0]);
    }
  }

  // ----- one insert for each position

  /** Puts a span in front of others; two of the same range become one. */
  function Cons(x: Span, rest: seq<Span>): seq<Span> {
    if rest != [] && RangeOf(x) == RangeOf(rest[0])
    then [Span(x.start, x.end, x.newText + rest[0].newText)] + rest[1..] else [x] + rest
  }

  function Merge(spans: seq<Span>): seq<Span> {
    if spans == [] then [] else Cons(spans[0], Merge(spans[1..]))
  }

  function Dedup(ranges: seq<Range>): seq<Range> {
    if ranges == [] then []
    else
      var rest := Dedup(ranges[1..]);
      if rest != [] && ranges[0] == rest[0] then rest else [ranges[0]] + rest
  }

  lemma {:induction false} MergedRanges(spans: seq<Span>)
    ensures Ranges(Merge(spans)) == Dedup(Ranges(spans))
  {
    if spans != [] {
      MergedRanges(spans[1..]);
      assert Ranges(spans)[1..] == Ranges(spans[1..]);
      var rest := Merge(spans[1..]);
      RangesCons(spans[0], rest);
      if rest != [] {
        assert rest == [rest[0]] + rest[1..];
        RangesCons(rest[0], rest[1..]);
        RangesCons(Span(spans[0].start, spans[0].end, spans[0].newText + rest[0].newText), rest[1..]);
      }
    }
  }

  /** One insert with both texts does what the two inserts do. */
  lemma ConsSplice(source: string, x: Span, rest: seq<Span>, from: nat)
    requires InOrder(source, [x] + rest, from)
    ensures InOrder(source, Cons(x, rest), from)
    ensures Splice(source, Cons(x, rest), from) == Splice(source, [x] + rest, from)
  {
    hide At, InText;
    if rest != [] && RangeOf(x) == RangeOf(rest[0]) {
      var y, more := rest[0], rest[1..];
      var z := Span(x.start, x.end, x.newText + y.newText);
      var i := At(source, x.start);
      assert ([x] + rest)[1..] == rest && ([z] + more)[1..] == more;
      InTextRange(source, x, z);
      assert source[i..i] == [];
      Together(source[from..i], x.newText, source[i..i], y.newText, Splice(source, more, At(source, y.end)));
    }
  }

  lemma InTextRange(source: string, x: Span, y: Span)
    requires RangeOf(x) == RangeOf(y)
    ensures InText(source, x) <==> InText(source, y)
  {
  }

  lemma Together(a: string, x: string, gap: string, y: string, rest: string)
    requires gap == []
    ensures a + x + (gap + y + rest) == a + (x + y) + rest
  {
    assert gap + y == y;
  }

  lemma SpliceStep(source: string, x: Span, rest: seq<Span>, from: nat)
    ensures InOrder(source, [x] + rest, from)
      <==> && InText(source, x) && from <= At(source, x.start) <= At(source, x.end)
           && InOrder(source, rest, At(source, x.end))
    ensures InOrder(source, [x] + rest, from) ==>
              Splice(source, [x] + rest, from)
              == source[from..At(source, x.start)] + x.newText + Splice(source, rest, At(source, x.end))
  {
    hide At, InText;
    assert ([x] + rest)[1..] == rest;
  }

  lemma {:induction false} MergedSplice(source: string, spans: seq<Span>, from: nat)
    requires InOrder(source, spans, from)
    ensures InOrder(source, Merge(spans), from) && Splice(source, Merge(spans), from) == Splice(source, spans, from)
    decreases |spans|
  {
    hide At, InText, InOrder, Splice, Cons;
    if spans != [] {
      var x, rest := spans[0], spans[1..];
      assert spans == [x] + rest;
      SpliceStep(source, x, rest, from);
      MergedSplice(source, rest, At(source, x.end));
      SpliceStep(source, x, Merge(rest), from);
      ConsSplice(source, x, Merge(rest), from);
    }
  }

  lemma {:induction false} DedupSame(ranges: seq<Range>)
    ensures forall r :: r in Dedup(ranges) <==> r in ranges
    ensures ranges != [] ==> Dedup(ranges) != [] && Dedup(ranges)[0] == ranges[0]
  {
    if ranges != [] {
      DedupSame(ranges[1..]);
      assert ranges == [ranges[0]] + ranges[1..];
    }
  }

  lemma NotAgain(ranges: seq<Range>)
    requires Rising(ranges) && |ranges| >= 2 && ranges[1] != ranges[0]
    ensures ranges[0] !in ranges[1..]
  {
    forall k | 1 <= k < |ranges| ensures ranges[k] != ranges[0] {
      assert AtMost(ranges[0], ranges[1]) && (k > 1 ==> AtMost(ranges[1], ranges[k]));
    }
  }

  /** In a sorted list no range comes back once another has begun. */
  lemma {:induction false} DedupStrict(ranges: seq<Range>)
    requires Rising(ranges) && ranges != []
    ensures ranges[0] !in Dedup(ranges)[1..]
  {
    hide Rising;
    var rest := ranges[1..];
    DedupSame(rest);
    if rest != [] {
      RisingRest(ranges);
      DedupStrict(rest);
      if rest[0] != ranges[0] { NotAgain(ranges); }
    }
  }

  /** Each merged span holds the texts of its range, one after the other. */
  lemma {:induction false} MergedTexts(spans: seq<Span>, k: nat)
    requires Rising(Ranges(spans)) && k < |Merge(spans)|
    ensures Merge(spans)[k].newText == Concat(Texts(spans, RangeOf(Merge(spans)[k])))
  {
    hide Rising, Ranges, Dedup, Merge, Texts;
    MergeStep(spans);
    var x, rest := spans[0], spans[1..];
    assert spans == [x] + rest;
    var merged := Merge(rest);
    RangesCons(x, rest);
    RisingParts(RangeOf(x), Ranges(rest));
    FirstRange(spans);
    var r := RangeOf(Merge(spans)[k]);
    TextsCons(x, rest, r);
    var joined := merged != [] && RangeOf(x) == RangeOf(merged[0]);
    if joined || k > 0 {
      MergedTexts(rest, if joined then k else k - 1);
    } else {
      NotInRest(x, rest);
      NoTexts(rest, r);
    }
    if k > 0 { assert Ranges(Merge(spans))[k] == Ranges(Merge(spans))[1..][k - 1]; }
  }

  lemma MergeStep(spans: seq<Span>)
    ensures spans == [] ==> Merge(spans) == []
    ensures spans != [] ==> Merge(spans) == Cons(spans[0], Merge(spans[1..]))
  {
  }

  lemma TextsCons(x: Span, rest: seq<Span>, r: Range)
    ensures Texts([x] + rest, r) == TextOf(x, r) + Texts(rest, r)
    ensures Concat(Texts([x] + rest, r)) == (if RangeOf(x) == r then x.newText else "") + Concat(Texts(rest, r))
    ensures Concat([]) == ""
  {
    assert ([x] + rest)[1..] == rest;
    var t := Texts(rest, r);
    assert ([x.newText] + t)[1..] == t && [] + t == t;
  }

  /** The first range of a sorted list is that of the first merged span, and of no other. */
  lemma FirstRange(spans: seq<Span>)
    requires spans != [] && Rising(Ranges(spans))
    ensures Merge(spans) != [] && RangeOf(Merge(spans)[0]) == RangeOf(spans[0])
    ensures forall k | 0 < k < |Merge(spans)| :: RangeOf(Merge(spans)[k]) != RangeOf(spans[0])
  {
    hide Rising, Dedup, Merge;
    MergedRanges(spans);
    DedupSame(Ranges(spans));
    DedupStrict(Ranges(spans));
    forall k | 0 < k < |Merge(spans)| ensures RangeOf(Merge(spans)[k]) != RangeOf(spans[0]) {
      assert Dedup(Ranges(spans))[k] == Dedup(Ranges(spans))[1..][k - 1];
    }
  }

  lemma NotInRest(x: Span, rest: seq<Span>)
    requires Rising(Ranges([x] + rest))
    requires Merge(rest) != [] ==> RangeOf(x) != RangeOf(Merge(rest)[0])
    ensures RangeOf(x) !in Ranges(rest)
  {
    hide Rising, Dedup, Merge;
    RangesCons(x, rest);
    RisingParts(RangeOf(x), Ranges(rest));
    if rest != [] {
      FirstRange(rest);
      NotAgain(Ranges([x] + rest));
    }
  }

  // ----- the two results

  lemma SplitEqual(a: string, x: string, r: string, y: string, s: string)
    requires |x| == |y|
    ensures a + x + r == a + y + s <==> x == y && r == s
  {
    if a + x + r == a + y + s {
      var t := a + x + r;
      assert t[|a|..|a| + |x|] == x && t[|a| + |x|..] == r;
      assert (a + y + s)[|a|..|a| + |y|] == y && (a + y + s)[|a| + |y|..] == s;
    }
  }

  lemma ConsEqual(x: Span, xs: seq<Span>, y: Span, ys: seq<Span>)
    ensures [x] + xs == [y] + ys <==> x == y && xs == ys
  {
    if [x] + xs == [y] + ys {
      assert ([x] + xs)[0] == x && ([y] + ys)[0] == y;
      assert ([x] + xs)[1..] == xs && ([y] + ys)[1..] == ys;
    }
  }

  predicate SameLengths(a: seq<Span>, b: seq<Span>) {
    |a| == |b| && forall k | 0 <= k < |a| :: |a[k].newText| == |b[k].newText|
  }

  /** Texts of the same lengths in the same places give the same result only if they are the same. */
  lemma {:induction false} SplicesDiffer(source: string, a: seq<Span>, b: seq<Span>, from: nat)
    requires InOrder(source, a, from) && Ranges(a) == Ranges(b) && SameLengths(a, b)
    ensures InOrder(source, b, from)
    ensures Splice(source, a, from) == Splice(source, b, from) <==> a == b
    decreases |a|
  {
    hide InOrder, Splice, InText, At, Ranges;
    if a != [] {
      var x, xs, y, ys := a[0], a[1..], b[0], b[1..];
      assert a == [x] + xs && b == [y] + ys;
      RangesCons(x, xs);
      RangesCons(y, ys);
      RangesSplit(RangeOf(x), Ranges(xs), RangeOf(y), Ranges(ys));
      SpliceStep(source, x, xs, from);
      SpliceStep(source, y, ys, from);
      InTextRange(source, x, y);
      SplicesDiffer(source, xs, ys, At(source, x.end));
      SplitEqual(source[from..At(source, x.start)], x.newText, Splice(source, xs, At(source, x.end)),
                 y.newText, Splice(source, ys, At(source, x.end)));
      ConsEqual(x, xs, y, ys);
    } else {
      SameEmpty(source, a, b, from);
    }
  }

  lemma SameEmpty(source: string, a: seq<Span>, b: seq<Span>, from: nat)
    requires a == [] && |b| == 0 && InOrder(source, a, from)
    ensures InOrder(source, b, from) && a == b
  {
  }

  lemma RangesSplit(x: Range, xs: seq<Range>, y: Range, ys: seq<Range>)
    requires [x] + xs == [y] + ys
    ensures x == y && xs == ys
  {
    assert ([x] + xs)[0] == x && ([y] + ys)[0] == y;
    assert ([x] + xs)[1..] == xs && ([y] + ys)[1..] == ys;
  }

  lemma {:induction false} InOrderByRanges(source: string, a: seq<Span>, b: seq<Span>, from: nat)
    requires InOrder(source, a, from) && Ranges(a) == Ranges(b)
    ensures InOrder(source, b, from)
    decreases |a|
  {
    hide InOrder, InText, At, Ranges;
    assert |a| == |b| by { SameCount(a, b); }
    if a != [] {
      var x, xs, y, ys := a[0], a[1..], b[0], b[1..];
      assert a == [x] + xs && b == [y] + ys;
      RangesCons(x, xs);
      RangesCons(y, ys);
      RangesSplit(RangeOf(x), Ranges(xs), RangeOf(y), Ranges(ys));
      SpliceStep(source, x, xs, from);
      SpliceStep(source, y, ys, from);
      InTextRange(source, x, y);
      InOrderByRanges(source, xs, ys, At(source, x.end));
    } else {
      SameEmpty(source, a, b, from);
    }
  }

  lemma SameCount(a: seq<Span>, b: seq<Span>)
    requires Ranges(a) == Ranges(b)
    ensures |a| == |b|
  {
  }

  /** The texts inserted at a position give the same text in array order and in reverse. */
  predicate Reversible(spans: seq<Span>, r: Range) {
    Concat(Texts(spans, r)) == Concat(Backwards(Texts(spans, r)))
  }

  /** Only inserts can have a range in common. */
  lemma {:induction false} TextsOfReplacement(source: string, spans: seq<Span>, from: nat, r: Range)
    requires InOrder(source, spans, from) && r.start < r.end
    ensures |Texts(spans, r)| <= 1
    ensures Boundary(source, r.start) && At(source, r.start) < from ==> Texts(spans, r) == []
    decreases |spans|
  {
    hide InText, At, Texts, Boundary;
    if spans != [] {
      var x, rest := spans[0], spans[1..];
      assert spans == [x] + rest;
      TextsCons(x, rest, r);
      SpliceStep(source, x, rest, from);
      TextsOfReplacement(source, rest, At(source, x.end), r);
      if RangeOf(x) == r { WideSpan(source, x); }
    } else {
      assert Texts([], r) == [] by { NoSpans(r); }
    }
  }

  lemma NoSpans(r: Range)
    ensures Texts([], r) == []
  {
  }

  lemma WideSpan(source: string, x: Span)
    requires InText(source, x) && x.start < x.end
    ensures Boundary(source, x.start) && At(source, x.start) < At(source, x.end)
  {
    hide IndexOfByte;
    var i, j := At(source, x.start), At(source, x.end);
    if j < i { PrefixLengths(source, j, i); }
  }

  lemma ShortReversible(texts: seq<string>)
    requires |texts| <= 1
    ensures Backwards(texts) == texts
  {
    if texts != [] { assert texts == [texts[0]]; }
  }

  /** The merged lists of both orders have the same ranges and lengths, and the texts of each position in
      the two orders. */
  lemma MergedAgree(spans: seq<Span>)
    ensures var a, b := Merge(Reverse(Sort(spans))), Merge(Ascending(spans));
            && Ranges(a) == Ranges(b) && SameLengths(a, b)
            && forall k | 0 <= k < |a| :: a[k].newText == b[k].newText <==> Reversible(spans, RangeOf(a[k]))
  {
    hide Sort, Ascending, Reverse, Merge, Dedup, Texts, Concat, Backwards, Rising;
    var d, u := Reverse(Sort(spans)), Ascending(spans);
    var a, b := Merge(d), Merge(u);
    OrdersAgree(spans);
    MergedRanges(d);
    MergedRanges(u);
    SameCount(a, b);
    forall k | 0 <= k < |a|
      ensures |a[k].newText| == |b[k].newText|
      ensures a[k].newText == b[k].newText <==> Reversible(spans, RangeOf(a[k]))
    {
      var r := RangeOf(a[k]);
      assert Ranges(a)[k] == Ranges(b)[k];
      MergedTexts(d, k);
      MergedTexts(u, k);
      SortedTexts(spans, r);
      ReversedTexts(Sort(spans), r);
      BackwardsLength(Texts(spans, r));
    }
  }

  lemma SpansEqual(a: seq<Span>, b: seq<Span>)
    requires Ranges(a) == Ranges(b)
    ensures a == b <==> |a| == |b| && forall k | 0 <= k < |a| :: a[k].newText == b[k].newText
  {
    SameCount(a, b);
    if forall k | 0 <= k < |a| :: a[k].newText == b[k].newText {
      forall k | 0 <= k < |a| ensures a[k] == b[k] { assert Ranges(a)[k] == Ranges(b)[k]; }
    }
  }

  /** A range that no span has is trivially reversible, and so is that of a replacement. */
  lemma OtherRanges(source: string, spans: seq<Span>, r: Range)
    requires InOrder(source, Reverse(Sort(spans)), 0)
    requires r.start != r.end || r !in Ranges(Merge(Reverse(Sort(spans))))
    requires r.start <= r.end || r !in Ranges(Merge(Reverse(Sort(spans))))
    ensures Reversible(spans, r)
  {
    hide Sort, Reverse, Merge, Dedup, Texts, Concat, Ranges, InOrder;
    var d := Reverse(Sort(spans));
    SortedTexts(spans, r);
    ReversedTexts(Sort(spans), r);
    if r in Ranges(Merge(d)) {
      TextsOfReplacement(source, d, 0, r);
    } else {
      MergedRanges(d);
      DedupSame(Ranges(d));
      NoTexts(d, r);
    }
    BackwardsCount(Texts(spans, r));
    ShortReversible(Texts(spans, r));
  }

  lemma {:induction false} BackwardsCount(texts: seq<string>)
    ensures |Backwards(texts)| == |texts|
  {
    if texts != [] { BackwardsCount(texts[1..]); }
  }

  /** The formatter applies the inserts at one position in reverse array order. For every accepted list
      of edits, its result is the one the protocol asks for, with such inserts in array order, if and
      only if at every position the inserted texts, one after the other, read the same in both
      orders. */
  lemma InsertsReversed(source: string, edits: seq<Edit>)
    requires SpansOf(source, edits).Some? && Disjoint(Sort(SpansOf(source, edits).value))
    ensures var spans := SpansOf(source, edits).value;
            && InOrder(source, Reverse(Sort(spans)), 0) && InOrder(source, Ascending(spans), 0)
            && (Splice(source, Reverse(Sort(spans)), 0) == Splice(source, Ascending(spans), 0)
                <==> forall p: nat :: Reversible(spans, Range(p, p)))
  {
    hide SpansOf, Sort, Ascending, Reverse, Merge, Splice, InOrder, Disjoint, InText, Reversible, Ranges, SameLengths;
    var spans := SpansOf(source, edits).value;
    var d, u := Reverse(Sort(spans)), Ascending(spans);
    SortedInText(source, edits);
    AcceptedInOrder(source, Sort(spans));
    OrdersAgree(spans);
    InOrderByRanges(source, d, u, 0);
    MergedSplice(source, d, 0);
    MergedSplice(source, u, 0);
    MergedAgree(spans);
    SplicesDiffer(source, Merge(d), Merge(u), 0);
    SpansEqual(Merge(d), Merge(u));
    SameCount(Merge(d), Merge(u));
    Positions(source, spans);
  }

  /** It suffices to look at the positions. */
  lemma Positions(source: string, spans: seq<Span>)
    requires InOrder(source, Reverse(Sort(spans)), 0)
    ensures AllReversible(spans, Merge(Reverse(Sort(spans)))) <==> forall p: nat :: Reversible(spans, Range(p, p))
  {
    hide Sort, Reverse, Merge, InOrder, Reversible, AllReversible;
    if AllReversible(spans, Merge(Reverse(Sort(spans)))) {
      forall p: nat ensures Reversible(spans, Range(p, p)) { PositionReversible(source, spans, p); }
    }
    if forall p: nat :: Reversible(spans, Range(p, p)) { PositionsSuffice(source, spans); }
  }

  predicate AllReversible(spans: seq<Span>, merged: seq<Span>) {
    forall k | 0 <= k < |merged| :: Reversible(spans, RangeOf(merged[k]))
  }

  lemma PositionReversible(source: string, spans: seq<Span>, p: nat)
    requires InOrder(source, Reverse(Sort(spans)), 0) && AllReversible(spans, Merge(Reverse(Sort(spans))))
    ensures Reversible(spans, Range(p, p))
  {
    hide Sort, Reverse, Merge, InOrder, Reversible;
    var r, merged := Range(p, p), Merge(Reverse(Sort(spans)));
    if r in Ranges(merged) {
      var k :| 0 <= k < |merged| && Ranges(merged)[k] == r;
      assert Reversible(spans, RangeOf(merged[k]));
    } else {
      OtherRanges(source, spans, r);
    }
  }

  lemma PositionsSuffice(source: string, spans: seq<Span>)
    requires InOrder(source, Reverse(Sort(spans)), 0) && forall p: nat :: Reversible(spans, Range(p, p))
    ensures AllReversible(spans, Merge(Reverse(Sort(spans))))
  {
    hide Sort, Reverse, Merge, InOrder, Reversible;
    var merged := Merge(Reverse(Sort(spans)));
    MergedInText(source, Reverse(Sort(spans)), 0);
    forall k | 0 <= k < |merged| ensures Reversible(spans, RangeOf(merged[k])) {
      var r := RangeOf(merged[k]);
      if r.start == r.end { assert Reversible(spans, Range(r.start, r.start)); } else { OtherRanges(source, spans, r); }
    }
  }

  lemma MergedInText(source: string, spans: seq<Span>, from: nat)
    requires InOrder(source, spans, from)
    ensures forall k | 0 <= k < |Merge(spans)| :: Merge(spans)[k].start <= Merge(spans)[k].end
  {
    hide Merge;
    MergedSplice(source, spans, from);
    RisingInText(source, Merge(spans), from);
  }

  lemma {:induction false} RisingInText(source: string, spans: seq<Span>, from: nat)
    requires InOrder(source, spans, from)
    ensures forall k | 0 <= k < |spans| :: spans[k].start <= spans[k].end
    decreases |spans|
  {
    if spans != [] { RisingInText(source, spans[1..], At(source, spans[0].end)); }
  }
}
