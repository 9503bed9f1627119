/** Finding the symbol whose whole text is wanted, in the tree of document symbols. */
module Symbols {
  import opened Json
  import opened Text

  datatype Range = Range(start: Position, end: Position)

  datatype Symbol = Symbol(name: string, range: Range, selectionStart: Position, children: seq<Symbol>)

  datatype Target = Target(name: Option<string>, position: Position)

  /** A match: how large it is, and which range to cut out. */
  datatype Found = Found(size: nat, range: Range)

  predicate AtMost(p: Position, q: Position) { p == q || Before(p, q) }

  function Minus(a: nat, b: nat): nat { if b <= a then a - b else 0 }

  /** `size_hint`. */
  function SizeHint(range: Range): nat {
    Minus(range.end.line, range.start.line) * 1_000_000 + Minus(range.end.column, range.start.column)
  }

  predicate ContainsAnchor(range: Range, position: Position) {
    AtMost(range.start, position) && AtMost(position, range.end)
  }

  predicate DirectMatch(symbol: Symbol, target: Target) {
    && (target.name.Some? ==> symbol.name == target.name.value)
    && (symbol.selectionStart == target.position || ContainsAnchor(symbol.range, target.position))
  }

  /** The first of the smallest elements, as `min_by_key` finds it. */
  function Smaller(a: Option<Found>, b: Option<Found>): Option<Found> {
    if a == None then b
    else if b == None then a
    else if a.value.size <= b.value.size then a
    else b
  }

  function FirstLeast(founds: seq<Found>): Option<Found> {
    if founds == [] then None
    else Smaller(FirstLeast(founds[..|founds| - 1]), Some(founds[|founds| - 1]))
  }

  function Direct(symbol: Symbol, target: Target): Option<Found> {
    if DirectMatch(symbol, target) then Some(Found(SizeHint(symbol.range), symbol.range)) else None
  }

  /** `matching_document_symbol_content`. */
  function Search(symbol: Symbol, target: Target): Option<Found>
    decreases symbol, 2
  {
    Smaller(Direct(symbol, target), SearchAll(symbol.children, target))
  }

  /** The smallest of the matches of each of a list of symbols. */
  function SearchAll(symbols: seq<Symbol>, target: Target): Option<Found>
    decreases symbols, 1
  {
    FirstLeast(FilterMap(symbols, target))
  }

  function FilterMap(symbols: seq<Symbol>, target: Target): seq<Found>
    decreases symbols, 0
  {
    if symbols == [] then []
    else AsSeq(Search(symbols[0], target)) + FilterMap(symbols[1..], target)
  }

  function AsSeq(x: Option<Found>): seq<Found> {
    if x.Some? then [x.value] else []
  }

  // ----- what it means

  /** A forest in the order in which it is written down. */
  function Preorder(symbols: seq<Symbol>): seq<Symbol> {
    if symbols == [] then []
    else [symbols[0]] + Preorder(symbols[0].children) + Preorder(symbols[1..])
  }

  function Matches(symbols: seq<Symbol>, target: Target): seq<Found> {
    if symbols == [] then []
    else AsSeq(Direct(symbols[0], target)) + Matches(symbols[1..], target)
  }

  lemma MatchesStep(symbols: seq<Symbol>, target: Target)
    ensures symbols == [] ==> Matches(symbols, target) == []
    ensures symbols != [] ==>
              Matches(symbols, target) == AsSeq(Direct(symbols[0], target)) + Matches(symbols[1..], target)
  {
  }

  lemma {:induction false} MatchesSplit(a: seq<Symbol>, b: seq<Symbol>, target: Target)
    ensures Matches(a + b, target) == Matches(a, target) + Matches(b, target)
  {
    hide Matches, Direct, AsSeq;
    MatchesStep(a, target);
    if a == [] {
      assert a + b == b;
    } else {
      MatchesSplit(a[1..], b, target);
      MatchesStep(a + b, target);
      assert (a + b)[1..] == a[1..] + b;
    }
  }

  lemma {:induction false} FirstLeastSplit(a: seq<Found>, b: seq<Found>)
    ensures FirstLeast(a + b) == Smaller(FirstLeast(a), FirstLeast(b))
  {
    if b == [] {
      assert a + b == a;
    } else {
      FirstLeastSplit(a, b[..|b| - 1]);
      assert (a + b)[..|a + b| - 1] == a + b[..|b| - 1];
    }
  }

  lemma FirstLeastOne(x: Option<Found>)
    ensures FirstLeast(AsSeq(x)) == x
  {
  }

  predicate FirstAt(founds: seq<Found>, k: nat)
    requires k < |founds|
  {
    && (forall m | 0 <= m < |founds| :: founds[k].size <= founds[m].size)
    && (forall m | 0 <= m < k :: founds[k].size < founds[m].size)
  }

  /** `FirstLeast` without its fold: the one element that is as small as any, and smaller than all
      before it. */
  lemma {:induction false} FirstLeastIs(founds: seq<Found>)
    requires founds != []
    ensures FirstLeast(founds).Some?
    ensures exists k | 0 <= k < |founds| :: FirstLeast(founds) == Some(founds[k]) && FirstAt(founds, k)
  {
    var front := founds[..|founds| - 1];
    if front == [] {
      assert FirstAt(founds, 0);
    } else {
      FirstLeastIs(front);
      var k :| 0 <= k < |front| && FirstLeast(front) == Some(front[k]) && FirstAt(front, k);
      assert FirstAt(founds, if front[k].size <= founds[|founds| - 1].size then k else |founds| - 1);
    }
  }

  /** The recursive search returns the first of the smallest matches of the whole forest in the
      order in which it is written down. */
  lemma {:induction false} SearchIsFirstLeast(symbols: seq<Symbol>, target: Target)
    ensures SearchAll(symbols, target) == FirstLeast(Matches(Preorder(symbols), target))
  {
    if symbols != [] {
      var first, rest := symbols[0], symbols[1..];
      SearchIsFirstLeast(first.children, target);
      SearchIsFirstLeast(rest, target);
      var own, below, after := AsSeq(Direct(first, target)), Matches(Preorder(first.children), target),
        Matches(Preorder(rest), target);
      assert [first][1..] == [] && Matches([first], target) == own;
      MatchesSplit([first] + Preorder(first.children), Preorder(rest), target);
      MatchesSplit([first], Preorder(first.children), target);
      FirstLeastSplit(own + below, after);
      FirstLeastSplit(own, below);
      FirstLeastOne(Direct(first, target));
      FirstLeastSplit(AsSeq(Search(first, target)), FilterMap(rest, target));
      FirstLeastOne(Search(first, target));
    }
  }

  // ----- sizes

  predicate Ordered(range: Range) { AtMost(range.start, range.end) }

  predicate Inside(inner: Range, outer: Range) {
    AtMost(outer.start, inner.start) && AtMost(inner.end, outer.end)
  }

  predicate Narrow(range: Range, width: nat) {
    range.start.column <= width && range.end.column <= width
  }

  predicate SizesAgree(inner: Range, outer: Range) { SizeHint(inner) <= SizeHint(outer) }

  /** The size of a range is monotone under containment as long as no column exceeds a million,
      and for no larger limit. */
  lemma SizeIsMonotone(width: nat)
    ensures width <= 1_000_000
       <==> forall inner: Range, outer: Range | Ordered(inner) && Inside(inner, outer) && Narrow(inner, width)
         && Narrow(outer, width) ::
              SizesAgree(inner, outer)
  {
    if width <= 1_000_000 {
      forall inner: Range, outer: Range | Ordered(inner) && Inside(inner, outer) && Narrow(inner, width)
        && Narrow(outer, width)
        ensures SizesAgree(inner, outer)
      {
      }
    } else {
      var inner := Range(Position(0, 0), Position(0, width));
      var outer := Range(Position(0, 0), Position(1, 0));
      assert Ordered(inner) && Inside(inner, outer) && Narrow(inner, width) && Narrow(outer, width);
      assert !SizesAgree(inner, outer);
    }
  }

  predicate Fits(found: Found) {
    found.size == SizeHint(found.range) && Ordered(found.range) && Narrow(found.range, 1_000_000)
  }

  /** So the symbol that is chosen is an innermost one: every other match inside it is of the same
      size, and none that encloses it is smaller. */
  lemma ChosenIsInnermost(symbols: seq<Symbol>, target: Target, k: nat)
    requires var all := Matches(Preorder(symbols), target);
             k < |all| && forall m | 0 <= m < |all| :: Fits(all[m])
    ensures var all := Matches(Preorder(symbols), target);
            && SearchAll(symbols, target).Some?
            && var chosen := SearchAll(symbols, target).value;
               chosen.size <= all[k].size && (Inside(all[k].range, chosen.range) ==> all[k].size == chosen.size)
  {
    hide Matches, Preorder, SearchAll, FirstLeast, SizeHint, Ordered, Inside, Narrow;
    var all := Matches(Preorder(symbols), target);
    SearchIsFirstLeast(symbols, target);
    FirstLeastIs(all);
    var c :| 0 <= c < |all| && FirstLeast(all) == Some(all[c]) && FirstAt(all, c);
    assert Fits(all[c]) && Fits(all[k]);
    SizeIsMonotone(1_000_000);
    if Inside(all[k].range, all[c].range) { assert SizesAgree(all[k].range, all[c].range); }
  }

  // ----- what is found

  /** What a search asks for: the name, if there is one, and a position that the symbol is selected at or
      that lies in its range, the end included. */
  predicate Wanted(symbol: Symbol, target: Target) {
    && (target.name == None || target.name == Some(symbol.name))
    && (target.position == symbol.selectionStart
        || !(Before(target.position, symbol.range.start) || Before(symbol.range.end, target.position)))
  }

  lemma WantedMatches(symbol: Symbol, target: Target)
    ensures Direct(symbol, target)
         == if Wanted(symbol, target) then Some(Found(SizeHint(symbol.range), symbol.range)) else None
  {
  }

  /** The first of the smallest symbols that are wanted. */
  predicate Best(symbols: seq<Symbol>, target: Target, k: nat)
    requires k < |symbols|
  {
    && Wanted(symbols[k], target)
    && (forall m | 0 <= m < |symbols| && Wanted(symbols[m], target) ::
          SizeHint(symbols[k].range) <= SizeHint(symbols[m].range))
    && (forall m | 0 <= m < k && Wanted(symbols[m], target) ::
          SizeHint(symbols[k].range) < SizeHint(symbols[m].range))
  }

  predicate IsBest(symbols: seq<Symbol>, target: Target, found: Option<Found>) {
    if found == None then forall k | 0 <= k < |symbols| :: !Wanted(symbols[k], target)
    else
      exists k | 0 <= k < |symbols| ::
        Best(symbols, target, k) && found.value == Found(SizeHint(symbols[k].range), symbols[k].range)
  }

  lemma {:induction false} LeastIsBest(symbols: seq<Symbol>, target: Target)
    ensures IsBest(symbols, target, FirstLeast(Matches(symbols, target)))
  {
    hide Wanted, SizeHint, Matches, Direct, FirstLeast, IsBest;
    MatchesStep(symbols, target);
    NothingFirst();
    if symbols == [] {
      NoneBest(target);
    } else {
      var first, rest := symbols[0], symbols[1..];
      LeastIsBest(rest, target);
      WantedMatches(first, target);
      FirstLeastSplit(AsSeq(Direct(first, target)), Matches(rest, target));
      FirstLeastOne(Direct(first, target));
      BestCons(first, rest, target, FirstLeast(Matches(rest, target)));
      assert symbols == [first] + rest;
    }
  }

  lemma NoneBest(target: Target)
    ensures IsBest([], target, None)
  {
  }

  lemma BestCons(first: Symbol, rest: seq<Symbol>, target: Target, found: Option<Found>)
    requires IsBest(rest, target, found)
    ensures IsBest([first] + rest, target, Smaller(Direct(first, target), found))
  {
    hide Wanted, SizeHint, Direct;
    WantedMatches(first, target);
    var all := [first] + rest;
    assert forall k | 0 <= k < |rest| :: all[k + 1] == rest[k];
    var best := Smaller(Direct(first, target), found);
    if Wanted(first, target) && best == Direct(first, target) {
      assert Best(all, target, 0);
    } else if found.Some? {
      var k :| 0 <= k < |rest| && Best(rest, target, k) && found.value == Found(SizeHint(rest[k].range), rest[k].range);
      assert Best(all, target, k + 1);
    }
  }

  /** The search finds the first of the smallest symbols that are wanted, in the order in which the tree
      is written down, and nothing exactly if none is. */
  lemma FindsBest(symbols: seq<Symbol>, target: Target)
    ensures IsBest(Preorder(symbols), target, SearchAll(symbols, target))
  {
    hide Matches, Preorder, FirstLeast, SearchAll, IsBest;
    SearchIsFirstLeast(symbols, target);
    LeastIsBest(Preorder(symbols), target);
  }

  lemma NothingFirst()
    ensures FirstLeast([]) == None
  {
  }
}
