/** Version strings, their order, and the choice of a version override. */
module Version {
  import opened Order
  import opened Json
  import opened Decimal
  import opened Ascii

  const MAX: nat := 0xFFFF_FFFF_FFFF_FFFF

  datatype Part = Num(n: nat) | Text(s: string)

  // ----- tokens

  predicate IsAlphanumeric(c: char) { IsDigit(c) || IsLetter(c) }

  /** A string of digits only, or of letters only. */
  predicate Homogeneous(s: string, digit: bool) {
    forall c | c in s :: IsAlphanumeric(c) && IsDigit(c) == digit
  }

  function PartOf(s: string, digit: bool): Part
    requires Homogeneous(s, digit)
  {
    if digit then
      assert AllDigits(s);
      Num(if Decimal.Value(s) <= MAX then Decimal.Value(s) else MAX)
    else Text(Lower(s))
  }

  /** The length of the longest prefix of one kind of characters. */
  function RunLength(s: string, digit: bool): (n: nat)
    ensures n <= |s| && Homogeneous(s[..n], digit)
  {
    if s == [] || !IsAlphanumeric(s[0]) || IsDigit(s[0]) != digit then 0
    else
      var n := 1 + RunLength(s[1..], digit);
      assert s[..n] == [s[0]] + s[1..][..n - 1];
      n
  }

  /** The tokens of a version: its maximal runs of digits and of letters. */
  function Tokens(s: string): seq<Part>
    decreases |s|
  {
    if s == [] then []
    else if !IsAlphanumeric(s[0]) then Tokens(s[1..])
    else
      var n := RunLength(s, IsDigit(s[0]));
      [PartOf(s[..n], IsDigit(s[0]))] + Tokens(s[n..])
  }

  predicate Breaks(rest: string, digit: bool) {
    rest != [] ==> !IsAlphanumeric(rest[0]) || IsDigit(rest[0]) != digit
  }

  lemma {:induction false} RunEnds(run: string, rest: string, digit: bool)
    requires Homogeneous(run, digit) && Breaks(rest, digit)
    ensures RunLength(run + rest, digit) == |run|
  {
    if run == [] {
      assert run + rest == rest;
    } else {
      assert run[0] in run;
      assert (run + rest)[1..] == run[1..] + rest;
      RunEnds(run[1..], rest, digit);
    }
  }

  /** A complete run is one token. */
  lemma Flushed(run: string, rest: string, digit: bool)
    requires run != [] && Homogeneous(run, digit) && Breaks(rest, digit)
    ensures Tokens(run + rest) == [PartOf(run, digit)] + Tokens(rest)
  {
    hide PartOf, RunLength;
    RunEnds(run, rest, digit);
    assert run[0] in run;
    assert (run + rest)[..|run|] == run && (run + rest)[|run|..] == rest;
  }

  function TrimStart(s: string): string {
    if s != [] && s[0] == 'v' then TrimStart(s[1..]) else s
  }

  /** `tokenize_version`: the loop carries the current run and its kind. */
  method TokenizeVersion(version: string) returns (parts: seq<Part>)
    ensures parts == Tokens(TrimStart(version))
  {
    hide Tokens, TrimStart, PartOf, IsLetter, IsDigit;
    var trimmed := TrimStart(version);
    parts := [];
    var current: string, digit: Option<bool> := "", None;
    assert current + trimmed[0..] == trimmed;
    for k := 0 to |trimmed|
      invariant digit == None <==> current == []
      invariant digit.Some? ==> Homogeneous(current, digit.value)
      invariant parts + Tokens(current + trimmed[k..]) == Tokens(trimmed)
    {
      var c := trimmed[k];
      ghost var rest := trimmed[k + 1..];
      assert trimmed[k..] == [c] + rest;
      if !IsAlphanumeric(c) {
        parts, current, digit := PushVersionPart(parts, current, digit, [c] + rest);
        Skipped(c, rest);
        assert [] + ([c] + rest) == [c] + rest;
        assert [] + rest == rest;
        continue;
      }
      if digit.Some? && digit.value != IsDigit(c) {
        parts, current, digit := PushVersionPart(parts, current, digit, [c] + rest);
      }
      assert current + ([c] + rest) == (current + [c]) + rest;
      digit := Some(IsDigit(c));
      current := current + [c];
    }
    assert trimmed[|trimmed|..] == [];
    parts, current, digit := PushVersionPart(parts, current, digit, []);
    assert Tokens([]) == [] by { NoTokens(); }
    assert [] + [] == "";
  }

  lemma Skipped(c: char, rest: string)
    requires !IsAlphanumeric(c)
    ensures Tokens([c] + rest) == Tokens(rest)
  {
    assert ([c] + rest)[1..] == rest;
  }

  lemma NoTokens()
    ensures Tokens([]) == []
  {
  }

  /** `push_version_part`: finishes the run before the rest of the input. */
  method PushVersionPart(parts: seq<Part>, current: string, digit: Option<bool>, ghost rest: string)
    returns (parts': seq<Part>, current': string, digit': Option<bool>)
    requires digit == None <==> current == []
    requires digit.Some? ==> Homogeneous(current, digit.value) && Breaks(rest, digit.value)
    ensures current' == [] && digit' == None
    ensures parts' + Tokens([] + rest) == parts + Tokens(current + rest)
  {
    hide Tokens, PartOf, Homogeneous, Breaks;
    assert [] + rest == rest;
    if digit == None { return parts, [], None; }
    Flushed(current, rest, digit.value);
    parts' := parts + [PartOf(current, digit.value)];
    assert parts + ([PartOf(current, digit.value)] + Tokens(rest)) == parts' + Tokens(rest);
    return parts', [], None;
  }

  // ----- the order

  /** `compare_version_part`. */
  function ComparePart(left: Option<Part>, right: Option<Part>): Ordering
    decreases (if left == None then 1 else 0) + (if right == None then 1 else 0)
  {
    match (left, right)
    case (Some(Num(l)), Some(Num(r))) => CompareInt(l, r)
    case (Some(Text(l)), Some(Text(r))) => CompareString(l, r)
    case (Some(Num(l)), Some(Text(_))) => if l == 0 then Less else Greater
    case (Some(Text(_)), Some(Num(r))) => if r == 0 then Greater else Less
    case (Some(_), None) => ComparePart(left, Some(Num(0)))
    case (None, Some(_)) => ComparePart(Some(Num(0)), right)
    case (None, None) => Equal
  }

  function Head(parts: seq<Part>): Option<Part> {
    if parts == [] then None else Some(parts[0])
  }

  function Tail(parts: seq<Part>): seq<Part> {
    if parts == [] then [] else parts[1..]
  }

  function CompareTokens(a: seq<Part>, b: seq<Part>): Ordering
    decreases |a| + |b|
  {
    if a == [] && b == [] then Equal
    else
      var o := ComparePart(Head(a), Head(b));
      if o != Equal then o else CompareTokens(Tail(a), Tail(b))
  }

  function Drop(parts: seq<Part>, k: nat): seq<Part> {
    if k <= |parts| then parts[k..] else []
  }

  lemma DropNext(parts: seq<Part>, k: nat)
    ensures Drop(parts, k + 1) == Tail(Drop(parts, k))
    ensures Head(Drop(parts, k)) == if k < |parts| then Some(parts[k]) else None
  {
  }

  /** `compare_version_strings`: the first index at which the tokens differ decides. */
  method CompareVersionStrings(left: string, right: string) returns (r: Ordering)
    ensures r == Compare(left, right)
  {
    hide ComparePart, Drop, Head, Tail, Tokens, TrimStart;
    var a := TokenizeVersion(left);
    var b := TokenizeVersion(right);
    var n := if |a| >= |b| then |a| else |b|;
    assert Drop(a, 0) == a && Drop(b, 0) == b by { DropNone(a); DropNone(b); }
    for k := 0 to n
      invariant CompareTokens(Drop(a, k), Drop(b, k)) == CompareTokens(a, b)
    {
      var x, y := if k < |a| then Some(a[k]) else None, if k < |b| then Some(b[k]) else None;
      DropNext(a, k);
      DropNext(b, k);
      NotFinished(a, b, k);
      var o := ComparePart(x, y);
      if o != Equal { return o; }
    }
    Finished(a, n);
    Finished(b, n);
    return Equal;
  }

  lemma DropNone(parts: seq<Part>)
    ensures Drop(parts, 0) == parts
  {
  }

  lemma NotFinished(a: seq<Part>, b: seq<Part>, k: nat)
    requires k < |a| || k < |b|
    ensures Drop(a, k) != [] || Drop(b, k) != []
  {
  }

  lemma Finished(parts: seq<Part>, n: nat)
    requires n >= |parts|
    ensures Drop(parts, n) == []
  {
  }

  function Compare(left: string, right: string): Ordering {
    CompareTokens(Tokens(TrimStart(left)), Tokens(TrimStart(right)))
  }

  predicate PartLeq(a: Option<Part>, b: Option<Part>) { ComparePart(a, b) != Greater }

  lemma PartReverse(a: Option<Part>, b: Option<Part>)
    ensures ComparePart(b, a) == ComparePart(a, b).Reverse()
  {
    if a.Some? && b.Some? && a.value.Text? && b.value.Text? { CompareReverse(a.value.s, b.value.s); }
  }

  lemma PartEqual(a: Option<Part>, b: Option<Part>)
    ensures ComparePart(a, b) == Equal <==> Padded(a) == Padded(b)
  {
  }

  function Padded(a: Option<Part>): Part {
    if a.Some? then a.value else Num(0)
  }

  lemma PartPadded(a: Option<Part>, b: Option<Part>)
    ensures ComparePart(a, b) == ComparePart(Some(Padded(a)), Some(Padded(b)))
  {
  }

  /** Zero, then the texts in their order, then the positive numbers. */
  lemma PartTransitive(a: Option<Part>, b: Option<Part>, c: Option<Part>)
    requires PartLeq(a, b) && PartLeq(b, c)
    ensures PartLeq(a, c)
    ensures ComparePart(a, c) == Equal ==> ComparePart(a, b) == Equal && ComparePart(b, c) == Equal
  {
    hide CompareString;
    PartPadded(a, b);
    PartPadded(b, c);
    PartPadded(a, c);
    PartTransitive'(Padded(a), Padded(b), Padded(c));
  }

  lemma PartTransitive'(a: Part, b: Part, c: Part)
    requires PartLeq(Some(a), Some(b)) && PartLeq(Some(b), Some(c))
    ensures PartLeq(Some(a), Some(c))
    ensures ComparePart(Some(a), Some(c)) == Equal ==>
              ComparePart(Some(a), Some(b)) == Equal && ComparePart(Some(b), Some(c)) == Equal
  {
    hide CompareString;
    if a.Text? && b.Text? && c.Text? { StringTransitive(a.s, b.s, c.s); }
  }

  predicate TokensLeq(a: seq<Part>, b: seq<Part>) { CompareTokens(a, b) != Greater }

  lemma {:induction false} TokensReverse(a: seq<Part>, b: seq<Part>)
    ensures CompareTokens(b, a) == CompareTokens(a, b).Reverse()
    decreases |a| + |b|
  {
    hide ComparePart;
    if a != [] || b != [] {
      PartReverse(Head(a), Head(b));
      TokensReverse(Tail(a), Tail(b));
    }
  }

  lemma {:induction false} TokensTransitive(a: seq<Part>, b: seq<Part>, c: seq<Part>)
    requires TokensLeq(a, b) && TokensLeq(b, c)
    ensures TokensLeq(a, c)
    decreases |a| + |b| + |c|
  {
    hide ComparePart;
    if a != [] || b != [] || c != [] {
      NothingEqual();
      PartTransitive(Head(a), Head(b), Head(c));
      if ComparePart(Head(a), Head(c)) == Equal {
        TokensTransitive(Tail(a), Tail(b), Tail(c));
      }
    }
  }

  lemma NothingEqual()
    ensures ComparePart(None, None) == Equal && Head([]) == None && Tail([]) == []
  {
  }

  /** Trailing zeros do not count. */
  function Trimmed(parts: seq<Part>): seq<Part> {
    if parts != [] && parts[|parts| - 1] == Num(0) then Trimmed(parts[..|parts| - 1]) else parts
  }

  lemma {:induction false} TrimmedCons(parts: seq<Part>)
    ensures Trimmed(parts) == if Padded(Head(parts)) == Num(0) && Trimmed(Tail(parts)) == [] then []
            else [parts[0]] + Trimmed(Tail(parts))
  {
    if parts != [] {
      var last := parts[|parts| - 1];
      if |parts| == 1 {
        assert parts[..0] == [] && parts[1..] == [];
      } else if last == Num(0) {
        var front := parts[..|parts| - 1];
        TrimmedCons(front);
        assert front[1..] == parts[1..][..|parts| - 2];
      } else {
        assert parts == [parts[0]] + parts[1..];
      }
    }
  }

  /** Versions are equal exactly when their tokens agree up to trailing zeros. */
  lemma {:induction false} TokensEqual(a: seq<Part>, b: seq<Part>)
    ensures CompareTokens(a, b) == Equal <==> Trimmed(a) == Trimmed(b)
    decreases |a| + |b|
  {
    hide ComparePart, Trimmed;
    NothingTrimmed();
    if a != [] || b != [] {
      TrimmedCons(a);
      TrimmedCons(b);
      PartEqual(Head(a), Head(b));
      TokensEqual(Tail(a), Tail(b));
      ConsEqual(Padded(Head(a)), Trimmed(Tail(a)), Padded(Head(b)), Trimmed(Tail(b)));
    }
  }

  lemma ConsEqual(x: Part, xs: seq<Part>, y: Part, ys: seq<Part>)
    ensures [x] + xs == [y] + ys <==> x == y && xs == ys
  {
    if [x] + xs == [y] + ys {
      assert ([x] + xs)[0] == ([y] + ys)[0] && ([x] + xs)[1..] == ([y] + ys)[1..];
    }
  }

  lemma NothingTrimmed()
    ensures Trimmed([]) == []
  {
  }

  predicate AtMost(a: string, b: string) { Compare(a, b) != Greater }

  /** The order on version strings is a total preorder, across any numbers of tokens. */
  lemma TotalPreorder(a: string, b: string, c: string)
    ensures AtMost(a, a)
    ensures AtMost(a, b) || AtMost(b, a)
    ensures Compare(b, a) == Compare(a, b).Reverse()
    ensures AtMost(a, b) && AtMost(b, c) ==> AtMost(a, c)
    ensures Compare(a, b) == Equal <==> Trimmed(Tokens(TrimStart(a))) == Trimmed(Tokens(TrimStart(b)))
  {
    hide Tokens, TrimStart, CompareTokens, Trimmed;
    var x, y, z := Tokens(TrimStart(a)), Tokens(TrimStart(b)), Tokens(TrimStart(c));
    TokensReverse(x, y);
    TokensEqual(x, y);
    TokensEqual(x, x);
    if AtMost(a, b) && AtMost(b, c) { TokensTransitive(x, y, z); }
  }

  // ----- overrides

  function StripPrefix(s: string, p: string): Option<string> {
    if p <= s then Some(s[|p|..]) else None
  }

  function UpperBound(constraint: string): Option<string> {
    match StripPrefix(constraint, "semver:")
    case None => None
    case Some(v) => StripPrefix(v, "<=")
  }

  predicate MatchesConstraint(version: string, constraint: string) {
    UpperBound(constraint).Some? && AtMost(version, UpperBound(constraint).value)
  }

  /** What a constraint admits is closed downwards. */
  lemma MatchesDownward(version: string, lower: string, constraint: string)
    requires MatchesConstraint(version, constraint) && AtMost(lower, version)
    ensures MatchesConstraint(lower, constraint)
  {
    hide AtMost, UpperBound, Compare;
    TotalPreorder(lower, version, UpperBound(constraint).value);
  }

  function UntilAny(s: string, stops: string): string {
    if s == [] || s[0] in stops then [] else [s[0]] + UntilAny(s[1..], stops)
  }

  /** What follows the last occurrence of a character. */
  function AfterLast(s: string, c: char): Option<string> {
    if s == [] then None
    else
      var r := AfterLast(s[1..], c);
      if r.Some? then r else if s[0] == c then Some(s[1..]) else None
  }

  /** `source_id_version`. */
  function SourceIdVersion(id: string): Option<string> {
    match StripPrefix(id, "pkg:")
    case None => None
    case Some(v) => AfterLast(UntilAny(v, "?#"), '@')
  }

  datatype Override = Override(constraint: string, id: string, supportedPlatforms: Option<seq<string>>,
                               extraPackages: Option<seq<string>>, asset: Option<string>, download: Option<string>)

  /** The override that applies: it matches, no matching one has a smaller bound, and those with
      an equal bound come after it. */
  predicate Applies(version: string, overrides: seq<Override>, k: nat)
    requires k < |overrides|
  {
    && Bounded(version, overrides[k])
    && (forall m | 0 <= m < |overrides| && Bounded(version, overrides[m]) :: BoundLeq(overrides[k], overrides[m]))
    && (forall m | 0 <= m < k && Bounded(version, overrides[m]) :: !BoundLeq(overrides[m], overrides[k]))
  }

  predicate Bounded(version: string, o: Override) { MatchesConstraint(version, o.constraint) }

  function CompareVersions(left: Option<string>, right: Option<string>): Ordering {
    match (left, right)
    case (Some(l), Some(r)) => Compare(l, r)
    case (Some(_), None) => Greater
    case (None, Some(_)) => Less
    case (None, None) => Equal
  }

  predicate BoundLeq(a: Override, b: Override) {
    CompareVersions(UpperBound(a.constraint), UpperBound(b.constraint)) != Greater
  }

  lemma BoundOrder(a: Override, b: Override, c: Override)
    ensures BoundLeq(a, b) || BoundLeq(b, a)
    ensures BoundLeq(a, b) && BoundLeq(b, c) ==> BoundLeq(a, c)
  {
    hide UpperBound, Compare;
    var x, y, z := UpperBound(a.constraint), UpperBound(b.constraint), UpperBound(c.constraint);
    if x.Some? && y.Some? { TotalPreorder(x.value, y.value, if z.Some? then z.value else y.value); }
  }

  /** At most one override applies. */
  lemma AppliesOnce(version: string, overrides: seq<Override>, j: nat, k: nat)
    requires j < |overrides| && k < |overrides| && Applies(version, overrides, j) && Applies(version, overrides, k)
    ensures j == k
  {
  }

  class Source {
    var id: string
    var supportedPlatforms: Option<seq<string>>
    var extraPackages: seq<string>
    var asset: Option<string>
    var download: Option<string>
    var versionOverrides: seq<Override>

    /** `apply_version_overrides`. */
    method ApplyVersionOverrides() returns (ok: bool)
      modifies this
      ensures ok <==> SourceIdVersion(old(id)).Some?
      ensures versionOverrides == old(versionOverrides)
      ensures ok && (exists m | 0 <= m < |versionOverrides| ::
                       Bounded(SourceIdVersion(old(id)).value, versionOverrides[m])) ==>
                exists k | 0 <= k < |versionOverrides| ::
                  && Applies(SourceIdVersion(old(id)).value, versionOverrides, k)
                  && Recipe(versionOverrides[k], old(extraPackages), old(asset), old(download))
      ensures (!ok || forall m | 0 <= m < |versionOverrides| ::
                 !Bounded(SourceIdVersion(old(id)).value, versionOverrides[m])) ==>
                && id == old(id) && supportedPlatforms == old(supportedPlatforms)
                && extraPackages == old(extraPackages) && asset == old(asset) && download == old(download)
    {
      hide SourceIdVersion, Bounded, Applies;
      var version := SourceIdVersion(id);
      if version == None { return false; }
      var k := ChooseOverride(version.value, versionOverrides);
      if k == None { return true; }
      var o := versionOverrides[k.value];
      id := o.id;
      supportedPlatforms := o.supportedPlatforms;
      if o.extraPackages.Some? { extraPackages := o.extraPackages.value; }
      if o.asset.Some? { asset := o.asset; }
      if o.download.Some? { download := o.download; }
      return true;
    }

    /** The recipe of an override: its own id and platforms, and of the rest what it states. */
    predicate Recipe(o: Override, extra: seq<string>, oldAsset: Option<string>, oldDownload: Option<string>)
      reads this
    {
      && id == o.id && supportedPlatforms == o.supportedPlatforms
      && extraPackages == (if o.extraPackages.Some? then o.extraPackages.value else extra)
      && asset == (if o.asset.Some? then o.asset else oldAsset)
      && download == (if o.download.Some? then o.download else oldDownload)
    }
  }

  /** The filter and the `min_by` over the overrides. */
  method ChooseOverride(version: string, overrides: seq<Override>) returns (r: Option<nat>)
    ensures r == None <==> forall m | 0 <= m < |overrides| :: !Bounded(version, overrides[m])
    ensures r.Some? ==> r.value < |overrides| && Applies(version, overrides, r.value)
  {
    hide Bounded, BoundLeq;
    r := None;
    for k := 0 to |overrides|
      invariant r == None <==> forall m | 0 <= m < k :: !Bounded(version, overrides[m])
      invariant r.Some? ==> r.value < k && Applies(version, overrides[..k], r.value)
    {
      ghost var before := r;
      if Bounded(version, overrides[k]) && (r == None || !BoundLeq(overrides[r.value], overrides[k])) {
        r := Some(k);
      }
      NextApplies(version, overrides, k, before, r);
    }
    assert overrides[..|overrides|] == overrides;
  }

  lemma NextApplies(version: string, overrides: seq<Override>, k: nat, r: Option<nat>, r': Option<nat>)
    requires k < |overrides|
    requires r == None <==> forall m | 0 <= m < k :: !Bounded(version, overrides[m])
    requires r.Some? ==> r.value < k && Applies(version, overrides[..k], r.value)
    requires r' == if Bounded(version, overrides[k]) && (r == None || !BoundLeq(overrides[r.value], overrides[k]))
             then Some(k) else r
    ensures r'.Some? ==> Applies(version, overrides[..k + 1], r'.value)
  {
    hide Bounded, BoundLeq;
    var some := overrides[..k + 1];
    assert forall m | 0 <= m < k :: some[m] == overrides[..k][m] == overrides[m];
    forall m: nat, l: nat, n: nat | m < |overrides| && l < |overrides| && n < |overrides|
      ensures BoundLeq(overrides[m], overrides[l]) || BoundLeq(overrides[l], overrides[m])
      ensures BoundLeq(overrides[m], overrides[l]) && BoundLeq(overrides[l], overrides[n]) ==>
                BoundLeq(overrides[m], overrides[n])
    {
      BoundOrder(overrides[m], overrides[l], overrides[n]);
    }
  }
}
