/** Which version is the newer one: the order on version strings in terms of the numbers and words
    in them, and what follows for the choice of an override. */
module Releases {
  import opened Json
  import opened Order
  import opened Decimal
  import opened Version

  // ----- tokens

  /** `l` comes before `r` in a dictionary: it is a beginning of `r`, or its character at the first
      difference is the smaller one. */
  ghost predicate Earlier(l: string, r: string) {
    exists k: nat :: DiffersAt(l, r, k)
  }

  predicate DiffersAt(l: string, r: string, k: nat) {
    k <= |l| && k < |r| && l[..k] == r[..k] && (k == |l| || l[k] < r[k])
  }

  /** Zero, then words in dictionary order, then the positive numbers by size. */
  ghost predicate Lower(x: Part, y: Part) {
    match (x, y)
    case (Num(l), Num(r)) => l < r
    case (Text(l), Text(r)) => Earlier(l, r)
    case (Num(l), Text(_)) => l == 0
    case (Text(_), Num(r)) => r > 0
  }

  /** The token at an index, where missing ones count as zero. */
  function TokenAt(parts: seq<Part>, i: nat): Part {
    if i < |parts| then parts[i] else Num(0)
  }

  /** The first tokens that differ decide, in favour of the lower one. */
  ghost predicate LowerAt(a: seq<Part>, b: seq<Part>, k: nat) {
    Lower(TokenAt(a, k), TokenAt(b, k)) && forall i: nat | i < k :: TokenAt(a, i) == TokenAt(b, i)
  }

  lemma {:induction false} StringsLess(l: string, r: string)
    ensures CompareString(l, r) == Less <==> Earlier(l, r)
  {
    if l != [] && r != [] && l[0] == r[0] {
      StringsLess(l[1..], r[1..]);
      if Earlier(l[1..], r[1..]) {
        var k: nat :| DiffersAt(l[1..], r[1..], k);
        assert l[..k + 1] == [l[0]] + l[1..][..k] && r[..k + 1] == [r[0]] + r[1..][..k];
        assert DiffersAt(l, r, k + 1);
      }
      if Earlier(l, r) {
        var k: nat :| DiffersAt(l, r, k);
        assert k > 0;
        assert l[1..][..k - 1] == l[..k][1..] && r[1..][..k - 1] == r[..k][1..];
        assert DiffersAt(l[1..], r[1..], k - 1);
      }
    } else {
      if CompareString(l, r) == Less { assert DiffersAt(l, r, 0); }
      forall k: nat | DiffersAt(l, r, k) ensures DiffersAt(l, r, 0) { SameFirst(l, r, k); }
    }
  }

  lemma SameFirst(l: string, r: string, k: nat)
    requires DiffersAt(l, r, k)
    ensures k > 0 ==> l != [] && r != [] && l[0] == r[0]
  {
    if k > 0 { assert l[0] == l[..k][0] && r[0] == r[..k][0]; }
  }

  lemma PartsLess(a: Option<Part>, b: Option<Part>)
    ensures ComparePart(a, b) == Less <==> Lower(Padded(a), Padded(b))
  {
    hide Earlier;
    var x, y := Padded(a), Padded(b);
    PartPadded(a, b);
    if x.Text? && y.Text? { StringsLess(x.s, y.s); }
  }

  /** A version is less than another exactly if, at the first tokens that differ, its token is the
      lower one. */
  lemma {:induction false} TokensLess(a: seq<Part>, b: seq<Part>)
    ensures CompareTokens(a, b) == Less <==> exists k: nat :: LowerAt(a, b, k)
    decreases |a| + |b|
  {
    hide ComparePart, Lower;
    if a == [] && b == [] {
      NothingLower();
    } else {
      TokensAt(a);
      TokensAt(b);
      PartsLess(Head(a), Head(b));
      PartEqual(Head(a), Head(b));
      if TokenAt(a, 0) == TokenAt(b, 0) {
        TokensLess(Tail(a), Tail(b));
        if exists k: nat :: LowerAt(Tail(a), Tail(b), k) {
          var k: nat :| LowerAt(Tail(a), Tail(b), k);
          forall i: nat | i < k + 1 ensures TokenAt(a, i) == TokenAt(b, i) {
            if i > 0 { assert TokenAt(Tail(a), i - 1) == TokenAt(Tail(b), i - 1); }
          }
          assert LowerAt(a, b, k + 1);
        }
        if exists k: nat :: LowerAt(a, b, k) {
          var k: nat :| LowerAt(a, b, k);
          NotLower(TokenAt(a, 0));
          assert k > 0;
          forall i: nat | i < k - 1 ensures TokenAt(Tail(a), i) == TokenAt(Tail(b), i) {
            assert TokenAt(a, i + 1) == TokenAt(b, i + 1);
          }
          assert LowerAt(Tail(a), Tail(b), k - 1);
        }
      } else {
        if Lower(TokenAt(a, 0), TokenAt(b, 0)) { assert LowerAt(a, b, 0); }
        if exists k: nat :: LowerAt(a, b, k) {
          var k: nat :| LowerAt(a, b, k);
          assert k == 0;
        }
      }
    }
  }

  lemma TokensAt(a: seq<Part>)
    ensures TokenAt(a, 0) == Padded(Head(a))
    ensures forall i: nat :: TokenAt(Tail(a), i) == TokenAt(a, i + 1)
  {
  }

  lemma NotLower(x: Part)
    ensures !Lower(x, x)
  {
    if x.Text? {
      forall k: nat ensures !DiffersAt(x.s, x.s, k) {}
    }
  }

  lemma NothingLower()
    ensures CompareTokens([], []) == Equal && !exists k: nat :: LowerAt([], [], k)
  {
  }

  // ----- strings

  lemma {:induction false} RunOver(s: string, separator: char, rest: string, digit: bool)
    requires !IsAlphanumeric(separator)
    ensures RunLength(s + [separator] + rest, digit) == RunLength(s, digit)
  {
    var whole := s + [separator] + rest;
    if s != [] {
      assert whole[0] == s[0] && whole[1..] == s[1..] + [separator] + rest;
      RunOver(s[1..], separator, rest, digit);
    } else {
      assert whole[0] == separator;
    }
  }

  /** What stands on the two sides of a separator is read on its own. */
  lemma {:induction false} TokensOver(s: string, separator: char, rest: string)
    requires !IsAlphanumeric(separator)
    ensures Tokens(s + [separator] + rest) == Tokens(s) + Tokens(rest)
    decreases |s|
  {
    hide PartOf, IsAlphanumeric, RunLength;
    var whole := s + [separator] + rest;
    if s == [] {
      assert whole == [separator] + rest;
      Skipped(separator, rest);
      NoTokens();
    } else if !IsAlphanumeric(s[0]) {
      assert whole[0] == s[0] && whole[1..] == s[1..] + [separator] + rest;
      TokensOver(s[1..], separator, rest);
    } else {
      var digit := IsDigit(s[0]);
      var n := RunLength(s, digit);
      RunSome(s);
      RunOver(s, separator, rest, digit);
      assert whole[0] == s[0] && whole[..n] == s[..n] && whole[n..] == s[n..] + [separator] + rest;
      TokensOver(s[n..], separator, rest);
      RunTokens(s);
      RunTokens(whole);
    }
  }

  lemma RunSome(s: string)
    requires s != [] && IsAlphanumeric(s[0])
    ensures 1 <= RunLength(s, IsDigit(s[0])) <= |s|
  {
  }

  lemma RunTokens(s: string)
    requires s != [] && IsAlphanumeric(s[0])
    ensures var digit := IsDigit(s[0]);
            var n := RunLength(s, digit);
            Tokens(s) == [PartOf(s[..n], digit)] + Tokens(s[n..])
  {
  }

  lemma {:induction false} TrimOver(s: string, separator: char, rest: string)
    requires separator != 'v'
    ensures TrimStart(s + [separator] + rest) == TrimStart(s) + [separator] + rest
  {
    var whole := s + [separator] + rest;
    if s == [] {
      assert whole[0] == separator;
      assert [] + [separator] + rest == whole;
    } else {
      assert whole[0] == s[0] && whole[1..] == s[1..] + [separator] + rest;
      if s[0] == 'v' { TrimOver(s[1..], separator, rest); }
    }
  }

  /** A printed number, followed by anything but another digit, is one token. */
  lemma NumberToken(n: nat, rest: string)
    requires n <= MAX && Breaks(rest, true)
    ensures Tokens(Print(n) + rest) == [Num(n)] + Tokens(rest)
  {
    assert Homogeneous(Print(n), true);
    PrintValue(n);
    Flushed(Print(n), rest, true);
  }

  /** Of two versions that agree up to a separator and go on with different numbers, the one with
      the smaller number is the older one, whatever follows. */
  lemma SmallerNumberIsOlder(s: string, separator: char, n: nat, m: nat, x: string, y: string)
    requires !IsAlphanumeric(separator) && n < m <= MAX && Breaks(x, true) && Breaks(y, true)
    ensures Compare(s + [separator] + (Print(n) + x), s + [separator] + (Print(m) + y)) == Less
  {
    hide Tokens, TrimStart, CompareTokens, Print;
    TrimOver(s, separator, Print(n) + x);
    TrimOver(s, separator, Print(m) + y);
    TokensOver(TrimStart(s), separator, Print(n) + x);
    TokensOver(TrimStart(s), separator, Print(m) + y);
    NumberToken(n, x);
    NumberToken(m, y);
    var front := Tokens(TrimStart(s));
    var a, b := front + ([Num(n)] + Tokens(x)), front + ([Num(m)] + Tokens(y));
    assert LowerAt(a, b, |front|);
    TokensLess(a, b);
  }

  /** The same for the first number of a version, with or without a `v` before it. */
  lemma SmallerMajorIsOlder(v: string, w: string, n: nat, m: nat, x: string, y: string)
    requires AllV(v) && AllV(w) && n < m <= MAX && Breaks(x, true) && Breaks(y, true)
    ensures Compare(v + (Print(n) + x), w + (Print(m) + y)) == Less
  {
    hide Tokens, TrimStart, CompareTokens, Print;
    Unprefixed(v, n, x);
    Unprefixed(w, m, y);
    NumberToken(n, x);
    NumberToken(m, y);
    var a, b := [Num(n)] + Tokens(x), [Num(m)] + Tokens(y);
    assert LowerAt(a, b, 0);
    TokensLess(a, b);
  }

  predicate AllV(s: string) { forall c | c in s :: c == 'v' }

  lemma {:induction false} Unprefixed(v: string, n: nat, x: string)
    requires AllV(v)
    ensures TrimStart(v + (Print(n) + x)) == Print(n) + x
  {
    var whole := v + (Print(n) + x);
    if v == [] {
      assert whole == Print(n) + x;
      assert Print(n)[0] in Print(n);
    } else {
      forall c | c in v[1..] ensures c == 'v' { assert c in v; }
      assert v[0] in v && whole[0] == 'v' && whole[1..] == v[1..] + (Print(n) + x);
      Unprefixed(v[1..], n, x);
    }
  }

  /** A word at the end makes a version newer, unlike in semantic versioning, where `1.0.0-rc` comes
      before `1.0.0`; and an ending in zeros makes no difference. */
  lemma WordIsNewer(s: string, separator: char, word: string)
    requires !IsAlphanumeric(separator) && word != [] && Homogeneous(word, false)
    ensures Compare(s, s + [separator] + word) == Less
    ensures Compare(s, s + [separator] + Print(0)) == Equal
  {
    hide Tokens, TrimStart, CompareTokens, Print, Trimmed;
    TrimOver(s, separator, word);
    TrimOver(s, separator, Print(0));
    TokensOver(TrimStart(s), separator, word);
    TokensOver(TrimStart(s), separator, Print(0));
    WordToken(word);
    NumberToken(0, []);
    NoTokens();
    assert Print(0) + [] == Print(0) && [Num(0)] + Tokens([]) == [Num(0)];
    var front, t := Tokens(TrimStart(s)), Version.Text(Ascii.Lower(word));
    assert LowerAt(front, front + [t], |front|);
    TokensLess(front, front + [t]);
    TokensEqual(front, front + [Num(0)]);
    ZeroTrimmed(front);
  }

  lemma WordToken(word: string)
    requires word != [] && Homogeneous(word, false)
    ensures Tokens(word) == [Version.Text(Ascii.Lower(word))]
  {
    Flushed(word, [], false);
    assert word + [] == word;
    NoTokens();
  }

  lemma ZeroTrimmed(parts: seq<Part>)
    ensures Trimmed(parts + [Num(0)]) == Trimmed(parts)
  {
    assert (parts + [Num(0)])[..|parts|] == parts;
  }

  // ----- overrides

  /** An upper bound admits what is smaller at the first different number, and nothing that is
      larger there. */
  lemma BoundAdmits(s: string, separator: char, n: nat, m: nat, x: string, y: string)
    requires !IsAlphanumeric(separator) && n < m <= MAX && Breaks(x, true) && Breaks(y, true)
    ensures var older, newer := s + [separator] + (Print(n) + x), s + [separator] + (Print(m) + y);
            && MatchesConstraint(older, "semver:<=" + newer)
            && MatchesConstraint(newer, "semver:<=" + newer)
            && !MatchesConstraint(newer, "semver:<=" + older)
  {
    hide Compare, Print;
    var older, newer := s + [separator] + (Print(n) + x), s + [separator] + (Print(m) + y);
    SmallerNumberIsOlder(s, separator, n, m, x, y);
    TotalPreorder(older, newer, newer);
    TotalPreorder(newer, newer, newer);
    Bound(older);
    Bound(newer);
  }

  lemma Bound(version: string)
    ensures UpperBound("semver:<=" + version) == Some(version)
  {
    var c := "semver:<=" + version;
    assert c[..7] == "semver:" && c[7..] == "<=" + version;
    assert ("<=" + version)[..2] == "<=";
  }

  /** The version of an identifier is what stands behind its last `@` and before its qualifiers and
      its subpath. */
  lemma VersionOfId(name: string, version: string, suffix: string)
    requires forall c | c in name + version :: c != '?' && c != '#'
    requires '@' !in version
    requires suffix == [] || suffix[0] == '?' || suffix[0] == '#'
    ensures SourceIdVersion("pkg:" + (name + "@" + version) + suffix) == Some(version)
  {
    hide UntilAny, AfterLast;
    var body := name + "@" + version;
    var id := "pkg:" + body + suffix;
    assert id[..4] == "pkg:" && id[4..] == body + suffix;
    forall c | c in body ensures c !in "?#" {
      if c !in name + version { assert c == '@'; }
    }
    Until(body, suffix, "?#");
    LastAt(name, version);
  }

  lemma {:induction false} Until(s: string, suffix: string, stops: string)
    requires forall c | c in s :: c !in stops
    requires suffix == [] || suffix[0] in stops
    ensures UntilAny(s + suffix, stops) == s
  {
    if s == [] {
      assert s + suffix == suffix;
    } else {
      assert s[0] in s && (s + suffix)[1..] == s[1..] + suffix;
      Until(s[1..], suffix, stops);
    }
  }

  lemma {:induction false} LastAt(name: string, version: string)
    requires '@' !in version
    ensures AfterLast(name + "@" + version, '@') == Some(version)
  {
    var s := name + "@" + version;
    if name == [] {
      assert s[0] == '@' && s[1..] == version;
      NoneLeft(version);
    } else {
      assert s[1..] == name[1..] + "@" + version;
      LastAt(name[1..], version);
    }
  }

  lemma {:induction false} NoneLeft(s: string)
    requires '@' !in s
    ensures AfterLast(s, '@') == None
  {
    if s != [] { NoneLeft(s[1..]); }
  }
}
