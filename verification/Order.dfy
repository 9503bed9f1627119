/** The lexicographic order on strings that Rust's `str::cmp` implements.
    Byte order on UTF-8 and code-point order on characters agree, so the order is
    stated on characters. */
module Order {

  datatype Ordering = Less | Equal | Greater {
    function Reverse(): Ordering {
      match this
      case Less => Greater
      case Equal => Equal
      case Greater => Less
    }
  }

  function CompareInt(a: int, b: int): Ordering {
    if a < b then Less else if a == b then Equal else Greater
  }

  function CompareString(a: string, b: string): (r: Ordering)
    ensures r == Equal <==> a == b
  {
    if a == [] && b == [] then Equal
    else if a == [] then Less
    else if b == [] then Greater
    else if a[0] < b[0] then Less
    else if b[0] < a[0] then Greater
    else
      assert a == [a[0]] + a[1..] && b == [b[0]] + b[1..];
      CompareString(a[1..], b[1..])
  }

  lemma {:induction false} CompareReverse(a: string, b: string)
    ensures CompareString(b, a) == CompareString(a, b).Reverse()
  {
    if a != [] && b != [] && a[0] == b[0] {
      CompareReverse(a[1..], b[1..]);
    }
  }

  predicate StringLeq(a: string, b: string) {
    CompareString(a, b) != Greater
  }

  lemma {:induction false} StringTransitive(a: string, b: string, c: string)
    requires StringLeq(a, b) && StringLeq(b, c)
    ensures StringLeq(a, c)
    ensures CompareString(a, c) == Equal ==> a == b == c
  {
    if a != [] && b != [] && c != [] && a[0] == b[0] == c[0] {
      StringTransitive(a[1..], b[1..], c[1..]);
      assert a == [a[0]] + a[1..] && b == [b[0]] + b[1..] && c == [c[0]] + c[1..];
    }
  }

  /** Every non-empty finite set of strings has a least element. */
  lemma {:induction false} LeastExists(keys: set<string>) returns (least: string)
    requires keys != {}
    ensures least in keys && forall k | k in keys :: StringLeq(least, k)
    decreases |keys|
  {
    var k :| k in keys;
    var others := keys - {k};
    if others == {} {
      least := k;
      assert keys == {k};
    } else {
      var l := LeastExists(others);
      CompareReverse(k, l);
      if StringLeq(k, l) {
        least := k;
        forall j | j in keys ensures StringLeq(k, j) {
          if j != k { assert j in others; StringTransitive(k, l, j); }
        }
      } else {
        least := l;
        assert forall j | j in keys :: j == k || j in others;
      }
    }
  }

  function Least(keys: set<string>): (least: string)
    requires keys != {}
    ensures least in keys && forall k | k in keys :: StringLeq(least, k)
  {
    assert exists k :: k in keys && forall j | j in keys :: StringLeq(k, j) by {
      var l := LeastExists(keys);
    }
    assert forall a, b | StringLeq(a, b) && StringLeq(b, a) :: a == b by {
      forall a, b | StringLeq(a, b) && StringLeq(b, a) ensures a == b { CompareReverse(a, b); }
    }
    var least :| least in keys && forall j | j in keys :: StringLeq(least, j);
    least
  }

  /** The keys of an object in ascending order, as `pairs.sort_by_key` arranges them. */
  function SortedKeys(keys: set<string>): (r: seq<string>)
    ensures forall k :: k in r <==> k in keys
    ensures |r| == |keys|
    decreases |keys|
  {
    if keys == {} then [] else
      var k := Least(keys);
      [k] + SortedKeys(keys - {k})
  }

  lemma {:induction false} SortedKeysMultiset(keys: set<string>)
    ensures multiset(SortedKeys(keys)) == multiset(keys)
    decreases |keys|
  {
    if keys != {} {
      var k := Least(keys);
      SortedKeysMultiset(keys - {k});
      assert multiset(keys) == multiset{k} + multiset(keys - {k});
    }
  }
}
