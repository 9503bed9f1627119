/** UTF-8: characters as bytes and back. */
module Utf8 {
  import opened Json
  import opened Text

  type byte = x: int | 0 <= x < 256

  function Encode1(c: char): (r: seq<byte>)
    ensures |r| == Utf8Len(c)
  {
    var n := c as int;
    if n < 0x80 then [n]
    else if n < 0x800 then [0xC0 + n / 64, 0x80 + n % 64]
    else if n < 0x10000 then [0xE0 + n / 4096, 0x80 + n / 64 % 64, 0x80 + n % 64]
    else
      assert n < 0x110000;
      [0xF0 + n / 262144, 0x80 + n / 4096 % 64, 0x80 + n / 64 % 64, 0x80 + n % 64]
  }

  function Encode(s: string): (r: seq<byte>)
    ensures |r| == ByteLen(s)
  {
    if s == [] then []
    else
      assert s == [s[0]] + s[1..];
      LengthsAdd([s[0]], s[1..]);
      assert [s[0]][..0] == [];
      Encode1(s[0]) + Encode(s[1..])
  }

  predicate Continues(b: byte) { 0x80 <= b < 0xC0 }

  function Low(b: byte, lead: nat): int { b as int - lead as int }

  /** The character at the head of a byte string: no overlong form and no surrogate is accepted. */
  function Decode1(b: seq<byte>): (r: Option<char>)
    ensures r.Some? ==> Utf8Len(r.value) <= |b|
  {
    if b == [] then None
    else if b[0] < 0x80 then Some(b[0] as char)
    else if 0xC0 <= b[0] < 0xE0 && |b| >= 2 && Continues(b[1]) then
      var n := Low(b[0], 0xC0) * 64 + Low(b[1], 0x80);
      if n >= 0x80 then Some(n as char) else None
    else if 0xE0 <= b[0] < 0xF0 && |b| >= 3 && Continues(b[1]) && Continues(b[2]) then
      var n := (Low(b[0], 0xE0) * 64 + Low(b[1], 0x80)) * 64 + Low(b[2], 0x80);
      if 0x800 <= n < 0xD800 || 0xE000 <= n < 0x10000 then Some(n as char) else None
    else if 0xF0 <= b[0] < 0xF8 && |b| >= 4 && Continues(b[1]) && Continues(b[2]) && Continues(b[3]) then
      var n := ((Low(b[0], 0xF0) * 64 + Low(b[1], 0x80)) * 64 + Low(b[2], 0x80)) * 64 + Low(b[3], 0x80);
      if 0x10000 <= n < 0x110000 then Some(n as char) else None
    else None
  }

  /** `str::from_utf8`. */
  function Decode(b: seq<byte>): Option<string>
    decreases |b|
  {
    if b == [] then Some([])
    else
      match Decode1(b)
      case None => None
      case Some(c) =>
        match Decode(b[Utf8Len(c)..])
        case None => None
        case Some(s) => Some([c] + s)
  }

  lemma Sixes(n: nat)
    ensures n / 64 * 64 + n % 64 == n
    ensures n / 4096 * 64 + n / 64 % 64 == n / 64
    ensures n / 262144 * 64 + n / 4096 % 64 == n / 4096
  {
  }

  lemma DecodesOne(c: char, rest: seq<byte>)
    ensures Decode1(Encode1(c) + rest) == Some(c)
  {
    var n, e := c as int, Encode1(c);
    Sixes(n);
    var b := e + rest;
    assert forall k | 0 <= k < |e| :: b[k] == e[k];
    if n < 0x80 {
      assert b[0] == n;
    } else if n < 0x800 {
      assert Low(b[0], 0xC0) == n / 64 && Low(b[1], 0x80) == n % 64;
    } else if n < 0x10000 {
      assert Low(b[0], 0xE0) == n / 4096 && Low(b[1], 0x80) == n / 64 % 64 && Low(b[2], 0x80) == n % 64;
    } else {
      assert Low(b[0], 0xF0) == n / 262144 && Low(b[1], 0x80) == n / 4096 % 64;
      assert Low(b[2], 0x80) == n / 64 % 64 && Low(b[3], 0x80) == n % 64;
    }
  }

  lemma {:induction false} DecodeEncode(s: string)
    ensures Decode(Encode(s)) == Some(s)
  {
    if s != [] {
      DecodesOne(s[0], Encode(s[1..]));
      DecodeEncode(s[1..]);
      assert (Encode1(s[0]) + Encode(s[1..]))[Utf8Len(s[0])..] == Encode(s[1..]);
      assert s == [s[0]] + s[1..];
    }
  }

  lemma EncodeStep(s: string)
    ensures s == [] ==> Encode(s) == []
    ensures s != [] ==> Encode(s) == Encode1(s[0]) + Encode(s[1..])
  {
  }

  lemma {:induction false} EncodeAdds(a: string, b: string)
    ensures Encode(a + b) == Encode(a) + Encode(b)
  {
    hide Encode1, ByteLen;
    EncodeStep(a);
    EncodeStep(a + b);
    hide Encode;
    if a == [] {
      assert a + b == b;
    } else {
      EncodeAdds(a[1..], b);
      assert (a + b)[1..] == a[1..] + b;
    }
  }

  predicate IsAscii(s: string) { forall c | c in s :: c < '\U{80}' }

  /** ASCII text is its own encoding. */
  lemma {:induction false} AsciiBytes(s: string)
    requires IsAscii(s)
    ensures |Encode(s)| == |s| && forall k | 0 <= k < |s| :: Encode(s)[k] == s[k] as int
  {
    if s != [] {
      assert s[0] in s;
      assert IsAscii(s[1..]) by {
        forall c | c in s[1..] ensures c < '\U{80}' { assert c in s; }
      }
      AsciiBytes(s[1..]);
    }
  }
}
