/** UTF-16: characters as code units and back, and what a column counts. */
module Utf16 {
  import opened Json
  import opened Text
  import Utf8

  type unit = x: int | 0 <= x < 0x1_0000

  predicate IsHigh(u: unit) { 0xD800 <= u < 0xDC00 }

  predicate IsLow(u: unit) { 0xDC00 <= u < 0xE000 }

  function Bits(u: unit, surrogate: int): int { u as int - surrogate }

  /** `char::encode_utf16`: one unit, or a high and a low surrogate with ten bits each. */
  function Encode1(c: char): seq<unit> {
    var n := c as int;
    if n < 0x10000 then [n]
    else
      assert n < 0x110000;
      [0xD800 + (n - 0x10000) / 0x400, 0xDC00 + (n - 0x10000) % 0x400]
  }

  /** `str::encode_utf16`. */
  function Encode(s: string): seq<unit> {
    if s == [] then [] else Encode1(s[0]) + Encode(s[1..])
  }

  /** The character at the head of a sequence of units, and how many units it takes; a surrogate
      without its partner is refused. */
  function Decode1(u: seq<unit>): (r: Option<(char, nat)>)
    ensures r.Some? ==> 1 <= r.value.1 <= |u|
  {
    if u == [] then None
    else if u[0] < 0xD800 || 0xE000 <= u[0] then Some((u[0] as char, 1))
    else if IsHigh(u[0]) && |u| >= 2 && IsLow(u[1]) then
      Some(((0x10000 + Bits(u[0], 0xD800) * 0x400 + Bits(u[1], 0xDC00)) as char, 2))
    else None
  }

  function Decode(u: seq<unit>): Option<string>
    decreases |u|
  {
    if u == [] then Some([])
    else
      match Decode1(u)
      case None => None
      case Some((c, n)) =>
        match Decode(u[n..])
        case None => None
        case Some(s) => Some([c] + s)
  }

  lemma DecodesOne(c: char, rest: seq<unit>)
    ensures Decode1(Encode1(c) + rest) == Some((c, |Encode1(c)|))
  {
    var n, u := c as int, Encode1(c) + rest;
    if n < 0x10000 {
      assert u[0] == n;
    } else {
      assert u[0] == 0xD800 + (n - 0x10000) / 0x400 && u[1] == 0xDC00 + (n - 0x10000) % 0x400;
    }
  }

  /** Decoding inverts encoding on all strings. */
  lemma {:induction false} DecodeEncode(s: string)
    ensures Decode(Encode(s)) == Some(s)
  {
    if s != [] {
      DecodesOne(s[0], Encode(s[1..]));
      DecodeEncode(s[1..]);
      assert (Encode1(s[0]) + Encode(s[1..]))[|Encode1(s[0])|..] == Encode(s[1..]);
      assert s == [s[0]] + s[1..];
    }
  }

  /** The units of a text are those of its encoding. */
  lemma {:induction false} UnitsAre(s: string)
    ensures |Encode(s)| == Units(s)
  {
    if s != [] {
      UnitsAre(s[1..]);
      LengthsAdd([s[0]], s[1..]);
      assert s == [s[0]] + s[1..] && [s[0]][..0] == [];
    }
  }

  /** A column counts the UTF-16 units of the text before it, and an offset its UTF-8 bytes: the two
      conversions of a line take one to the other at every character. */
  lemma ColumnsCountUnits(line: string, i: nat)
    requires i <= |line|
    ensures ByteOffset(line, |Encode(line[..i])|) == Some(|Utf8.Encode(line[..i])|)
    ensures |Encode(line[..i])| < 0x1_0000_0000 ==>
              Utf16Column(line, |Utf8.Encode(line[..i])|) == Some(|Encode(line[..i])|)
  {
    hide IndexOfUnits, IndexOfByte;
    UnitsAre(line[..i]);
    IndexOfUnitsIs(line, i);
    IndexOfByteIs(line, i);
  }

  /** The position of a character is the number of line feeds before it, and the number of units
      between the last of them and the character. */
  lemma PositionsCountUnits(before: seq<string>, line: string, rest: string)
    requires OneLine(line) && forall l | l in before :: OneLine(l)
    ensures var head := Head(before, |before|);
            var s := head + line + rest;
            && PositionAt(s, |head + line|) == Position(|before|, |Encode(line)|)
            && PositionToOffset(s, Position(|before|, |Encode(line)|)) == Some(|Utf8.Encode(head + line)|)
  {
    hide Lines, Head, Units, ByteLen, PositionToOffset, Encode, Utf8.Encode;
    var head := Head(before, |before|);
    var s := head + line + rest;
    assert s[..|head + line|] == head + line;
    LinesOf(before, |before|, line);
    assert before[..|before|] == before;
    UnitsAre(line);
    PositionToOffsetIs(s, Position(|before|, |Encode(line)|));
    BytesAre(head + line);
  }

  lemma BytesAre(s: string)
    ensures |Utf8.Encode(s)| == ByteLen(s)
  {
  }
}
