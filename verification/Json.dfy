/** JSON values and the canonical text the daemon derives from them.

    Objects are maps, as `serde_json::Map` is an ordered map whose order of insertion is
    not observable. Numbers are integers. */
module Json {
  import opened Order
  import Decimal

  datatype Option<+T> = None | Some(value: T)

  datatype Value =
    | Null
    | Bool(b: bool)
    | Number(n: int)
    | String(s: string)
    | Array(items: seq<Value>)
    | Object(fields: map<string, Value>)
  {
    /** `Value::get` with a string index. */
    function Get(key: string): Option<Value> {
      if Object? && key in fields then Some(fields[key]) else None
    }
  }

  // ----- printing

  function HexDigit(d: nat): char
    requires d < 16
  {
    if d < 10 then '0' + (d as char) else 'a' + ((d - 10) as char)
  }

  function HexValue(c: char): Option<nat> {
    if '0' <= c <= '9' then Some(c as int - '0' as int)
    else if 'a' <= c <= 'f' then Some(c as int - 'a' as int + 10)
    else if 'A' <= c <= 'F' then Some(c as int - 'A' as int + 10)
    else None
  }

  /** The escape sequence of one character inside a JSON string. */
  function Escape(c: char): (r: string)
    ensures r != []
  {
    if c == '"' then "\\\""
    else if c == '\\' then "\\\\"
    else if c == '\U{08}' then "\\b"
    else if c == '\U{09}' then "\\t"
    else if c == '\U{0A}' then "\\n"
    else if c == '\U{0C}' then "\\f"
    else if c == '\U{0D}' then "\\r"
    else if c < ' ' then "\\u00" + [HexDigit(c as int / 16), HexDigit(c as int % 16)]
    else [c]
  }

  function EscapeAll(s: string): string {
    if s == [] then [] else Escape(s[0]) + EscapeAll(s[1..])
  }

  function Quote(s: string): string { "\"" + EscapeAll(s) + "\"" }

  function PrintInt(n: int): string {
    if n < 0 then "-" + Decimal.Print(-n) else Decimal.Print(n)
  }

  /** The canonical text of a value: no white space, object keys ascending. */
  function Fingerprint(v: Value): (r: string)
    decreases v, 1, 0
  {
    match v
    case Null => "null"
    case Bool(b) => if b then "true" else "false"
    case Number(n) => PrintInt(n)
    case String(s) => Quote(s)
    case Array(_) => "[" + PrintItems(v, 0) + "]"
    case Object(fields) => "{" + PrintFields(v, SortedKeys(fields.Keys)) + "}"
  }

  /** The items of an array from index `i` on, separated by commas. */
  function PrintItems(v: Value, i: nat): string
    requires v.Array? && i <= |v.items|
    decreases v, 0, |v.items| - i
  {
    if i == |v.items| then ""
    else if i + 1 == |v.items| then Fingerprint(v.items[i])
    else Fingerprint(v.items[i]) + "," + PrintItems(v, i + 1)
  }

  function PrintFields(v: Value, keys: seq<string>): string
    requires v.Object? && forall k | k in keys :: k in v.fields
    decreases v, 0, |keys|
  {
    if keys == [] then ""
    else
      var field := Quote(keys[0]) + ":" + Fingerprint(v.fields[keys[0]]);
      if |keys| == 1 then field else field + "," + PrintFields(v, keys[1..])
  }

  // ----- parsing

  datatype Parsed<+T> = Failed | Parsed(value: T, rest: string)

  /** The characters of a string literal after its opening quote. */
  function ParseChars(s: string): (r: Parsed<string>)
    ensures r.Parsed? ==> |r.rest| < |s|
  {
    if s == [] || s[0] < ' ' then Failed
    else if s[0] == '"' then Parsed([], s[1..])
    else if s[0] != '\\' then
      match ParseChars(s[1..])
      case Failed => Failed
      case Parsed(tail, rest) => Parsed([s[0]] + tail, rest)
    else
      match ParseEscape(s[1..])
      case Failed => Failed
      case Parsed(c, after) =>
        match ParseChars(after)
        case Failed => Failed
        case Parsed(tail, rest) => Parsed([c] + tail, rest)
  }

  /** One escape sequence after its backslash; surrogate escapes are not covered. */
  function ParseEscape(s: string): (r: Parsed<char>)
    ensures r.Parsed? ==> |r.rest| < |s|
  {
    if s == [] then Failed
    else if s[0] == '"' || s[0] == '\\' || s[0] == '/' then Parsed(s[0], s[1..])
    else if s[0] == 'b' then Parsed('\U{08}', s[1..])
    else if s[0] == 't' then Parsed('\U{09}', s[1..])
    else if s[0] == 'n' then Parsed('\U{0A}', s[1..])
    else if s[0] == 'f' then Parsed('\U{0C}', s[1..])
    else if s[0] == 'r' then Parsed('\U{0D}', s[1..])
    else if s[0] == 'u' && |s| >= 5 then
      match (HexValue(s[1]), HexValue(s[2]), HexValue(s[3]), HexValue(s[4]))
      case (Some(a), Some(b), Some(c), Some(d)) =>
        var code := ((a * 16 + b) * 16 + c) * 16 + d;
        if code < 0xD800 then Parsed(code as char, s[5..]) else Failed
      case _ => Failed
    else Failed
  }

  function ParseNat(s: string): (r: Parsed<nat>)
    ensures r.Parsed? ==> |r.rest| < |s|
  {
    var k := Decimal.DigitRun(s);
    if k == 0 then Failed else Parsed(Decimal.Value(s[..k]), s[k..])
  }

  function StripPrefix(s: string, prefix: string): (r: Option<string>)
    ensures r.Some? ==> |r.value| == |s| - |prefix|
  {
    if |prefix| <= |s| && s[..|prefix|] == prefix then Some(s[|prefix|..]) else None
  }

  /** One value at the head of `s`, without white space, and the text after it. */
  function ParseValue(s: string): (r: Parsed<Value>)
    ensures r.Parsed? ==> |r.rest| < |s|
    decreases |s|, 2
  {
    if s == [] then Failed
    else if s[0] == '"' then
      match ParseChars(s[1..])
      case Failed => Failed
      case Parsed(text, rest) => Parsed(String(text), rest)
    else if s[0] == '[' then
      if |s| >= 2 && s[1] == ']' then Parsed(Array([]), s[2..]) else
        match ParseItems(s[1..])
        case Failed => Failed
        case Parsed(items, rest) => Parsed(Array(items), rest)
    else if s[0] == '{' then
      if |s| >= 2 && s[1] == '}' then Parsed(Object(map[]), s[2..]) else
        match ParseFields(s[1..])
        case Failed => Failed
        case Parsed(fields, rest) => Parsed(Object(fields), rest)
    else if s[0] == '-' then
      match ParseNat(s[1..])
      case Failed => Failed
      case Parsed(n, rest) => Parsed(Number(-(n as int)), rest)
    else if Decimal.IsDigit(s[0]) then
      match ParseNat(s)
      case Failed => Failed
      case Parsed(n, rest) => Parsed(Number(n), rest)
    else if StripPrefix(s, "null").Some? then Parsed(Null, StripPrefix(s, "null").value)
    else if StripPrefix(s, "true").Some? then Parsed(Bool(true), StripPrefix(s, "true").value)
    else if StripPrefix(s, "false").Some? then Parsed(Bool(false), StripPrefix(s, "false").value)
    else Failed
  }

  /** At least one item, up to and including the closing bracket. */
  function ParseItems(s: string): (r: Parsed<seq<Value>>)
    ensures r.Parsed? ==> |r.rest| < |s|
    decreases |s|, 3
  {
    match ParseValue(s)
    case Failed => Failed
    case Parsed(item, rest) =>
      if rest == [] then Failed
      else if rest[0] == ']' then Parsed([item], rest[1..])
      else if rest[0] == ',' then
        match ParseItems(rest[1..])
        case Failed => Failed
        case Parsed(items, after) => Parsed([item] + items, after)
      else Failed
  }

  /** At least one member, up to and including the closing brace; a later duplicate wins. */
  function ParseFields(s: string): (r: Parsed<map<string, Value>>)
    ensures r.Parsed? ==> |r.rest| < |s|
    decreases |s|, 3
  {
    if s == [] || s[0] != '"' then Failed else
      match ParseChars(s[1..])
      case Failed => Failed
      case Parsed(key, colon) =>
        if colon == [] || colon[0] != ':' then Failed else
          match ParseValue(colon[1..])
          case Failed => Failed
          case Parsed(value, rest) =>
            if rest == [] then Failed
            else if rest[0] == '}' then Parsed(map[key := value], rest[1..])
            else if rest[0] == ',' then
              match ParseFields(rest[1..])
              case Failed => Failed
              case Parsed(fields, after) => Parsed(map[key := value] + fields, after)
            else Failed
  }

  // ----- round trip

  /** A text that can stand behind a complete value. */
  predicate Delimited(rest: string) {
    rest == [] || rest[0] == ',' || rest[0] == ']' || rest[0] == '}'
  }

  lemma EscapeParses(c: char, rest: string)
    ensures var e := Escape(c);
            if e == [c] then c != '"' && c != '\\' && c >= ' '
            else e[0] == '\\' && ParseEscape(e[1..] + rest) == Parsed(c, rest)
  {
    var e := Escape(c);
    if e != [c] {
      var t := e[1..] + rest;
      if c < ' ' && |e| == 6 {
        var hi, lo := c as int / 16, c as int % 16;
        assert t[..5] == ['u', '0', '0', HexDigit(hi), HexDigit(lo)];
        assert t[0] == 'u' && t[1] == '0' && t[2] == '0' && t[3] == HexDigit(hi) && t[4] == HexDigit(lo);
        assert t[5..] == rest;
      } else {
        assert |e| == 2 && t[1..] == rest;
      }
    }
  }

  lemma CharsStep(c: char, e: string, after: string, tail: string, rest: string)
    requires e == Escape(c) && ParseChars(after) == Parsed(tail, rest)
    ensures ParseChars(e + after) == Parsed([c] + tail, rest)
  {
    EscapeParses(c, after);
    var t := e + after;
    assert t[0] == e[0] && t[1..] == e[1..] + after;
    if e == [c] { assert t[1..] == after; }
  }

  lemma CharsEnd(rest: string)
    ensures ParseChars("\"" + rest) == Parsed([], rest)
  {
  }

  lemma {:induction false} CharsRoundTrip(s: string, rest: string)
    ensures ParseChars(EscapeAll(s) + "\"" + rest) == Parsed(s, rest)
  {
    hide ParseChars;
    if s == [] {
      assert EscapeAll(s) + "\"" + rest == "\"" + rest;
      CharsEnd(rest);
    } else {
      CharsRoundTrip(s[1..], rest);
      var after := EscapeAll(s[1..]) + "\"" + rest;
      CharsStep(s[0], Escape(s[0]), after, s[1..], rest);
      assert [s[0]] + s[1..] == s;
      assert EscapeAll(s) + "\"" + rest == Escape(s[0]) + after;
    }
  }

  lemma QuoteRoundTrip(s: string, rest: string)
    ensures Quote(s) + rest == "\"" + (EscapeAll(s) + "\"" + rest)
    ensures ParseChars((Quote(s) + rest)[1..]) == Parsed(s, rest)
  {
    CharsRoundTrip(s, rest);
    assert Quote(s) + rest == "\"" + (EscapeAll(s) + "\"" + rest);
  }

  lemma NatRoundTrip(m: nat, rest: string)
    requires Delimited(rest)
    ensures var t := Decimal.Print(m) + rest;
            t != [] && Decimal.IsDigit(t[0]) && ParseNat(t) == Parsed(m, rest)
  {
    hide Decimal.Print, Decimal.DigitRun, Decimal.Value;
    Decimal.PrintRun(m, rest);
    Decimal.PrintValue(m);
    assert Decimal.Print(m)[0] in Decimal.Print(m);
  }

  lemma IntRoundTrip(n: int, rest: string)
    requires Delimited(rest)
    ensures ParseValue(PrintInt(n) + rest) == Parsed(Number(n), rest)
  {
    hide Decimal.Print, ParseNat, ParseChars, ParseItems, ParseFields, StripPrefix;
    var m: nat := if n < 0 then -n else n;
    NatRoundTrip(m, rest);
    var t := Decimal.Print(m) + rest;
    if n < 0 {
      assert PrintInt(n) + rest == "-" + t;
      assert ("-" + t)[1..] == t;
    }
  }

  lemma WordRoundTrip(word: string, v: Value, rest: string)
    requires (word == "null" && v == Null) || (word == "true" && v == Bool(true))
             || (word == "false" && v == Bool(false))
    ensures ParseValue(word + rest) == Parsed(v, rest)
  {
    var t := word + rest;
    assert t[0] == word[0] && t[..|word|] == word && t[|word|..] == rest;
    assert StripPrefix(t, word) == Some(rest);
    assert word[0] != 'n' ==> t[..4] != "null" by { if word[0] != 'n' { assert t[..4][0] == word[0]; } }
    assert word[0] != 't' && |t| >= 4 ==> t[..4] != "true" by { if word[0] != 't' { assert t[..4][0] == word[0]; } }
  }

  /** A value cannot start with a closing bracket or brace, nor is its text empty. */
  lemma FirstChar(v: Value)
    ensures var f := Fingerprint(v); f != [] && f[0] != ']' && f[0] != '}'
  {
    if v.Number? {
      var p := Decimal.Print(if v.n < 0 then -v.n else v.n);
      assert p[0] in p;
    }
  }

  /** Parsing undoes printing: the text of a value, followed by anything that may follow a
      value, is read back as that value and leaves exactly what followed. */
  lemma {:induction false} RoundTrip(v: Value, rest: string)
    requires Delimited(rest)
    ensures ParseValue(Fingerprint(v) + rest) == Parsed(v, rest)
    decreases v, 1, 0
  {
    match v
    case Null => WordRoundTrip("null", v, rest);
    case Bool(b) => WordRoundTrip(if b then "true" else "false", v, rest);
    case Number(n) => IntRoundTrip(n, rest);
    case String(s) => QuoteRoundTrip(s, rest);
    case Array(_) => ArrayRoundTrip(v, rest);
    case Object(_) => ObjectRoundTrip(v, rest);
  }

  lemma {:induction false} ArrayRoundTrip(v: Value, rest: string)
    requires v.Array?
    ensures ParseValue(Fingerprint(v) + rest) == Parsed(v, rest)
    decreases v, 0, |v.items| + 1
  {
    var t := PrintItems(v, 0) + "]" + rest;
    var whole := "[" + t;
    assert Fingerprint(v) + rest == whole;
    assert whole[1..] == t;
    if v.items == [] {
      assert t == "]" + rest && whole[2..] == rest;
    } else {
      FirstChar(v.items[0]);
      assert whole[1] == t[0] == Fingerprint(v.items[0])[0];
      ItemsRoundTrip(v, 0, rest);
    }
  }

  /** How one array item is read when its value is. */
  lemma ItemStep(s: string, v: Value, after: string)
    requires ParseValue(s) == Parsed(v, after) && after != []
    ensures after[0] == ']' ==> ParseItems(s) == Parsed([v], after[1..])
    ensures after[0] == ',' && ParseItems(after[1..]).Parsed? ==>
              ParseItems(s) == Parsed([v] + ParseItems(after[1..]).value, ParseItems(after[1..]).rest)
  {
  }

  lemma {:induction false} ItemsRoundTrip(v: Value, i: nat, rest: string)
    requires v.Array? && i < |v.items|
    ensures ParseItems(PrintItems(v, i) + "]" + rest) == Parsed(v.items[i..], rest)
    decreases v, 0, |v.items| - i
  {
    hide ParseValue, ParseItems, Fingerprint, PrintItems;
    var f := Fingerprint(v.items[i]);
    var last := i + 1 == |v.items|;
    var more := if last then rest else PrintItems(v, i + 1) + "]" + rest;
    var after := [if last then ']' else ','] + more;
    RoundTrip(v.items[i], after);
    if !last { ItemsRoundTrip(v, i + 1, rest); }
    assert after[1..] == more;
    ItemStep(f + after, v.items[i], after);
    assert PrintItems(v, i) + "]" + rest == f + after by { ItemsText(v, i, f, rest, after, last, more); }
    assert v.items[i..] == if last then [v.items[i]] else [v.items[i]] + v.items[i + 1..];
  }

  lemma ItemsText(v: Value, i: nat, f: string, rest: string, after: string, last: bool, more: string)
    requires v.Array? && i < |v.items| && f == Fingerprint(v.items[i])
    requires last == (i + 1 == |v.items|)
    requires more == if last then rest else PrintItems(v, i + 1) + "]" + rest
    requires after == [if last then ']' else ','] + more
    ensures PrintItems(v, i) + "]" + rest == f + after
  {
    if !last {
      var p := PrintItems(v, i + 1);
      assert PrintItems(v, i) == f + "," + p;
    }
  }

  lemma ObjectStep(t: string, fields: map<string, Value>, rest: string)
    requires t != [] && t[0] != '}' && ParseFields(t) == Parsed(fields, rest)
    ensures ParseValue("{" + t) == Parsed(Object(fields), rest)
  {
    var whole := "{" + t;
    assert whole[0] == '{' && whole[1] == t[0] && whole[1..] == t;
  }

  lemma {:induction false} ObjectRoundTrip(v: Value, rest: string)
    requires v.Object?
    ensures ParseValue(Fingerprint(v) + rest) == Parsed(v, rest)
    decreases v, 0, |v.fields| + 1
  {
    hide ParseValue, ParseFields;
    var keys := SortedKeys(v.fields.Keys);
    if keys == [] {
      assert |v.fields.Keys| == 0;
      assert v.fields == map[];
      EmptyObject(rest);
      assert Fingerprint(v) == "{}";
    } else {
      var p := PrintFields(v, keys);
      var t := p + "}" + rest;
      FieldsRoundTrip(v, keys, rest);
      FieldsMap(v.fields, keys);
      FieldsText(v, keys);
      assert t[0] == p[0];
      ObjectStep(t, v.fields, rest);
      ObjectText(p, rest);
    }
  }

  lemma ObjectText(p: string, rest: string)
    ensures "{" + p + "}" + rest == "{" + (p + "}" + rest)
  {
  }

  lemma EmptyObject(rest: string)
    ensures ParseValue("{}" + rest) == Parsed(Object(map[]), rest)
  {
    var whole := "{}" + rest;
    assert whole[0] == '{' && whole[1] == '}' && whole[2..] == rest;
  }

  lemma FieldsMap(fields: map<string, Value>, keys: seq<string>)
    requires forall k :: k in keys <==> k in fields
    ensures fields == map k | k in keys :: fields[k]
  {
  }

  /** The text of an object's members: the first, and the others behind a comma. */
  lemma FieldsText(v: Value, keys: seq<string>)
    requires v.Object? && keys != [] && forall k | k in keys :: k in v.fields
    ensures var field := Quote(keys[0]) + ":" + Fingerprint(v.fields[keys[0]]);
            PrintFields(v, keys) == if |keys| == 1 then field else field + "," + PrintFields(v, keys[1..])
    ensures PrintFields(v, keys) != [] && PrintFields(v, keys)[0] == '"'
  {
  }

  /** How one object member is read when its value is. */
  lemma FieldStep(s: string, k: string, colon: string, v: Value, after: string)
    requires s != [] && s[0] == '"' && ParseChars(s[1..]) == Parsed(k, colon)
    requires colon != [] && colon[0] == ':' && ParseValue(colon[1..]) == Parsed(v, after) && after != []
    ensures after[0] == '}' ==> ParseFields(s) == Parsed(map[k := v], after[1..])
    ensures after[0] == ',' && ParseFields(after[1..]).Parsed? ==>
              ParseFields(s) == Parsed(map[k := v] + ParseFields(after[1..]).value, ParseFields(after[1..]).rest)
  {
  }

  lemma MapSplit(fields: map<string, Value>, keys: seq<string>)
    requires keys != [] && forall k | k in keys :: k in fields
    ensures (map j | j in keys :: fields[j])
         == if |keys| == 1 then map[keys[0] := fields[keys[0]]]
            else map[keys[0] := fields[keys[0]]] + map j | j in keys[1..] :: fields[j]
  {
    assert keys == [keys[0]] + keys[1..];
  }

  lemma FieldText(q: string, f: string, others: string, last: bool, rest: string)
    ensures var more := if last then rest else others + "}" + rest;
            (if last then q + ":" + f else q + ":" + f + "," + others) + "}" + rest
            == q + (":" + (f + ([if last then '}' else ','] + more)))
  {
  }

  lemma {:induction false} FieldsRoundTrip(v: Value, keys: seq<string>, rest: string)
    requires v.Object? && keys != [] && |keys| <= |v.fields| && forall k | k in keys :: k in v.fields
    ensures ParseFields(PrintFields(v, keys) + "}" + rest)
         == Parsed(map k | k in keys :: v.fields[k], rest)
    decreases v, 0, |keys|
  {
    hide ParseValue, ParseFields, ParseChars;
    var k := keys[0];
    var f := Fingerprint(v.fields[k]);
    var last := |keys| == 1;
    var more := if last then rest else PrintFields(v, keys[1..]) + "}" + rest;
    var after := [if last then '}' else ','] + more;
    RoundTrip(v.fields[k], after);
    if !last { FieldsRoundTrip(v, keys[1..], rest); }
    assert after[1..] == more;
    var colon := ":" + (f + after);
    assert colon[1..] == f + after;
    QuoteRoundTrip(k, colon);
    FieldStep(Quote(k) + colon, k, colon, v.fields[k], after);
    FieldsText(v, keys);
    FieldText(Quote(k), f, if last then "" else PrintFields(v, keys[1..]), last, rest);
    MapSplit(v.fields, keys);
  }

  /** Two values have the same fingerprint exactly when they are the same JSON. */
  lemma FingerprintInjective(a: Value, b: Value)
    ensures Fingerprint(a) == Fingerprint(b) <==> a == b
  {
    RoundTrip(a, []);
    RoundTrip(b, []);
    assert Fingerprint(a) + [] == Fingerprint(a) && Fingerprint(b) + [] == Fingerprint(b);
  }
}
