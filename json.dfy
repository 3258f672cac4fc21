/** JSON values and the canonical text `json.dumps(value, sort_keys=True)` that every
    signature in crewai-amorce is computed over (tools.py:58, decorators.py:85,
    agent.py:145 and agent.py:194).

    Objects are Dafny maps, so the order in which a Python dict received its keys cannot
    reach the text: `Dumps` writes the keys in Python's `str` order. `ParseValue` is a
    reference reader for that text; `ParseDumps` proves it inverts `Dumps`, which makes
    the canonical text injective (`DumpsInjective`). */
module Json {

  datatype Option<+T> = None | Some(value: T)

  /** A JSON-representable Python value: None, bool, int, str, list, or dict with str keys. */
  datatype Json =
    | Null
    | Bool(b: bool)
    | Int(i: int)
    | Str(s: string)
    | Arr(items: seq<Json>)
    | Obj(fields: map<string, Json>)

  // ---------------------------------------------------------------------------
  // Python's order on str: lexicographic on code points

  predicate Below(a: string, b: string)
    decreases |a|
  {
    if b == [] then false
    else if a == [] then true
    else if a[0] != b[0] then a[0] < b[0]
    else Below(a[1..], b[1..])
  }

  lemma {:induction false} BelowIrreflexive(a: string)
    ensures !Below(a, a)
    decreases |a|
  {
    if a != [] {
      BelowIrreflexive(a[1..]);
    }
  }

  lemma {:induction false} BelowAsymmetric(a: string, b: string)
    requires Below(a, b)
    ensures !Below(b, a)
    decreases |a|
  {
    if a != [] && a[0] == b[0] {
      BelowAsymmetric(a[1..], b[1..]);
    }
  }

  lemma {:induction false} BelowTransitive(a: string, b: string, c: string)
    requires Below(a, b) && Below(b, c)
    ensures Below(a, c)
    decreases |a|
  {
    if a != [] && a[0] == b[0] && b[0] == c[0] {
      BelowTransitive(a[1..], b[1..], c[1..]);
    }
  }

  lemma {:induction false} BelowTotal(a: string, b: string)
    requires a != b
    ensures Below(a, b) || Below(b, a)
    decreases |a|
  {
    if a != [] && b != [] && a[0] == b[0] {
      assert a == [a[0]] + a[1..] && b == [b[0]] + b[1..];
      BelowTotal(a[1..], b[1..]);
    }
  }

  /** `k` is the first of `keys` in Python's order. */
  predicate IsLeast(k: string, keys: set<string>)
  {
    k in keys && forall j | j in keys :: j == k || Below(k, j)
  }

  lemma {:induction false} LeastExists(keys: set<string>)
    requires keys != {}
    ensures exists k :: IsLeast(k, keys)
    decreases keys
  {
    var x :| x in keys;
    if keys == {x} {
      assert IsLeast(x, keys);
    } else {
      LeastExists(keys - {x});
      var k :| IsLeast(k, keys - {x});
      if Below(k, x) {
        assert IsLeast(k, keys);
      } else {
        BelowTotal(k, x);
        forall j | j in keys && j != x
          ensures Below(x, j)
        {
          if j != k {
            BelowTransitive(x, k, j);
          }
        }
        assert IsLeast(x, keys);
      }
    }
  }

  lemma LeastUnique(keys: set<string>)
    ensures forall k, k' :: IsLeast(k, keys) && IsLeast(k', keys) ==> k == k'
  {
    forall k, k' | IsLeast(k, keys) && IsLeast(k', keys)
      ensures k == k'
    {
      if k != k' {
        BelowAsymmetric(k, k');
      }
    }
  }

  /** The keys of a dict in the order `sort_keys=True` writes them. */
  function SortedKeys(keys: set<string>): (r: seq<string>)
    ensures |r| == |keys|
    ensures forall k :: k in r <==> k in keys
    ensures forall i, j :: 0 <= i < j < |r| ==> Below(r[i], r[j])
    decreases keys
  {
    if keys == {} then []
    else
      LeastExists(keys);
      LeastUnique(keys);
      var k :| IsLeast(k, keys);
      [k] + SortedKeys(keys - {k})
  }

  // ---------------------------------------------------------------------------
  // json.dumps(v, sort_keys=True) with the default separators ", " and ": " and
  // ensure_ascii=True

  function Digit(d: nat): char
    requires d < 10
  {
    (('0' as int) + d) as char
  }

  function NatText(n: nat): string
    decreases n
  {
    if n < 10 then [Digit(n)] else NatText(n / 10) + [Digit(n % 10)]
  }

  function IntText(i: int): string
  {
    if i < 0 then "-" + NatText(-i) else NatText(i)
  }

  function HexDigit(d: nat): char
    requires d < 16
  {
    if d < 10 then (('0' as int) + d) as char else (('a' as int) + d - 10) as char
  }

  /** The four lower-case hex digits of `'{0:04x}'.format(n)`. */
  function Hex4(n: nat): string
    requires n < 0x1_0000
  {
    [HexDigit(n / 16 / 16 / 16), HexDigit(n / 16 / 16 % 16), HexDigit(n / 16 % 16), HexDigit(n % 16)]
  }

  /** How `ensure_ascii` writes one character: a short escape, the character itself when it
      is printable ASCII, `\uXXXX` for the rest of the Basic Multilingual Plane, and a
      UTF-16 surrogate pair above it. */
  function EscapeChar(c: char): string
  {
    if c == '"' then "\\\""
    else if c == '\\' then "\\\\"
    else if c == '\n' then "\\n"
    else if c == '\r' then "\\r"
    else if c == '\t' then "\\t"
    else if c as int == 8 then "\\b"
    else if c as int == 12 then "\\f"
    else if ' ' <= c <= '~' then [c]
    else if (c as int) < 0x1_0000 then "\\u" + Hex4(c as int)
    else SurrogatePair(c as int - 0x1_0000)
  }

  /** The UTF-16 surrogate pair of code point 0x10000 + n, as two `\uXXXX` escapes. */
  function SurrogatePair(n: nat): string
    requires n < 0x10_0000
  {
    "\\u" + Hex4(0xD800 + n / 0x400) + "\\u" + Hex4(0xDC00 + n % 0x400)
  }

  function Escape(s: string): string
    decreases |s|
  {
    if s == [] then [] else EscapeChar(s[0]) + Escape(s[1..])
  }

  function Quote(s: string): string
  {
    "\"" + Escape(s) + "\""
  }

  function Dumps(v: Json): string
    decreases v
  {
    match v
    case Null => "null"
    case Bool(b) => if b then "true" else "false"
    case Int(i) => IntText(i)
    case Str(s) => Quote(s)
    case Arr(items) => "[" + ItemsText(items) + "]"
    case Obj(m) => "{" + MembersText(v, SortedKeys(m.Keys)) + "}"
  }

  function ItemsText(items: seq<Json>): string
    decreases items
  {
    if items == [] then ""
    else if |items| == 1 then Dumps(items[0])
    else Dumps(items[0]) + ", " + ItemsText(items[1..])
  }

  function MembersText(parent: Json, keys: seq<string>): string
    requires parent.Obj? && forall k | k in keys :: k in parent.fields
    decreases parent, keys
  {
    if keys == [] then ""
    else
      var member := Quote(keys[0]) + ": " + Dumps(parent.fields[keys[0]]);
      if |keys| == 1 then member else member + ", " + MembersText(parent, keys[1..])
  }

  // ---------------------------------------------------------------------------
  // A reader for the canonical text, the partner of Dumps

  predicate IsDigit(c: char) { '0' <= c <= '9' }

  predicate IsHex(c: char) { '0' <= c <= '9' || 'a' <= c <= 'f' || 'A' <= c <= 'F' }

  function HexValue(c: char): (d: nat)
    requires IsHex(c)
    ensures d < 16
  {
    if '0' <= c <= '9' then c as int - '0' as int
    else if 'a' <= c <= 'f' then c as int - 'a' as int + 10
    else c as int - 'A' as int + 10
  }

  function Hex4Value(s: string): (n: nat)
    requires |s| == 4 && IsHex(s[0]) && IsHex(s[1]) && IsHex(s[2]) && IsHex(s[3])
    ensures n < 0x1_0000
  {
    HexValue(s[0]) * 0x1000 + HexValue(s[1]) * 0x100 + HexValue(s[2]) * 16 + HexValue(s[3])
  }

  predicate HexAt(s: string, i: nat)
  {
    i + 4 <= |s| && IsHex(s[i]) && IsHex(s[i + 1]) && IsHex(s[i + 2]) && IsHex(s[i + 3])
  }

  /** The character written as the hex digits that start `s` (after a `\u`). */
  function ParseUnicode(s: string): (r: Option<(char, string)>)
    ensures r.Some? ==> |r.value.1| < |s|
  {
    if !HexAt(s, 0) then None
    else
      var n := Hex4Value(s[..4]);
      if n < 0xD800 || 0xE000 <= n then Some((n as char, s[4..]))
      else if n < 0xDC00 && |s| >= 10 && s[4] == '\\' && s[5] == 'u' && HexAt(s, 6) then
        var low := Hex4Value(s[6..10]);
        if 0xDC00 <= low < 0xE000 then
          Some(((0x1_0000 + (n - 0xD800) * 0x400 + (low - 0xDC00)) as char, s[10..]))
        else None
      else None
  }

  function ParseChar(s: string): (r: Option<(char, string)>)
    requires s != []
    ensures r.Some? ==> |r.value.1| < |s|
  {
    if s[0] != '\\' then Some((s[0], s[1..]))
    else if |s| < 2 then None
    else if s[1] == '"' || s[1] == '\\' || s[1] == '/' then Some((s[1], s[2..]))
    else if s[1] == 'n' then Some(('\n', s[2..]))
    else if s[1] == 'r' then Some(('\r', s[2..]))
    else if s[1] == 't' then Some(('\t', s[2..]))
    else if s[1] == 'b' then Some((8 as char, s[2..]))
    else if s[1] == 'f' then Some((12 as char, s[2..]))
    else if s[1] == 'u' then ParseUnicode(s[2..])
    else None
  }

  /** The characters of a string literal whose opening quote was already read. */
  function ParseString(s: string): (r: Option<(string, string)>)
    ensures r.Some? ==> |r.value.1| < |s|
    decreases |s|
  {
    if s == [] then None
    else if s[0] == '"' then Some(([], s[1..]))
    else
      match ParseChar(s)
      case None => None
      case Some((c, rest)) =>
        match ParseString(rest)
        case None => None
        case Some((cs, rest')) => Some(([c] + cs, rest'))
  }

  /** The number of decimal digits `s` starts with. */
  function DigitRun(s: string): (k: nat)
    ensures k <= |s|
    ensures forall j | 0 <= j < k :: IsDigit(s[j])
    ensures k < |s| ==> !IsDigit(s[k])
    decreases |s|
  {
    if s == [] || !IsDigit(s[0]) then 0 else 1 + DigitRun(s[1..])
  }

  function DigitValue(c: char): nat
    requires IsDigit(c)
  {
    c as int - '0' as int
  }

  function DigitsValue(ds: string): nat
    requires forall j | 0 <= j < |ds| :: IsDigit(ds[j])
    decreases |ds|
  {
    if ds == [] then 0
    else DigitsValue(ds[..|ds| - 1]) * 10 + DigitValue(ds[|ds| - 1])
  }

  function ParseInt(s: string): (r: Option<(Json, string)>)
    ensures r.Some? ==> |r.value.1| < |s|
  {
    if s != [] && s[0] == '-' then
      var k := DigitRun(s[1..]);
      if k == 0 then None else Some((Int(0 - DigitsValue(s[1..k + 1])), s[k + 1..]))
    else
      var k := DigitRun(s);
      if k == 0 then None else Some((Int(DigitsValue(s[..k])), s[k..]))
  }

  function Keyword(s: string, word: string, v: Json): (r: Option<(Json, string)>)
    requires word != []
    ensures r.Some? ==> |r.value.1| < |s|
  {
    if |word| <= |s| && s[..|word|] == word then Some((v, s[|word|..])) else None
  }

  /** One JSON value at the start of `s`, and the text after it. */
  function ParseValue(s: string): (r: Option<(Json, string)>)
    ensures r.Some? ==> |r.value.1| < |s|
    decreases |s|, 2
  {
    if s == [] then None
    else if s[0] == 'n' then Keyword(s, "null", Null)
    else if s[0] == 't' then Keyword(s, "true", Bool(true))
    else if s[0] == 'f' then Keyword(s, "false", Bool(false))
    else if s[0] == '"' then ParseStr(s)
    else if s[0] == '[' then ParseList(s)
    else if s[0] == '{' then ParseDict(s)
    else ParseInt(s)
  }

  /** A string literal, opening quote included. */
  function ParseStr(s: string): (r: Option<(Json, string)>)
    requires s != []
    ensures r.Some? ==> |r.value.1| < |s|
  {
    match ParseString(s[1..])
    case None => None
    case Some((str, rest)) => Some((Str(str), rest))
  }

  /** A list, opening bracket included. */
  function ParseList(s: string): (r: Option<(Json, string)>)
    requires s != []
    ensures r.Some? ==> |r.value.1| < |s|
    decreases |s|, 1
  {
    if |s| > 1 && s[1] == ']' then Some((Arr([]), s[2..]))
    else
      match ParseItems(s[1..])
      case None => None
      case Some((items, rest)) => Some((Arr(items), rest))
  }

  /** An object, opening brace included. */
  function ParseDict(s: string): (r: Option<(Json, string)>)
    requires s != []
    ensures r.Some? ==> |r.value.1| < |s|
    decreases |s|, 1
  {
    if |s| > 1 && s[1] == '}' then Some((Obj(map[]), s[2..]))
    else
      match ParseMembers(s[1..])
      case None => None
      case Some((m, rest)) => Some((Obj(m), rest))
  }

  /** The elements of a non-empty list up to and including its closing bracket. */
  function ParseItems(s: string): (r: Option<(seq<Json>, string)>)
    ensures r.Some? ==> |r.value.1| < |s|
    decreases |s|, 3
  {
    match ParseValue(s)
    case None => None
    case Some((v, rest)) =>
      if |rest| >= 2 && rest[0] == ',' && rest[1] == ' ' then
        match ParseItems(rest[2..])
        case None => None
        case Some((vs, rest')) => Some(([v] + vs, rest'))
      else if rest != [] && rest[0] == ']' then Some(([v], rest[1..]))
      else None
  }

  /** The members of a non-empty object up to and including its closing brace; a key
      written twice keeps its last value, as Python's reader does. */
  function ParseMembers(s: string): (r: Option<(map<string, Json>, string)>)
    ensures r.Some? ==> |r.value.1| < |s|
    decreases |s|, 3
  {
    if s == [] || s[0] != '"' then None
    else
      match ParseString(s[1..])
      case None => None
      case Some((k, rest)) =>
        if |rest| < 2 || rest[0] != ':' || rest[1] != ' ' then None
        else
          match ParseValue(rest[2..])
          case None => None
          case Some((v, rest')) =>
            if |rest'| >= 2 && rest'[0] == ',' && rest'[1] == ' ' then
              match ParseMembers(rest'[2..])
              case None => None
              case Some((m, rest'')) => Some((map[k := v] + m, rest''))
            else if rest' != [] && rest'[0] == '}' then Some((map[k := v], rest'[1..]))
            else None
  }

  /** A whole text holding exactly one JSON value. */
  function Parse(s: string): Option<Json>
  {
    match ParseValue(s)
    case Some((v, rest)) => if rest == [] then Some(v) else None
    case None => None
  }

  // ---------------------------------------------------------------------------
  // Round trip: the reader recovers every value from its canonical text

  /** What may follow a value inside the canonical text. */
  predicate Delimited(rest: string)
  {
    rest == [] || rest[0] == ',' || rest[0] == ']' || rest[0] == '}'
  }

  lemma HexDigitRoundTrip(d: nat)
    requires d < 16
    ensures IsHex(HexDigit(d)) && HexValue(HexDigit(d)) == d
  {
  }

  lemma HexRoundTrip(n: nat)
    requires n < 0x1_0000
    ensures HexAt(Hex4(n), 0) && Hex4Value(Hex4(n)) == n
  {
    var q1 := n / 16;
    var q2 := q1 / 16;
    var q3 := q2 / 16;
    assert n == q1 * 16 + n % 16;
    assert q1 == q2 * 16 + q1 % 16;
    assert q2 == q3 * 16 + q2 % 16;
    assert q3 < 16;
    HexDigitRoundTrip(q3);
    HexDigitRoundTrip(q2 % 16);
    HexDigitRoundTrip(q1 % 16);
    HexDigitRoundTrip(n % 16);
    var h := Hex4(n);
    assert Hex4Value(h) == q3 * 0x1000 + (q2 % 16) * 0x100 + (q1 % 16) * 16 + n % 16;
  }

  lemma ParseUnicodeBmp(n: nat, t: string)
    requires n < 0xD800 || 0xE000 <= n < 0x1_0000
    ensures ParseUnicode(Hex4(n) + t) == Some((n as char, t))
  {
    HexRoundTrip(n);
    var u := Hex4(n) + t;
    assert u[..4] == Hex4(n) && u[4..] == t;
  }

  lemma ParseUnicodePair(hi: nat, lo: nat, c: char, t: string)
    requires 0xD800 <= hi < 0xDC00 && 0xDC00 <= lo < 0xE000
    requires c as int == 0x1_0000 + (hi - 0xD800) * 0x400 + (lo - 0xDC00)
    ensures ParseUnicode(Hex4(hi) + "\\u" + Hex4(lo) + t) == Some((c, t))
  {
    HexRoundTrip(hi);
    HexRoundTrip(lo);
    var u := Hex4(hi) + "\\u" + Hex4(lo) + t;
    assert u[..4] == Hex4(hi) && u[4] == '\\' && u[5] == 'u';
    assert u[6..10] == Hex4(lo) && u[10..] == t;
  }

  lemma ParseEscapeAbove(c: char, t: string)
    requires 0x1_0000 <= c as int
    ensures ParseChar(EscapeChar(c) + t) == Some((c, t))
  {
    assert EscapeChar(c) == SurrogatePair(c as int - 0x1_0000);
    ParseSurrogatePair(c as int - 0x1_0000, c, t);
  }

  lemma ParseSurrogatePair(n: nat, c: char, t: string)
    requires n < 0x10_0000 && c as int == 0x1_0000 + n
    ensures ParseChar(SurrogatePair(n) + t) == Some((c, t))
  {
    SurrogateSplit(n);
    var q, r := n / 0x400, n % 0x400;
    assert SurrogatePair(n) + t == "\\u" + Hex4(0xD800 + q) + "\\u" + Hex4(0xDC00 + r) + t;
    ParsePairOf(q, r, c, t);
  }

  /** The pair for high bits q and low bits r reads back as code point 0x10000 + q * 0x400 + r. */
  lemma ParsePairOf(q: nat, r: nat, c: char, t: string)
    requires q < 0x400 && r < 0x400 && c as int == 0x1_0000 + q * 0x400 + r
    ensures ParseChar("\\u" + Hex4(0xD800 + q) + "\\u" + Hex4(0xDC00 + r) + t) == Some((c, t))
  {
    var u := Hex4(0xD800 + q) + "\\u" + Hex4(0xDC00 + r) + t;
    ParseUnicodePair(0xD800 + q, 0xDC00 + r, c, t);
    PairAssoc(Hex4(0xD800 + q), Hex4(0xDC00 + r), t);
    ParseCharUnicode(u);
  }

  lemma PairAssoc(a: string, b: string, t: string)
    ensures "\\u" + a + "\\u" + b + t == "\\u" + (a + "\\u" + b + t)
  {
  }

  lemma UnicodeAssoc(x: string, t: string)
    ensures "\\u" + x + t == "\\u" + (x + t)
  {
  }

  lemma ParseCharUnicode(u: string)
    ensures ParseChar("\\u" + u) == ParseUnicode(u)
  {
    assert ("\\u" + u)[2..] == u;
  }

  lemma SurrogateSplit(n: nat)
    requires n < 0x10_0000
    ensures n / 0x400 < 0x400 && n % 0x400 < 0x400 && (n / 0x400) * 0x400 + n % 0x400 == n
  {
  }

  lemma ParseEscapeBmp(c: char, t: string)
    requires (c as int) < 0x1_0000 && !(' ' <= c <= '~')
    requires c as int != 8 && c as int != 12 && c != '\n' && c != '\r' && c != '\t'
    ensures ParseChar(EscapeChar(c) + t) == Some((c, t))
  {
    assert EscapeChar(c) == "\\u" + Hex4(c as int);
    UnicodeAssoc(Hex4(c as int), t);
    ParseCharUnicode(Hex4(c as int) + t);
    ParseUnicodeBmp(c as int, t);
  }

  lemma ParseEscapeChar(c: char, t: string)
    ensures EscapeChar(c) != [] && EscapeChar(c)[0] != '"'
    ensures ParseChar(EscapeChar(c) + t) == Some((c, t))
  {
    if c == '"' || c == '\\' || c == '\n' || c == '\r' || c == '\t' || c as int == 8 || c as int == 12 {
    } else if ' ' <= c <= '~' {
    } else if (c as int) < 0x1_0000 {
      ParseEscapeBmp(c, t);
    } else {
      ParseEscapeAbove(c, t);
    }
  }

  lemma {:induction false} ParseEscape(s: string, rest: string)
    ensures ParseString(Escape(s) + "\"" + rest) == Some((s, rest))
    decreases |s|
  {
    if s == [] {
      assert Escape(s) + "\"" + rest == "\"" + rest;
      assert ("\"" + rest)[1..] == rest;
    } else {
      var tail := Escape(s[1..]) + "\"" + rest;
      ParseEscapeChar(s[0], tail);
      EscapeAssoc(EscapeChar(s[0]), Escape(s[1..]), rest);
      ParseEscape(s[1..], rest);
      ParseStringStep(EscapeChar(s[0]) + tail, s[0], tail, s[1..], rest);
      assert [s[0]] + s[1..] == s;
    }
  }

  lemma EscapeAssoc(e: string, more: string, rest: string)
    ensures e + more + "\"" + rest == e + (more + "\"" + rest)
  {
  }

  /** One character of a string literal, then the rest of it. */
  lemma ParseStringStep(x: string, c: char, tail: string, cs: string, rest: string)
    requires x != [] && x[0] != '"' && ParseChar(x) == Some((c, tail))
    requires ParseString(tail) == Some((cs, rest))
    ensures ParseString(x) == Some(([c] + cs, rest))
  {
  }

  lemma ParseValueString(s: string, str: string, rest: string)
    requires s != [] && s[0] == '"' && ParseString(s[1..]) == Some((str, rest))
    ensures ParseValue(s) == Some((Str(str), rest))
  {
  }

  lemma ParseQuote(s: string, rest: string)
    ensures ParseValue(Quote(s) + rest) == Some((Str(s), rest))
  {
    ParseEscape(s, rest);
    QuoteSplit(Escape(s), rest);
    ParseValueString(Quote(s) + rest, s, rest);
  }

  lemma {:induction false} NatTextDigits(n: nat)
    ensures NatText(n) != []
    ensures forall j | 0 <= j < |NatText(n)| :: IsDigit(NatText(n)[j])
    ensures DigitsValue(NatText(n)) == n
    decreases n
  {
    if n >= 10 {
      NatTextDigits(n / 10);
      var ds := NatText(n);
      assert ds[..|ds| - 1] == NatText(n / 10);
    }
  }

  lemma {:induction false} DigitRunOf(ds: string, rest: string)
    requires forall j | 0 <= j < |ds| :: IsDigit(ds[j])
    requires rest == [] || !IsDigit(rest[0])
    ensures DigitRun(ds + rest) == |ds|
    decreases |ds|
  {
    if ds != [] {
      assert (ds + rest)[1..] == ds[1..] + rest;
      DigitRunOf(ds[1..], rest);
    }
  }

  lemma ParseValueInt(s: string)
    requires s != [] && (s[0] == '-' || IsDigit(s[0]))
    ensures ParseValue(s) == ParseInt(s)
  {
  }

  lemma ParseNatText(n: nat, rest: string)
    requires Delimited(rest)
    ensures DigitRun(NatText(n) + rest) == |NatText(n)|
    ensures (NatText(n) + rest)[..|NatText(n)|] == NatText(n)
    ensures (NatText(n) + rest)[|NatText(n)|..] == rest
    ensures DigitsValue(NatText(n)) == n
    ensures IsDigit((NatText(n) + rest)[0])
  {
    NatTextDigits(n);
    DigitRunOf(NatText(n), rest);
  }

  lemma ParseIntText(i: int, rest: string)
    requires Delimited(rest)
    ensures ParseValue(IntText(i) + rest) == Some((Int(i), rest))
  {
    if i < 0 {
      ParseNegText(-i, rest);
    } else {
      ParseNatText(i, rest);
      ParseValueInt(NatText(i) + rest);
    }
  }

  lemma ParseNegText(n: nat, rest: string)
    requires Delimited(rest)
    ensures ParseValue("-" + NatText(n) + rest) == Some((Int(0 - n), rest))
  {
    var ds := NatText(n);
    ParseNatText(n, rest);
    var s := "-" + ds + rest;
    assert s == "-" + (ds + rest);
    assert s[1..] == ds + rest;
    ParseValueInt(s);
    assert s[1..|ds| + 1] == ds && s[|ds| + 1..] == rest;
  }

  /** The members of `m` named by `keys`. */
  function Restrict(m: map<string, Json>, keys: seq<string>): map<string, Json>
  {
    map k | k in keys && k in m :: m[k]
  }

  lemma ParseValueArr(s: string, items: seq<Json>, rest: string)
    requires |s| > 1 && s[0] == '[' && s[1] != ']' && ParseItems(s[1..]) == Some((items, rest))
    ensures ParseValue(s) == Some((Arr(items), rest))
  {
    assert ParseList(s) == Some((Arr(items), rest));
  }

  lemma ParseValueObj(s: string, m: map<string, Json>, rest: string)
    requires |s| > 1 && s[0] == '{' && s[1] != '}' && ParseMembers(s[1..]) == Some((m, rest))
    ensures ParseValue(s) == Some((Obj(m), rest))
  {
    assert ParseDict(s) == Some((Obj(m), rest));
  }

  lemma ParseArr(items: seq<Json>, rest: string)
    requires Delimited(rest)
    ensures ParseValue(Dumps(Arr(items)) + rest) == Some((Arr(items), rest))
    decreases items, 2
  {
    var s := Dumps(Arr(items)) + rest;
    if items == [] {
      assert s == "[]" + rest;
    } else {
      DumpsHead(items[0]);
      assert s == "[" + (ItemsText(items) + "]" + rest);
      assert s[1..] == ItemsText(items) + "]" + rest;
      ParseItemsText(items, rest);
      ParseValueArr(s, items, rest);
    }
  }

  lemma SortedKeysRestrict(m: map<string, Json>)
    ensures Restrict(m, SortedKeys(m.Keys)) == m
  {
  }

  lemma ParseObj(v: Json, rest: string)
    requires v.Obj? && Delimited(rest)
    ensures ParseValue(Dumps(v) + rest) == Some((v, rest))
    decreases v, 1
  {
    var keys := SortedKeys(v.fields.Keys);
    if keys == [] {
      ParseEmptyObj(v, rest);
    } else {
      var s := Dumps(v) + rest;
      var members := MembersText(v, keys);
      assert Dumps(v) == "{" + members + "}";
      BraceSplit(members, rest);
      ParseMembersText(v, keys, rest);
      SortedKeysRestrict(v.fields);
      MembersHead(v, keys);
      ParseValueObj(s, v.fields, rest);
    }
  }

  lemma BraceSplit(members: string, rest: string)
    ensures var s := "{" + members + "}" + rest;
      |s| > 1 && s[0] == '{' && s[1..] == members + "}" + rest
  {
    var s := "{" + members + "}" + rest;
    assert s == "{" + (members + "}" + rest);
  }

  lemma MembersHead(v: Json, keys: seq<string>)
    requires v.Obj? && keys != [] && forall k | k in keys :: k in v.fields
    ensures MembersText(v, keys) != [] && MembersText(v, keys)[0] == '"'
  {
  }

  lemma ParseEmptyObj(v: Json, rest: string)
    requires v.Obj? && v.fields == map[]
    ensures ParseValue(Dumps(v) + rest) == Some((v, rest))
  {
    assert SortedKeys(v.fields.Keys) == [];
    assert Dumps(v) + rest == "{}" + rest;
  }

  lemma {:induction false} ParseDumps(v: Json, rest: string)
    requires Delimited(rest)
    ensures ParseValue(Dumps(v) + rest) == Some((v, rest))
    decreases v, 2
  {
    match v
    case Null =>
      assert (Dumps(v) + rest)[..4] == "null";
    case Bool(b) =>
      assert (Dumps(v) + rest)[..|Dumps(v)|] == Dumps(v);
    case Int(i) =>
      ParseIntText(i, rest);
    case Str(s) =>
      ParseQuote(s, rest);
    case Arr(items) =>
      ParseArr(items, rest);
    case Obj(m) =>
      ParseObj(v, rest);
  }

  lemma DumpsHead(v: Json)
    ensures Dumps(v) != [] && Dumps(v)[0] != ']' && Dumps(v)[0] != '}' && Dumps(v)[0] != ','
  {
    if v.Int? {
      NatTextDigits(if v.i < 0 then -v.i else v.i);
    }
  }

  lemma ParseItemsStep(s: string, v: Json, after: string, vs: seq<Json>, rest: string)
    requires ParseValue(s) == Some((v, ", " + after))
    requires ParseItems(after) == Some((vs, rest))
    ensures ParseItems(s) == Some(([v] + vs, rest))
  {
    assert (", " + after)[2..] == after;
  }

  lemma ParseItemsLast(s: string, v: Json, rest: string)
    requires ParseValue(s) == Some((v, "]" + rest))
    ensures ParseItems(s) == Some(([v], rest))
  {
    assert ("]" + rest)[1..] == rest;
  }

  lemma {:induction false} ParseItemsText(items: seq<Json>, rest: string)
    requires items != [] && Delimited(rest)
    ensures ParseItems(ItemsText(items) + "]" + rest) == Some((items, rest))
    decreases items, 1
  {
    if |items| == 1 {
      ParseLastItem(items, rest);
    } else {
      ParseMoreItems(items, rest);
    }
  }

  lemma {:induction false} ParseLastItem(items: seq<Json>, rest: string)
    requires |items| == 1 && Delimited(rest)
    ensures ParseItems(ItemsText(items) + "]" + rest) == Some((items, rest))
    decreases items, 0
  {
    var text := Dumps(items[0]);
    SingleItem(items);
    ParseDumps(items[0], "]" + rest);
    Assoc(text, "]", rest);
    ParseItemsLast(text + "]" + rest, items[0], rest);
  }

  lemma SingleItem(items: seq<Json>)
    requires |items| == 1
    ensures ItemsText(items) == Dumps(items[0]) && [items[0]] == items
  {
  }

  lemma Assoc(a: string, b: string, c: string)
    ensures a + b + c == a + (b + c)
  {
  }

  lemma {:induction false} ParseMoreItems(items: seq<Json>, rest: string)
    requires |items| > 1 && Delimited(rest)
    ensures ParseItems(ItemsText(items) + "]" + rest) == Some((items, rest))
    decreases items, 0
  {
    var text := Dumps(items[0]);
    var after := ItemsText(items[1..]) + "]" + rest;
    assert ItemsText(items) + "]" + rest == text + (", " + after);
    ParseDumps(items[0], ", " + after);
    ParseItemsText(items[1..], rest);
    ParseItemsStep(text + (", " + after), items[0], after, items[1..], rest);
    assert [items[0]] + items[1..] == items;
  }

  lemma ParseMemberMore(s: string, k: string, v: Json, text: string, after: string, m: map<string, Json>, rest: string)
    requires s != [] && s[0] == '"'
    requires ParseString(s[1..]) == Some((k, ": " + (text + (", " + after))))
    requires ParseValue(text + (", " + after)) == Some((v, ", " + after))
    requires ParseMembers(after) == Some((m, rest))
    ensures ParseMembers(s) == Some((map[k := v] + m, rest))
  {
    assert (": " + (text + (", " + after)))[2..] == text + (", " + after);
    assert (", " + after)[2..] == after;
  }

  lemma ParseMemberLast(s: string, k: string, v: Json, text: string, rest: string)
    requires s != [] && s[0] == '"'
    requires ParseString(s[1..]) == Some((k, ": " + (text + ("}" + rest))))
    requires ParseValue(text + ("}" + rest)) == Some((v, "}" + rest))
    ensures ParseMembers(s) == Some((map[k := v], rest))
  {
    assert (": " + (text + ("}" + rest)))[2..] == text + ("}" + rest);
    assert ("}" + rest)[1..] == rest;
  }

  lemma {:induction false} ParseMembersText(parent: Json, keys: seq<string>, rest: string)
    requires parent.Obj? && keys != [] && forall k | k in keys :: k in parent.fields
    requires Delimited(rest)
    ensures ParseMembers(MembersText(parent, keys) + "}" + rest)
         == Some((Restrict(parent.fields, keys), rest))
    decreases parent, 0, |keys|, 1
  {
    if |keys| == 1 {
      ParseLastMember(parent, keys, rest);
    } else {
      ParseMoreMembers(parent, keys, rest);
    }
  }

  /** How one member's text splits around its key. */
  lemma MemberSplit(parent: Json, keys: seq<string>, rest: string, tail: string)
    requires parent.Obj? && keys != [] && forall k | k in keys :: k in parent.fields
    requires tail == (if |keys| == 1 then "}" + rest else ", " + (MembersText(parent, keys[1..]) + "}" + rest))
    ensures var s := MembersText(parent, keys) + "}" + rest;
      s != [] && s[0] == '"' &&
      s[1..] == Escape(keys[0]) + "\"" + (": " + (Dumps(parent.fields[keys[0]]) + tail))
  {
    var text := Dumps(parent.fields[keys[0]]);
    var q := Quote(keys[0]);
    if |keys| == 1 {
      assert MembersText(parent, keys) == q + ": " + text;
      LastAssoc(q, text, rest);
    } else {
      var more := MembersText(parent, keys[1..]);
      assert MembersText(parent, keys) == q + ": " + text + ", " + more;
      MoreAssoc(q, text, more, rest);
    }
    QuoteSplit(Escape(keys[0]), ": " + (text + tail));
  }

  lemma LastAssoc(q: string, text: string, rest: string)
    ensures q + ": " + text + "}" + rest == q + (": " + (text + ("}" + rest)))
  {
  }

  lemma MoreAssoc(q: string, text: string, more: string, rest: string)
    ensures q + ": " + text + ", " + more + "}" + rest
         == q + (": " + (text + (", " + (more + "}" + rest))))
  {
  }

  lemma QuoteSplit(e: string, x: string)
    ensures var s := "\"" + e + "\"" + x;
      s != [] && s[0] == '"' && s[1..] == e + "\"" + x
  {
    var s := "\"" + e + "\"" + x;
    assert s == "\"" + (e + "\"" + x);
  }

  lemma {:induction false} ParseLastMember(parent: Json, keys: seq<string>, rest: string)
    requires parent.Obj? && |keys| == 1 && keys[0] in parent.fields
    requires Delimited(rest)
    ensures ParseMembers(MembersText(parent, keys) + "}" + rest)
         == Some((Restrict(parent.fields, keys), rest))
    decreases parent, 0, |keys|, 0
  {
    var k := keys[0];
    var v := parent.fields[k];
    var text := Dumps(v);
    var s := MembersText(parent, keys) + "}" + rest;
    MemberSplit(parent, keys, rest, "}" + rest);
    ParseEscape(k, ": " + (text + ("}" + rest)));
    ParseDumps(v, "}" + rest);
    ParseMemberLast(s, k, v, text, rest);
    RestrictOne(parent.fields, keys);
  }

  lemma RestrictOne(m: map<string, Json>, keys: seq<string>)
    requires |keys| == 1 && keys[0] in m
    ensures Restrict(m, keys) == map[keys[0] := m[keys[0]]]
  {
    assert forall k :: k in keys <==> k == keys[0];
  }

  lemma {:induction false} ParseMoreMembers(parent: Json, keys: seq<string>, rest: string)
    requires parent.Obj? && |keys| > 1 && forall k | k in keys :: k in parent.fields
    requires Delimited(rest)
    ensures ParseMembers(MembersText(parent, keys) + "}" + rest)
         == Some((Restrict(parent.fields, keys), rest))
    decreases parent, 0, |keys|, 0
  {
    var k := keys[0];
    var v := parent.fields[k];
    var text := Dumps(v);
    var after := MembersText(parent, keys[1..]) + "}" + rest;
    var s := MembersText(parent, keys) + "}" + rest;
    MemberSplit(parent, keys, rest, ", " + after);
    ParseEscape(k, ": " + (text + (", " + after)));
    ParseDumps(v, ", " + after);
    ParseMembersText(parent, keys[1..], rest);
    ParseMemberMore(s, k, v, text, after, Restrict(parent.fields, keys[1..]), rest);
    RestrictCons(parent.fields, keys);
  }

  lemma RestrictCons(m: map<string, Json>, keys: seq<string>)
    requires keys != [] && keys[0] in m
    ensures Restrict(m, keys) == map[keys[0] := m[keys[0]]] + Restrict(m, keys[1..])
  {
  }

  /** The reader inverts the canonical text. */
  lemma ParseInvertsDumps(v: Json)
    ensures Parse(Dumps(v)) == Some(v)
  {
    ParseDumps(v, "");
    assert Dumps(v) + "" == Dumps(v);
  }

  /** Two values have the same canonical text exactly when they are equal: signing the
      text signs the value, whatever order its dicts were built in. */
  lemma DumpsInjective(a: Json, b: Json)
    ensures Dumps(a) == Dumps(b) <==> a == b
  {
    ParseInvertsDumps(a);
    ParseInvertsDumps(b);
  }
}
