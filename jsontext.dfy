/**
 * The text `json.dump(value, f)` writes: ASCII only (every
 * character outside ' '..'~' and every quote and backslash escaped), members
 * separated by ", " and keys from values by ": ", `{}` and `[]` for
 * empty containers. `json.dump` writes a dict's keys in insertion order,
 * which a `map` does not keep; this model writes them in code-point order.
 */
module JsonText {
  import opened Common
  import opened Json

  // ----- key order -----

  /** Code-point (lexicographic) order on keys. */
  predicate KeyLe(a: string, b: string)
    decreases |a|
  {
    a == [] || (b != [] && (a[0] < b[0] || (a[0] == b[0] && KeyLe(a[1..], b[1..]))))
  }

  lemma KeyLeReflexive(a: string)
    ensures KeyLe(a, a)
    decreases |a|
  {
    if a != [] { KeyLeReflexive(a[1..]); }
  }

  lemma KeyLeTotal(a: string, b: string)
    ensures KeyLe(a, b) || KeyLe(b, a)
    decreases |a|
  {
    if a != [] && b != [] && a[0] == b[0] {
      KeyLeTotal(a[1..], b[1..]);
    }
  }

  lemma KeyLeAntisymmetric(a: string, b: string)
    requires KeyLe(a, b) && KeyLe(b, a)
    ensures a == b
    decreases |a|
  {
    if a != [] {
      KeyLeAntisymmetric(a[1..], b[1..]);
      assert a == [a[0]] + a[1..] && b == [b[0]] + b[1..];
    }
  }

  lemma KeyLeTransitive(a: string, b: string, c: string)
    requires KeyLe(a, b) && KeyLe(b, c)
    ensures KeyLe(a, c)
    decreases |a|
  {
    if a != [] && a[0] == b[0] && b[0] == c[0] {
      KeyLeTransitive(a[1..], b[1..], c[1..]);
    }
  }

  predicate IsLeast(m: string, s: set<string>) {
    m in s && forall x :: x in s ==> KeyLe(m, x)
  }

  lemma LeastExists(s: set<string>)
    requires s != {}
    ensures exists m :: IsLeast(m, s)
    decreases |s|
  {
    var x :| x in s;
    if s != {x} {
      var rest := s - {x};
      LeastExists(rest);
      var m :| IsLeast(m, rest);
      KeyLeTotal(x, m);
      if KeyLe(x, m) {
        forall y | y in s ensures KeyLe(x, y) {
          if y == x { KeyLeReflexive(x); } else { KeyLeTransitive(x, m, y); }
        }
        assert IsLeast(x, s);
      } else {
        assert IsLeast(m, s);
      }
    } else {
      KeyLeReflexive(x);
      assert IsLeast(x, s);
    }
  }

  lemma LeastUnique(s: set<string>)
    ensures forall a, b :: IsLeast(a, s) && IsLeast(b, s) ==> a == b
  {
    forall a, b | IsLeast(a, s) && IsLeast(b, s) ensures a == b {
      KeyLeAntisymmetric(a, b);
    }
  }

  /** The smallest key of a non-empty key set. */
  function LeastKey(s: set<string>): (m: string)
    requires s != {}
    ensures IsLeast(m, s)
  {
    LeastExists(s);
    LeastUnique(s);
    var m :| IsLeast(m, s); m
  }

  /** The keys of `s` once each, in ascending code-point order. */
  function SortedKeys(s: set<string>): (r: seq<string>)
    ensures |r| == |s|
    ensures forall k :: k in r <==> k in s
    ensures forall i :: 0 <= i < |r| - 1 ==> KeyLe(r[i], r[i + 1]) && r[i] != r[i + 1]
    decreases |s|
  {
    if s == {} then []
    else
      var m := LeastKey(s);
      [m] + SortedKeys(s - {m})
  }

  // ----- strings -----

  /** Every character is printable ASCII. */
  predicate Printable(s: string) {
    forall i :: 0 <= i < |s| ==> ' ' <= s[i] <= '~'
  }

  function HexDigit(n: nat): (c: char)
    requires n < 16
    ensures ' ' <= c <= '~'
  {
    "0123456789abcdef"[n]
  }

  /** Four lower-case hexadecimal digits of a UTF-16 code unit. */
  function Hex4(n: nat): (r: string)
    requires n < 0x1_0000
    ensures |r| == 4 && Printable(r)
  {
    [HexDigit(n / 0x1000), HexDigit(n / 0x100 % 16), HexDigit(n / 16 % 16), HexDigit(n % 16)]
  }

  /** How `json.dump` with `ensure_ascii` writes one character of a string. */
  function Escaped(c: char): (r: string)
    ensures Printable(r) && |r| > 0
    ensures ' ' <= c <= '~' && c != '"' && c != '\\' <==> r == [c]
  {
    if c == '"' then "\\\""
    else if c == '\\' then "\\\\"
    else if c == '\n' then "\\n"
    else if c == '\r' then "\\r"
    else if c == '\t' then "\\t"
    else if c as int == 8 then "\\b"
    else if c as int == 12 then "\\f"
    else if ' ' <= c <= '~' then [c]
    else if c as int < 0x1_0000 then "\\u" + Hex4(c as int)
    else
      var n := c as int - 0x1_0000;
      "\\u" + Hex4(0xD800 + n / 0x400) + "\\u" + Hex4(0xDC00 + n % 0x400)
  }

  /** Printable ASCII with no quote and no backslash: a string written unchanged. */
  predicate Plain(s: string) {
    forall i :: 0 <= i < |s| ==> ' ' <= s[i] <= '~' && s[i] != '"' && s[i] != '\\'
  }

  function EscapedAll(s: string): (r: string)
    ensures Printable(r)
    ensures Plain(s) ==> r == s
    decreases |s|
  {
    if s == [] then []
    else EscapedAll(s[..|s| - 1]) + Escaped(s[|s| - 1])
  }

  /** A string literal: quotes around the escaped characters. */
  function Quoted(s: string): (r: string)
    ensures Printable(r) && |r| >= 2 && r[0] == '"' && r[|r| - 1] == '"'
  {
    "\"" + EscapedAll(s) + "\""
  }

  // ----- numbers -----

  /** `n` decimal digits of a fraction `0 <= f < 1`, truncated. */
  function FractionDigits(f: real, n: nat): (r: string)
    requires 0.0 <= f < 1.0
    ensures |r| == n && AllDigits(r)
    decreases n
  {
    if n == 0 then []
    else
      var d := (f * 10.0).Floor;
      [DigitChar(d)] + FractionDigits(f * 10.0 - d as real, n - 1)
  }

  function TrimZeros(s: string): (r: string)
    ensures |r| <= |s| && r == s[..|r|]
    ensures r == [] || r[|r| - 1] != '0'
  {
    if s == [] || s[|s| - 1] != '0' then s else TrimZeros(s[..|s| - 1])
  }

  lemma PrintableConcat(a: string, b: string)
    requires Printable(a) && Printable(b)
    ensures Printable(a + b)
  {
    assert forall i :: 0 <= i < |a + b| ==> (a + b)[i] == if i < |a| then a[i] else b[i - |a|];
  }

  /** A non-negative float as `repr` writes it in fixed notation: a whole number gets `.0`. */
  function UnsignedFloatText(x: real): (r: string)
    requires x >= 0.0
    ensures Printable(r) && |r| > 0
  {
    var whole := NatToString(x.Floor);
    var digits := FractionDigits(x - x.Floor as real, 17);
    var frac := TrimZeros(digits);
    var fracText := if frac == [] then "0" else frac;
    assert AllDigits(fracText) by {
      if frac != [] {
        assert forall i :: 0 <= i < |frac| ==> frac[i] == digits[i];
      }
    }
    PrintableConcat(whole, ".");
    PrintableConcat(whole + ".", fracText);
    whole + "." + fracText
  }

  function FloatText(x: real): (r: string)
    ensures Printable(r) && |r| > 0
  {
    if x < 0.0 then
      var digits := UnsignedFloatText(-x);
      PrintableConcat("-", digits);
      "-" + digits
    else UnsignedFloatText(x)
  }

  // ----- values -----

  /** Text `json.dump` writes for `j` with the default separators `", "` and `": "`. */
  function Dumped(j: Json): (r: string)
    ensures Printable(r) && |r| > 0
    decreases j, 1
  {
    match j
    case JNull => "null"
    case JBool(b) => if b then "true" else "false"
    case JInt(i) => IntToString(i)
    case JFloat(x) => FloatText(x)
    case JStr(s) => Quoted(s)
    case JArr(items) =>
      if items == [] then "[]"
      else Enclosed('[', DumpedItems(items, 0), ']')
    case JObj(fields) =>
      if |fields| == 0 then "{}"
      else Enclosed('{', DumpedFields(fields, SortedKeys(fields.Keys), 0), '}')
  }

  /** Brackets around the members of a non-empty container. */
  function Enclosed(open: char, members: string, close: char): (r: string)
    requires ' ' <= open <= '~' && ' ' <= close <= '~' && Printable(members)
    ensures Printable(r) && |r| >= 2 && r[0] == open && r[|r| - 1] == close
  {
    PrintableConcat([open], members);
    PrintableConcat([open] + members, [close]);
    [open] + members + [close]
  }

  /** Array elements from `i` on, separated by `", "`. */
  function DumpedItems(items: seq<Json>, i: nat): (r: string)
    requires i < |items|
    ensures Printable(r)
    decreases JArr(items), 0, |items| - i
  {
    var item := Dumped(items[i]);
    if i + 1 < |items| then
      var rest := DumpedItems(items, i + 1);
      PrintableConcat(item, ", ");
      PrintableConcat(item + ", ", rest);
      item + ", " + rest
    else item
  }

  /** Object members `"key": value` for `keys[i..]`, separated by `", "`. */
  function DumpedFields(fields: map<string, Json>, keys: seq<string>, i: nat): (r: string)
    requires i < |keys| && forall k :: k in keys ==> k in fields
    ensures Printable(r)
    decreases JObj(fields), 0, |keys| - i
  {
    var key := Quoted(keys[i]);
    var value := Dumped(fields[keys[i]]);
    PrintableConcat(key, ": ");
    PrintableConcat(key + ": ", value);
    var member := key + ": " + value;
    if i + 1 < |keys| then
      var rest := DumpedFields(fields, keys, i + 1);
      PrintableConcat(member, ", ");
      PrintableConcat(member + ", ", rest);
      member + ", " + rest
    else member
  }

  lemma SingletonKeys(k: string)
    ensures SortedKeys({k}) == [k]
  {
    assert LeastKey({k}) == k;
    assert {k} - {k} == {};
  }

  /** A string with nothing to escape is written between quotes as it is. */
  lemma QuotedPlain(s: string)
    requires Plain(s)
    ensures Quoted(s) == "\"" + s + "\""
  { }

  lemma OneMemberFields(key: string, value: string)
    ensures DumpedFields(map[key := JStr(value)], [key], 0) == Quoted(key) + ": " + Quoted(value)
  {
    var fields := map[key := JStr(value)];
    assert fields[key] == JStr(value);
  }

  lemma OneMemberObject(key: string, value: string)
    ensures Dumped(JObj(map[key := JStr(value)])) == Enclosed('{', DumpedFields(map[key := JStr(value)], [key], 0), '}')
  {
    assert map[key := JStr(value)].Keys == {key};
    SingletonKeys(key);
  }

  /** A one-member object with a string value: `{"key": "value"}`, both escaped. */
  lemma OneMemberText(key: string, value: string)
    ensures Dumped(JObj(map[key := JStr(value)])) == "{" + Quoted(key) + ": " + Quoted(value) + "}"
  {
    OneMemberObject(key, value);
    OneMemberFields(key, value);
  }
}
