/**
 * The fragment of JavaScript value semantics that the client code relies on:
 * JSON values as `res.json()` yields them, truthiness (`||`, `&&`, `!x`),
 * nullish coalescing (`??`), property access, `String(x)` coercion and the
 * string methods `split(" ")`, `join(" ")`, `trim()`, `toLowerCase()`,
 * `toUpperCase()` and `startsWith`.
 */
module Js {

  datatype Option<T> = None | Some(value: T)

  /** A JSON value. Numbers are integers in this model. */
  datatype Json =
    | JNull
    | JBool(b: bool)
    | JNum(n: int)
    | JStr(s: string)
    | JArr(items: seq<Json>)
    | JObj(fields: map<string, Json>)

  /** A property read on a plain object: `None` stands for `undefined`. */
  function Prop(o: map<string, Json>, k: string): Option<Json>
  {
    if k in o then Some(o[k]) else None
  }

  /**
   * `v.k` on a value that is not null: objects have their own properties,
   * every other value yields `undefined` for the keys used here.
   */
  function Member(v: Json, k: string): Option<Json>
  {
    if v.JObj? then Prop(v.fields, k) else None
  }

  /** JavaScript truthiness of a possibly-undefined value. */
  predicate Truthy(v: Option<Json>)
  {
    match v
    case None => false
    case Some(j) =>
      match j
      case JNull => false
      case JBool(b) => b
      case JNum(n) => n != 0
      case JStr(s) => s != ""
      case JArr(_) => true
      case JObj(_) => true
  }

  /** `a || b` */
  function Or(a: Option<Json>, b: Json): Json
  {
    if Truthy(a) then a.value else b
  }

  /** `a ?? b`: only null and undefined fall through. */
  function Coalesce(a: Option<Json>, b: Json): Json
  {
    if a.Some? && a.value != JNull then a.value else b
  }

  /** A string-or-null value (a storage slot, a query parameter) is truthy iff it is a non-empty string. */
  predicate Filled(s: Option<string>)
  {
    s.Some? && s.value != ""
  }

  /** `s || d` on a string-or-null value. */
  function OrStr(s: Option<string>, d: string): string
  {
    if Filled(s) then s.value else d
  }

  function Digit(d: nat): char
    requires d < 10
  {
    "0123456789"[d]
  }

  function NatToString(n: nat): (r: string)
    ensures |r| >= 1
  {
    if n < 10 then [Digit(n)] else NatToString(n / 10) + [Digit(n % 10)]
  }

  /** Decimal rendering of an integer, as `String(n)` prints it. */
  function IntToString(n: int): string
  {
    if n < 0 then "-" + NatToString(-n) else NatToString(n)
  }

  /** `String(v)`, also what a template literal `${v}` and `new Error(v)` produce. */
  function JsString(v: Option<Json>): string
  {
    match v
    case None => "undefined"
    case Some(j) => Stringify(j)
  }

  function Stringify(j: Json): string
  {
    match j
    case JNull => "null"
    case JBool(b) => if b then "true" else "false"
    case JNum(n) => IntToString(n)
    case JStr(s) => s
    case JArr(items) => JoinElements(items)
    case JObj(_) => "[object Object]"
  }

  /** `Array.prototype.toString`: elements joined by commas, null elements print as "". */
  function JoinElements(items: seq<Json>): string
    decreases items
  {
    if items == [] then ""
    else
      var head := if items[0] == JNull then "" else Stringify(items[0]);
      if |items| == 1 then head else head + "," + JoinElements(items[1..])
  }

  /** `String(x)` of a string-or-null value (a template literal over a nullable field). */
  function StrOrNull(s: Option<string>): string
  {
    if s.Some? then s.value else "null"
  }

  // ---------------------------------------------------------------------
  // Strings

  /** The characters `String.prototype.trim` removes (WhiteSpace and LineTerminator). */
  predicate IsSpace(c: char)
  {
    c == ' ' || c == '\t' || c == '\n' || c == '\r' || c == '\U{000B}' || c == '\U{000C}'
    || c == '\U{00A0}' || c == '\U{1680}' || ('\U{2000}' <= c <= '\U{200A}')
    || c == '\U{2028}' || c == '\U{2029}' || c == '\U{202F}' || c == '\U{205F}'
    || c == '\U{3000}' || c == '\U{FEFF}'
  }

  function TrimStart(s: string): (r: string)
    ensures |r| <= |s|
    ensures r == s[|s| - |r|..]
    ensures r == [] || !IsSpace(r[0])
    ensures forall i :: 0 <= i < |s| - |r| ==> IsSpace(s[i])
  {
    if s != [] && IsSpace(s[0]) then
      var r := TrimStart(s[1..]);
      assert s[1..][|s| - 1 - |r|..] == s[|s| - |r|..];
      assert forall i :: 1 <= i < |s| - |r| ==> s[i] == s[1..][i - 1];
      r
    else s
  }

  function TrimEnd(s: string): (r: string)
    ensures |r| <= |s|
    ensures r == s[..|r|]
    ensures r == [] || !IsSpace(r[|r| - 1])
    ensures forall i :: |r| <= i < |s| ==> IsSpace(s[i])
  {
    if s != [] && IsSpace(s[|s| - 1]) then
      var r := TrimEnd(s[..|s| - 1]);
      assert s[..|s| - 1][..|r|] == s[..|r|];
      assert forall i :: |r| <= i < |s| - 1 ==> s[i] == s[..|s| - 1][i];
      r
    else s
  }

  /** `s.trim()` */
  function Trim(s: string): string
  {
    TrimEnd(TrimStart(s))
  }

  /** A string whose first and last characters are not blank is its own trim. */
  lemma TrimUnchanged(s: string)
    requires s == [] || (!IsSpace(s[0]) && !IsSpace(s[|s| - 1]))
    ensures Trim(s) == s
  {
    assert TrimStart(s) == s;
  }

  /** `s.split(d)` for a one-character separator: every separator cuts, so "" gives [""]. */
  function Split(s: string, d: char): (r: seq<string>)
    ensures |r| >= 1
  {
    if s == [] then [""]
    else
      var rest := Split(s[1..], d);
      if s[0] == d then [""] + rest else [[s[0]] + rest[0]] + rest[1..]
  }

  /** `parts.join(d)`: separators between parts, none at either end. */
  function Join(parts: seq<string>, d: char): string
  {
    if parts == [] then ""
    else if |parts| == 1 then parts[0]
    else parts[0] + [d] + Join(parts[1..], d)
  }

  /** Splitting and re-joining on the same separator gives the string back. */
  lemma {:induction false} JoinSplit(s: string, d: char)
    ensures Join(Split(s, d), d) == s
  {
    if s != [] {
      var rest := Split(s[1..], d);
      JoinSplit(s[1..], d);
      if s[0] == d {
        assert Split(s, d) == [""] + rest;
        assert Join([""] + rest, d) == "" + [d] + Join(rest, d);
        assert s == [s[0]] + s[1..];
      } else {
        var parts := [[s[0]] + rest[0]] + rest[1..];
        assert Split(s, d) == parts;
        if |rest| == 1 {
          assert Join(parts, d) == [s[0]] + rest[0];
          assert Join(rest, d) == rest[0];
        } else {
          assert parts[1..] == rest[1..];
          assert Join(parts, d) == [s[0]] + rest[0] + [d] + Join(rest[1..], d);
          assert Join(rest, d) == rest[0] + [d] + Join(rest[1..], d);
        }
        assert s == [s[0]] + s[1..];
      }
    }
  }

  /** A string without the separator splits into itself alone. */
  lemma {:induction false} SplitWithout(s: string, d: char)
    requires d !in s
    ensures Split(s, d) == [s]
  {
    if s != [] {
      assert d !in s[1..] by {
        forall i | 0 <= i < |s[1..]| ensures s[1..][i] != d { assert s[1..][i] == s[i + 1]; }
      }
      SplitWithout(s[1..], d);
      assert [s[0]] + s[1..] == s;
    }
  }

  /** The first cut falls at the first separator. */
  lemma {:induction false} SplitAt(a: string, d: char, b: string)
    requires d !in a
    ensures Split(a + [d] + b, d) == [a] + Split(b, d)
  {
    if a == [] {
      assert a + [d] + b == [d] + b;
      assert ([d] + b)[1..] == b;
    } else {
      var s := a + [d] + b;
      assert s[0] == a[0];
      assert s[1..] == a[1..] + [d] + b;
      assert d !in a[1..] by {
        forall i | 0 <= i < |a[1..]| ensures a[1..][i] != d { assert a[1..][i] == a[i + 1]; }
      }
      SplitAt(a[1..], d, b);
      assert [a[0]] + a[1..] == a;
    }
  }

  /** ASCII case mapping (`toLowerCase` / `toUpperCase` restricted to A-Z / a-z). */
  function LowerChar(c: char): char
  {
    if 'A' <= c <= 'Z' then (c as int + 32) as char else c
  }

  function UpperChar(c: char): char
  {
    if 'a' <= c <= 'z' then (c as int - 32) as char else c
  }

  function ToLower(s: string): (r: string)
    ensures |r| == |s|
    ensures forall i :: 0 <= i < |s| ==> r[i] == LowerChar(s[i])
  {
    if s == [] then [] else [LowerChar(s[0])] + ToLower(s[1..])
  }

  function ToUpper(s: string): (r: string)
    ensures |r| == |s|
    ensures forall i :: 0 <= i < |s| ==> r[i] == UpperChar(s[i])
  {
    if s == [] then [] else [UpperChar(s[0])] + ToUpper(s[1..])
  }

  /** `s.startsWith(p)` */
  predicate StartsWith(s: string, p: string)
  {
    |p| <= |s| && s[..|p|] == p
  }
  /** `s.startsWith(p)` for some `p` of `prefixes` (`prefixes.some(p => s.startsWith(p))`). */
  predicate StartsWithAny(s: string, prefixes: seq<string>)
  {
    exists i | 0 <= i < |prefixes| :: StartsWith(s, prefixes[i])
  }

  // ---------------------------------------------------------------------
  // Number coercion

  predicate IsDigitChar(c: char)
  {
    '0' <= c <= '9'
  }

  predicate AllDigits(s: string)
  {
    forall i :: 0 <= i < |s| ==> IsDigitChar(s[i])
  }

  /** The value of a run of decimal digits. */
  function DigitsValue(s: string): nat
    requires AllDigits(s)
  {
    if s == [] then 0 else DigitsValue(s[..|s| - 1]) * 10 + (s[|s| - 1] as int - '0' as int)
  }

  /**
   * `Number(s)` for the integer literals this model has: blank is 0, an
   * optionally signed run of digits is its value, anything else is NaN (`None`).
   */
  function StringToNumber(s: string): Option<int>
  {
    LiteralValue(Trim(s))
  }

  /** The value of an already trimmed numeric literal. */
  function LiteralValue(t: string): Option<int>
  {
    if t == "" then Some(0)
    else if AllDigits(t) then Some(DigitsValue(t))
    else if |t| > 1 && t[0] == '-' && AllDigits(t[1..]) then Some(-(DigitsValue(t[1..]) as int))
    else if |t| > 1 && t[0] == '+' && AllDigits(t[1..]) then Some(DigitsValue(t[1..]))
    else None
  }

  /** The numeric coercion a relational operator applies; `None` is NaN. */
  function ToNumber(v: Option<Json>): Option<int>
  {
    match v
    case None => None
    case Some(j) =>
      match j
      case JNull => Some(0)
      case JBool(b) => Some(if b then 1 else 0)
      case JNum(n) => Some(n)
      case JStr(s) => StringToNumber(s)
      case JArr(items) => StringToNumber(JoinElements(items))
      case JObj(_) => None
  }

  /** `v > k`: false whenever `v` coerces to NaN. */
  predicate GreaterThan(v: Option<Json>, k: int)
  {
    var n := ToNumber(v); n.Some? && n.value > k
  }

  /** `v >= k` */
  predicate AtLeast(v: Option<Json>, k: int)
  {
    var n := ToNumber(v); n.Some? && n.value >= k
  }

  lemma {:induction false} NatToStringDigits(n: nat)
    ensures AllDigits(NatToString(n)) && DigitsValue(NatToString(n)) == n
  {
    var r := NatToString(n);
    if n >= 10 {
      NatToStringDigits(n / 10);
      assert r[..|r| - 1] == NatToString(n / 10);
    }
  }

  /** `Number(String(n)) === n` for a non-negative integer: its run of digits reads back as its value. */
  lemma NumberOfDigits(m: nat)
    ensures StringToNumber(NatToString(m)) == Some(m)
  {
    NatToStringDigits(m);
    var digits := NatToString(m);
    DigitNotSpace(digits[0]);
    DigitNotSpace(digits[|digits| - 1]);
    TrimUnchanged(digits);
  }

  /** `Number(String(-m)) === -m`: a minus sign before a run of digits reads back as the negated value. */
  lemma NumberOfNegative(m: nat)
    requires m > 0
    ensures StringToNumber("-" + NatToString(m)) == Some(-(m as int))
  {
    NatToStringDigits(m);
    var digits := NatToString(m);
    var s := "-" + digits;
    assert s[1..] == digits && s[|s| - 1] == digits[|digits| - 1];
    DigitNotSpace(digits[|digits| - 1]);
    TrimUnchanged(s);
    NegativeLiteral(s);
  }

  lemma DigitNotSpace(c: char)
    requires IsDigitChar(c)
    ensures !IsSpace(c)
  {
  }

  /** A trimmed `-` followed by digits is read as the negated digits. */
  lemma NegativeLiteral(t: string)
    requires |t| > 1 && t[0] == '-' && AllDigits(t[1..])
    ensures LiteralValue(t) == Some(-(DigitsValue(t[1..]) as int))
  {
    assert !IsDigitChar(t[0]);
  }

  // ---------------------------------------------------------------------
  // encodeURIComponent

  /** The characters `encodeURIComponent` leaves as they are. */
  predicate Unreserved(c: char)
  {
    ('A' <= c <= 'Z') || ('a' <= c <= 'z') || ('0' <= c <= '9')
    || c == '-' || c == '_' || c == '.' || c == '!' || c == '~' || c == '*' || c == '\'' || c == '(' || c == ')'
  }

  /** The UTF-8 encoding of one scalar value. */
  function Utf8(c: char): (bytes: seq<nat>)
    ensures 1 <= |bytes| <= 4
    ensures forall i :: 0 <= i < |bytes| ==> bytes[i] < 256
  {
    var n := c as int;
    if n < 0x80 then [n]
    else if n < 0x800 then [0xC0 + n / 64, 0x80 + n % 64]
    else if n < 0x10000 then [0xE0 + n / 4096, 0x80 + (n / 64) % 64, 0x80 + n % 64]
    else [0xF0 + n / 262144, 0x80 + (n / 4096) % 64, 0x80 + (n / 64) % 64, 0x80 + n % 64]
  }

  function HexDigit(d: nat): (c: char)
    requires d < 16
    ensures Unreserved(c)
  {
    "0123456789ABCDEF"[d]
  }

  /** `%XX` for each byte, upper-case hex. */
  function PercentBytes(bytes: seq<nat>): (r: string)
    requires forall i :: 0 <= i < |bytes| ==> bytes[i] < 256
    ensures forall i :: 0 <= i < |r| ==> r[i] == '%' || Unreserved(r[i])
  {
    if bytes == [] then ""
    else ['%', HexDigit(bytes[0] / 16), HexDigit(bytes[0] % 16)] + PercentBytes(bytes[1..])
  }

  /** `encodeURIComponent(s)` */
  function EncodeURIComponent(s: string): (r: string)
    ensures forall i :: 0 <= i < |r| ==> r[i] == '%' || Unreserved(r[i])
    ensures (forall i :: 0 <= i < |s| ==> Unreserved(s[i])) ==> r == s
  {
    if s == [] then ""
    else
      var head := if Unreserved(s[0]) then [s[0]] else PercentBytes(Utf8(s[0]));
      var rest := EncodeURIComponent(s[1..]);
      assert forall i :: 1 <= i < |s| ==> s[1..][i - 1] == s[i];
      head + rest
  }

  /** An encoded component cannot end a query value or start a fragment. */
  lemma EncodedStaysInValue(s: string)
    ensures '&' !in EncodeURIComponent(s) && '#' !in EncodeURIComponent(s)
    ensures '=' !in EncodeURIComponent(s) && '/' !in EncodeURIComponent(s)
  {
    var r := EncodeURIComponent(s);
    forall i | 0 <= i < |r| ensures r[i] != '&' && r[i] != '#' && r[i] != '=' && r[i] != '/' { }
  }
}
