/**
 * The few JavaScript built-ins the components lean on, stated with the
 * language's own semantics: `String.prototype.trim`, `toLowerCase` (ASCII
 * letters only), `includes`, `startsWith`, `Number.prototype.toString`,
 * `padStart(2, '0')`, `parseInt` (decimal), and the truthiness of optional
 * strings and flags (`x || undefined`, `x || ''`, `!x`).
 */
module Js {
  import opened Wrappers

  // ---------------------------------------------------------------- whitespace

  /** The ECMAScript WhiteSpace and LineTerminator code points: what `trim` strips. */
  predicate IsWhitespace(c: char) {
    var n := c as int;
    n == 0x09 || n == 0x0A || n == 0x0B || n == 0x0C || n == 0x0D || n == 0x20
    || n == 0xA0 || n == 0x1680 || (0x2000 <= n <= 0x200A) || n == 0x2028
    || n == 0x2029 || n == 0x202F || n == 0x205F || n == 0x3000 || n == 0xFEFF
  }

  /** `s.trimStart()` */
  function TrimStart(s: string): (r: string)
    ensures |r| <= |s|
    ensures r != [] ==> !IsWhitespace(r[0])
  {
    if s != [] && IsWhitespace(s[0]) then TrimStart(s[1..]) else s
  }

  /** What `trimStart` keeps is a suffix of its input. */
  lemma {:induction false} TrimStartIsSuffix(s: string)
    ensures TrimStart(s) == s[|s| - |TrimStart(s)|..]
  {
    if s != [] && IsWhitespace(s[0]) {
      TrimStartIsSuffix(s[1..]);
    }
  }

  /** `s.trimEnd()` */
  function TrimEnd(s: string): (r: string)
    ensures |r| <= |s| && r == s[..|r|]
    ensures r != [] ==> !IsWhitespace(r[|r| - 1])
  {
    if s != [] && IsWhitespace(s[|s| - 1]) then TrimEnd(s[..|s| - 1]) else s
  }

  /** `s.trim()` */
  function Trim(s: string): string {
    TrimEnd(TrimStart(s))
  }

  /** `!s.trim()`: nothing is left once surrounding whitespace is stripped. */
  predicate IsBlank(s: string) {
    Trim(s) == ""
  }

  /** A string is blank exactly when every one of its characters is whitespace. */
  lemma {:induction false} BlankIffAllWhitespace(s: string)
    ensures IsBlank(s) <==> forall i :: 0 <= i < |s| ==> IsWhitespace(s[i])
  {
    TrimStartAllWhitespace(s);
    var t := TrimStart(s);
    if t != [] {
      assert !IsWhitespace(t[0]);
      assert TrimEnd(t) != [] by {
        if TrimEnd(t) == [] { TrimEndEmptyMeansAllWhitespace(t); }
      }
      TrimStartIsSuffix(s);
      assert s[|s| - |t|] == t[0];
    }
  }

  lemma {:induction false} TrimStartAllWhitespace(s: string)
    ensures TrimStart(s) == [] <==> forall i :: 0 <= i < |s| ==> IsWhitespace(s[i])
  {
    if s != [] && IsWhitespace(s[0]) {
      TrimStartAllWhitespace(s[1..]);
      assert forall i :: 1 <= i < |s| ==> s[i] == s[1..][i - 1];
    }
  }

  lemma {:induction false} TrimEndEmptyMeansAllWhitespace(s: string)
    requires TrimEnd(s) == []
    ensures forall i :: 0 <= i < |s| ==> IsWhitespace(s[i])
  {
    if s != [] {
      TrimEndEmptyMeansAllWhitespace(s[..|s| - 1]);
    }
  }

  // ------------------------------------------------------------ case and search

  /** `toLowerCase` on one character; only the ASCII letters are mapped. */
  function LowerChar(c: char): char {
    if 'A' <= c <= 'Z' then (c as int + 32) as char else c
  }

  /** `s.toLowerCase()`, restricted to ASCII letters. */
  function Lower(s: string): string {
    seq(|s|, i requires 0 <= i < |s| => LowerChar(s[i]))
  }

  /** `s.startsWith(prefix)` */
  predicate StartsWith(s: string, prefix: string) {
    |prefix| <= |s| && s[..|prefix|] == prefix
  }

  /** `s.includes(q)`: `q` starts at some position of `s`. */
  predicate Includes(s: string, q: string)
    decreases |s|
  {
    StartsWith(s, q) || (s != [] && Includes(s[1..], q))
  }

  /** `q` occurs in `s` starting at position `i`. */
  predicate OccursAt(s: string, q: string, i: int) {
    0 <= i <= |s| - |q| && s[i..i + |q|] == q
  }

  /** The search above agrees with the position-based definition of a substring. */
  lemma {:induction false} IncludesIff(s: string, q: string)
    ensures Includes(s, q) <==> exists i :: OccursAt(s, q, i)
    decreases |s|
  {
    if StartsWith(s, q) {
      assert OccursAt(s, q, 0);
    } else if s == [] {
    } else {
      IncludesIff(s[1..], q);
      if exists i :: OccursAt(s, q, i) {
        var i :| OccursAt(s, q, i);
        assert i != 0;
        assert OccursAt(s[1..], q, i - 1);
      }
      if exists j :: OccursAt(s[1..], q, j) {
        var j :| OccursAt(s[1..], q, j);
        assert s[j + 1..j + 1 + |q|] == s[1..][j..j + |q|];
        assert OccursAt(s, q, j + 1);
      }
    }
  }

  // ------------------------------------------------------------------- numbers

  /** A JavaScript number as the components use it: an integer, or `NaN`. */
  datatype Num = Int(value: int) | NaN

  /** A `number`-typed field as it can hold at run time: a number, or the `null` JSON gives back for `NaN`. */
  datatype NumOrNull = Number(n: Num) | Null

  /** `JSON.parse(JSON.stringify(x))` on a number field: `NaN` is written as `null`; integers survive. */
  function JsonRoundTrip(x: NumOrNull): (r: NumOrNull)
    ensures r != Number(NaN)
    ensures x != Number(NaN) ==> r == x
  {
    if x == Number(NaN) then Null else x
  }

  predicate IsDigit(c: char) {
    '0' <= c <= '9'
  }

  predicate AllDigits(s: string) {
    forall i :: 0 <= i < |s| ==> IsDigit(s[i])
  }

  function DigitChar(d: nat): (c: char)
    requires d < 10
    ensures IsDigit(c)
  {
    ('0' as int + d) as char
  }

  function DigitValue(c: char): (d: nat)
    requires IsDigit(c)
    ensures d < 10
  {
    c as int - '0' as int
  }

  /** `n.toString()` for a non-negative integer: its decimal digits, no leading zero. */
  function NatToString(n: nat): (r: string)
    ensures r != [] && AllDigits(r)
    decreases n
  {
    if n < 10 then [DigitChar(n)] else NatToString(n / 10) + [DigitChar(n % 10)]
  }

  /** `i.toString()` */
  function IntToString(i: int): string {
    if i < 0 then "-" + NatToString(-i) else NatToString(i)
  }

  /** The value of a string of decimal digits. */
  function DigitsValue(ds: string): nat
    requires AllDigits(ds)
  {
    if ds == [] then 0 else DigitsValue(ds[..|ds| - 1]) * 10 + DigitValue(ds[|ds| - 1])
  }

  /** The longest prefix of `s` made of decimal digits. */
  function DigitPrefix(s: string): (r: string)
    ensures |r| <= |s| && r == s[..|r|] && AllDigits(r)
    ensures |r| < |s| ==> !IsDigit(s[|r|])
  {
    if s != [] && IsDigit(s[0]) then [s[0]] + DigitPrefix(s[1..]) else []
  }

  /**
   * `parseInt(s)` with no radix, for decimal text: leading whitespace is
   * skipped, one sign is read, then the longest run of digits; with no digit
   * the result is `NaN`.
   */
  function ParseInt(s: string): (r: Num)
    ensures r.NaN? <==> DigitPrefix(SignStripped(TrimStart(s))) == []
  {
    var t := TrimStart(s);
    var ds := DigitPrefix(SignStripped(t));
    if ds == [] then NaN
    else if t[0] == '-' then Int(0 - DigitsValue(ds) as int)
    else Int(DigitsValue(ds))
  }

  function SignStripped(t: string): string {
    if t != [] && (t[0] == '-' || t[0] == '+') then t[1..] else t
  }

  lemma {:induction false} DigitsValueOfNatToString(n: nat)
    ensures DigitsValue(NatToString(n)) == n
    decreases n
  {
    if n >= 10 {
      var ds := NatToString(n);
      assert ds[..|ds| - 1] == NatToString(n / 10);
      DigitsValueOfNatToString(n / 10);
    }
  }

  lemma {:induction false} DigitPrefixOfDigits(s: string)
    requires AllDigits(s)
    ensures DigitPrefix(s) == s
  {
    if s != [] {
      DigitPrefixOfDigits(s[1..]);
    }
  }

  lemma ParseDigits(ds: string)
    requires ds != [] && AllDigits(ds)
    ensures ParseInt(ds) == Int(DigitsValue(ds))
  {
    assert !IsWhitespace(ds[0]);
    assert TrimStart(ds) == ds;
    assert SignStripped(ds) == ds;
    DigitPrefixOfDigits(ds);
  }

  lemma ParseNegativeDigits(ds: string)
    requires ds != [] && AllDigits(ds)
    ensures ParseInt("-" + ds) == Int(0 - DigitsValue(ds) as int)
  {
    var s := "-" + ds;
    assert !IsWhitespace(s[0]);
    assert TrimStart(s) == s;
    assert SignStripped(s) == ds;
    DigitPrefixOfDigits(ds);
  }

  /** `parseInt` reads back exactly the integer `toString` printed. */
  lemma ParseIntToString(i: int)
    ensures ParseInt(IntToString(i)) == Int(i)
  {
    if i < 0 {
      ParseNegativeDigits(NatToString(-i));
      DigitsValueOfNatToString(-i);
    } else {
      ParseDigits(NatToString(i));
      DigitsValueOfNatToString(i);
    }
  }

  /** `a % b` in JavaScript for a positive divisor: the remainder takes the sign of `a`. */
  function JsRemainder(a: int, b: int): (r: int)
    requires b > 0
    ensures a >= 0 ==> 0 <= r < b && r == a % b
    ensures a < 0 ==> -b < r <= 0 && r == -((-a) % b)
  {
    if a >= 0 then a % b else -((-a) % b)
  }

  /** `s.padStart(2, '0')` */
  function PadStart2(s: string): (r: string)
    ensures |s| >= 2 ==> r == s
    ensures |s| < 2 ==> |r| == 2 && r[2 - |s|..] == s && forall i :: 0 <= i < 2 - |s| ==> r[i] == '0'
  {
    if |s| >= 2 then s else seq(2 - |s|, _ => '0') + s
  }

  /** Leading zeros added by `padStart` do not change the value `parseInt` reads. */
  lemma PadStart2Parses(n: nat)
    ensures ParseInt(PadStart2(NatToString(n))) == Int(n)
  {
    var ds := NatToString(n);
    if |ds| >= 2 {
      ParseIntToString(n);
    } else {
      var p := PadStart2(ds);
      assert p == ['0', ds[0]];
      ParseDigits(p);
      assert p[..1] == ['0'];
      DigitsValueOfNatToString(n);
    }
  }

  // --------------------------------------------------------------- truthiness

  /** An optional string that JavaScript treats as true: present and non-empty. */
  predicate Truthy(s: Option<string>) {
    s.Some? && s.value != ""
  }

  /** An optional flag that JavaScript treats as true. */
  predicate TruthyFlag(b: Option<bool>) {
    b.Some? && b.value
  }

  /** `s || undefined`: the empty string is stored as absent. */
  function OrUndefined(s: string): (r: Option<string>)
    ensures Truthy(r) <==> s != ""
    ensures r.Some? ==> r.value == s
  {
    if s == "" then None else Some(s)
  }

  /** `s || ''`: a missing or empty string reads as the empty string. */
  function OrEmpty(s: Option<string>): (r: string)
    ensures r == "" <==> !Truthy(s)
  {
    if s.Some? then s.value else ""
  }

  /** Storing a form text with `|| undefined` and reading it back with `|| ''` is the identity. */
  lemma OrEmptyOrUndefined(s: string)
    ensures OrEmpty(OrUndefined(s)) == s
  {
  }
}
