/**
 * The slice of JavaScript value semantics the POS relies on: truthiness
 * (`x || d`, `if (x)`), `parseInt` / `parseFloat` on form input,
 * `String(n)` for counters, `padStart`, `toLowerCase`, `includes` and
 * `slice(0, n)`. Numbers are modelled as reals; there is no IEEE rounding.
 */
module Js {

  /** A value that may arrive in a JSON request body or a form field. */
  datatype JsValue = Undefined | Null | Bool(b: bool) | Num(n: real) | NaN | Str(s: string)

  /** JavaScript truthiness: `false`, `0`, `""`, `null`, `undefined` and `NaN` are falsy. */
  predicate Truthy(v: JsValue) {
    match v
    case Undefined => false
    case Null => false
    case NaN => false
    case Bool(b) => b
    case Num(n) => n != 0.0
    case Str(s) => s != ""
  }

  /** `v || d` */
  function Or(v: JsValue, d: JsValue): (r: JsValue)
    ensures Truthy(v) ==> r == v
    ensures !Truthy(v) ==> r == d
  {
    if Truthy(v) then v else d
  }

  // ---------------------------------------------------------------------
  // Digits and decimal text

  predicate IsDigit(c: char) { '0' <= c <= '9' }

  predicate AllDigits(d: string) { forall i :: 0 <= i < |d| ==> IsDigit(d[i]) }

  function DigitValue(c: char): (v: nat)
    requires IsDigit(c)
    ensures v < 10
  {
    c as int - '0' as int
  }

  function DigitChar(v: nat): (c: char)
    requires v < 10
    ensures IsDigit(c) && DigitValue(c) == v
  {
    (v + '0' as int) as char
  }

  /** Value of a run of decimal digits, most significant first (leading zeros allowed). */
  function DigitsValue(d: string): nat
    requires AllDigits(d)
  {
    if d == [] then 0 else DigitsValue(d[..|d| - 1]) * 10 + DigitValue(d[|d| - 1])
  }

  /** `String(n)` for a non-negative integer below 10^21: its decimal digits, no leading zeros. */
  function NatToString(n: nat): (s: string)
    ensures |s| >= 1 && AllDigits(s)
    ensures (|s| > 1 ==> s[0] != '0')
  {
    if n < 10 then [DigitChar(n)] else NatToString(n / 10) + [DigitChar(n % 10)]
  }

  lemma {:induction false} NatToStringValue(n: nat)
    ensures DigitsValue(NatToString(n)) == n
  {
    if n >= 10 {
      var s := NatToString(n);
      assert s[..|s| - 1] == NatToString(n / 10);
      NatToStringValue(n / 10);
    }
  }

  /** Number of leading digits of s. */
  function LeadingDigits(s: string): (k: nat)
    ensures k <= |s| && AllDigits(s[..k])
    ensures k < |s| ==> !IsDigit(s[k])
  {
    if s == [] || !IsDigit(s[0]) then 0
    else
      var k := 1 + LeadingDigits(s[1..]);
      assert s[..k] == [s[0]] + s[1..][..k - 1];
      k
  }

  function Repeat(c: char, n: nat): (s: string)
    ensures |s| == n && forall i :: 0 <= i < n ==> s[i] == c
  {
    if n == 0 then [] else [c] + Repeat(c, n - 1)
  }

  /** `s.padStart(width, c)` with a one-character fill. */
  function PadStart(s: string, width: nat, c: char): (r: string)
    ensures |r| == if |s| >= width then |s| else width
    ensures r[|r| - |s|..] == s
    ensures forall i :: 0 <= i < |r| - |s| ==> r[i] == c
  {
    if |s| >= width then s else Repeat(c, width - |s|) + s
  }

  lemma {:induction false} LeadingZerosValue(z: nat, d: string)
    requires AllDigits(d)
    ensures AllDigits(Repeat('0', z) + d)
    ensures DigitsValue(Repeat('0', z) + d) == DigitsValue(d)
  {
    var w := Repeat('0', z) + d;
    assert AllDigits(w) by {
      forall i | 0 <= i < |w| ensures IsDigit(w[i]) {
        if i >= z { assert w[i] == d[i - z]; }
      }
    }
    if d == [] {
      assert w == Repeat('0', z);
      ZerosValue(z);
    } else {
      var d' := d[..|d| - 1];
      assert w[..|w| - 1] == Repeat('0', z) + d';
      LeadingZerosValue(z, d');
    }
  }

  lemma {:induction false} ZerosValue(z: nat)
    ensures AllDigits(Repeat('0', z)) && DigitsValue(Repeat('0', z)) == 0
  {
    if z > 0 {
      var w := Repeat('0', z);
      assert w[..z - 1] == Repeat('0', z - 1);
      ZerosValue(z - 1);
    }
  }

  // ---------------------------------------------------------------------
  // parseInt / parseFloat

  /** The whitespace `parseInt` and `parseFloat` skip (ASCII part). */
  predicate IsSpace(c: char) { c == ' ' || c == '\t' || c == '\n' || c == '\r' }

  function TrimStart(s: string): (t: string)
    ensures |t| <= |s| && t == s[|s| - |t|..]
    ensures t != [] ==> !IsSpace(t[0])
    ensures (s == [] || !IsSpace(s[0])) ==> t == s
  {
    if s != [] && IsSpace(s[0]) then TrimStart(s[1..]) else s
  }

  /** Truncation toward zero, as `parseInt(String(x))` does for an ordinary decimal x. */
  function Trunc(x: real): (r: int)
    ensures x >= 0.0 ==> 0.0 <= r as real <= x < r as real + 1.0
    ensures x < 0.0 ==> r as real - 1.0 < x <= r as real <= 0.0
  {
    if x >= 0.0 then x.Floor else -((-x).Floor)
  }

  /** Whether the text starts with a minus sign. */
  predicate Negative(t: string) { t != [] && t[0] == '-' }

  /** The text after an optional leading sign. */
  function AfterSign(t: string): (u: string)
    ensures |u| <= |t|
  {
    if t != [] && (t[0] == '-' || t[0] == '+') then t[1..] else t
  }

  /** The run of digits at the start of u. */
  function DigitPrefix(u: string): (d: string)
    ensures |d| <= |u| && AllDigits(d) && d == u[..|d|]
  {
    u[..LeadingDigits(u)]
  }

  function Signed(neg: bool, v: nat): (i: int)
    ensures neg ==> i == -(v as int)
    ensures !neg ==> i == v
  {
    if neg then -(v as int) else v
  }

  predicate IsHexDigit(c: char) { IsDigit(c) || 'a' <= c <= 'f' || 'A' <= c <= 'F' }

  predicate AllHex(h: string) { forall i :: 0 <= i < |h| ==> IsHexDigit(h[i]) }

  function HexDigitValue(c: char): (v: nat)
    requires IsHexDigit(c)
    ensures v < 16
    ensures IsDigit(c) ==> v == DigitValue(c)
  {
    if IsDigit(c) then DigitValue(c)
    else if 'a' <= c <= 'f' then c as int - 'a' as int + 10
    else c as int - 'A' as int + 10
  }

  /** Value of a run of hexadecimal digits, most significant first. */
  function HexValue(h: string): nat
    requires AllHex(h)
  {
    if h == [] then 0 else HexValue(h[..|h| - 1]) * 16 + HexDigitValue(h[|h| - 1])
  }

  /** Number of leading hexadecimal digits of s. */
  function LeadingHex(s: string): (k: nat)
    ensures k <= |s| && AllHex(s[..k])
    ensures k < |s| ==> !IsHexDigit(s[k])
  {
    if s == [] || !IsHexDigit(s[0]) then 0
    else
      var k := 1 + LeadingHex(s[1..]);
      assert s[..k] == [s[0]] + s[1..][..k - 1];
      k
  }

  /** Text after the sign that `parseInt` without a radix reads in base 16: it starts with "0x" or "0X". */
  predicate HexPrefixed(u: string) { |u| >= 2 && u[0] == '0' && (u[1] == 'x' || u[1] == 'X') }

  /**
   * `parseInt(text)` with no radix: leading blanks, an optional sign, then
   * either "0x"/"0X" and hexadecimal digits, or decimal digits.
   */
  function ParseIntText(s: string): (r: JsValue)
    ensures r.Num? || r.NaN?
    ensures r.Num? ==> r.n == r.n.Floor as real
  {
    var t := TrimStart(s);
    var u := AfterSign(t);
    if HexPrefixed(u) then
      var h := u[2..][..LeadingHex(u[2..])];
      if h == [] then NaN else Num(Signed(Negative(t), HexValue(h)) as real)
    else
      var d := DigitPrefix(u);
      if d == [] then NaN else Num(Signed(Negative(t), DigitsValue(d)) as real)
  }

  /**
   * `parseInt(v)`: a non-string operand is first turned into its text. A
   * number is modelled as its truncation, which is what that text gives
   * when `String` writes it without an exponent.
   */
  function ParseInt(v: JsValue): (r: JsValue)
    ensures r.Num? || r.NaN?
    ensures r.Num? ==> r.n == r.n.Floor as real
  {
    match v
    case Num(n) => Num(Trunc(n) as real)
    case Str(s) => ParseIntText(s)
    case _ => NaN
  }

  function Pow10(k: nat): (p: nat)
    ensures p >= 1
  {
    if k == 0 then 1 else 10 * Pow10(k - 1)
  }

  /** The digits after a decimal point at the start of rest, if there is one. */
  function FractionDigits(rest: string): (f: string)
    ensures AllDigits(f)
  {
    if rest != [] && rest[0] == '.' then DigitPrefix(rest[1..]) else []
  }

  /** `parseFloat(text)`: leading blanks, an optional sign, digits with an optional fraction. */
  function ParseFloatText(s: string): (r: JsValue)
    ensures r.Num? || r.NaN?
  {
    var t := TrimStart(s);
    var u := AfterSign(t);
    var w := DigitPrefix(u);
    var f := FractionDigits(u[|w|..]);
    if w == [] && f == [] then NaN
    else
      var x := DigitsValue(w) as real + DigitsValue(f) as real / Pow10(|f|) as real;
      Num(if Negative(t) then -x else x)
  }

  /** `parseFloat(v)` */
  function ParseFloat(v: JsValue): (r: JsValue)
    ensures r.Num? || r.NaN?
    ensures v.Num? ==> r == v
  {
    match v
    case Num(n) => Num(n)
    case Str(s) => ParseFloatText(s)
    case _ => NaN
  }

  lemma {:induction false} LeadingDigitsAll(s: string)
    requires AllDigits(s)
    ensures LeadingDigits(s) == |s| && DigitPrefix(s) == s
  {
    if s != [] { LeadingDigitsAll(s[1..]); }
  }

  lemma DigitNoBlank(p: string)
    requires p != [] && IsDigit(p[0])
    ensures TrimStart(p) == p
  {
    assert !IsSpace(p[0]);
  }

  lemma DigitNoSign(p: string)
    requires p != [] && IsDigit(p[0])
    ensures AfterSign(p) == p && !Negative(p)
  {
    assert p[0] != '-' && p[0] != '+';
  }

  lemma DigitsNoHex(p: string)
    requires p != [] && IsDigit(p[0]) && (|p| >= 2 ==> IsDigit(p[1]))
    ensures !HexPrefixed(p)
  {
  }

  /** Text starting with digits has no blanks to skip, no sign, and no "0x" in front of it. */
  lemma DigitStart(p: string)
    requires p != [] && IsDigit(p[0]) && (|p| >= 2 ==> IsDigit(p[1]))
    ensures TrimStart(p) == p && AfterSign(p) == p && !Negative(p) && !HexPrefixed(p)
  {
    DigitNoBlank(p);
    DigitNoSign(p);
    DigitsNoHex(p);
  }

  /** A plain run of digits: no blanks to skip, no sign, and all of it is the digit prefix. */
  lemma PlainDigits(p: string)
    requires p != [] && AllDigits(p)
    ensures TrimStart(p) == p && AfterSign(p) == p && !Negative(p) && !HexPrefixed(p)
    ensures DigitPrefix(p) == p && FractionDigits(p[|p|..]) == []
  {
    DigitStart(p);
    LeadingDigitsAll(p);
    assert p[|p|..] == [];
  }

  /** A plain run of digits parses with `parseInt` to its value. */
  lemma IntDigitsParse(p: string)
    requires p != [] && AllDigits(p)
    ensures ParseIntText(p) == Num(DigitsValue(p) as real)
  {
    PlainDigits(p);
  }

  /** A plain run of digits parses with `parseFloat` to its value. */
  lemma FloatDigitsParse(p: string)
    requires p != [] && AllDigits(p)
    ensures ParseFloatText(p) == Num(DigitsValue(p) as real)
  {
    PlainDigits(p);
    var u := AfterSign(TrimStart(p));
    assert u == p && DigitPrefix(u) == p;
    assert FractionDigits(u[|p|..]) == [];
    assert DigitsValue([]) == 0 && Pow10(0) == 1;
  }

  /** Zero padding keeps the text a run of digits with the same value. */
  lemma PaddedDigits(n: nat, width: nat)
    ensures var p := PadStart(NatToString(n), width, '0');
      p != [] && AllDigits(p) && DigitsValue(p) == n
  {
    var d := NatToString(n);
    var p := PadStart(d, width, '0');
    var z := |p| - |d|;
    assert p == Repeat('0', z) + d;
    LeadingZerosValue(z, d);
    NatToStringValue(n);
  }

  /** `parseInt(String(n))` gives n back, also after zero padding. */
  lemma ParseIntPaddedRoundTrip(n: nat, width: nat)
    ensures ParseInt(Str(PadStart(NatToString(n), width, '0'))) == Num(n as real)
  {
    var p := PadStart(NatToString(n), width, '0');
    PaddedDigits(n, width);
    IntDigitsParse(p);
    assert ParseInt(Str(p)) == ParseIntText(p);
  }

  /** `parseFloat(String(n))` gives n back for a whole number. */
  lemma ParseFloatNatRoundTrip(n: nat)
    ensures ParseFloat(Str(NatToString(n))) == Num(n as real)
  {
    NatToStringValue(n);
    FloatDigitsParse(NatToString(n));
  }

  /** A negative whole number written with a minus sign parses to itself. */
  lemma ParseIntNegative(n: nat)
    ensures ParseInt(Str("-" + NatToString(n))) == Num(-(n as real))
  {
    var d := NatToString(n);
    var t := "-" + d;
    assert TrimStart(t) == t && Negative(t) && AfterSign(t) == d;
    assert !HexPrefixed(d) by {
      assert IsDigit(d[0]) && (|d| >= 2 ==> IsDigit(d[1]));
    }
    NatToStringValue(n);
    LeadingDigitsAll(d);
  }

  lemma {:induction false} LeadingHexAll(s: string)
    requires AllHex(s)
    ensures LeadingHex(s) == |s| && s[..LeadingHex(s)] == s
  {
    if s != [] { LeadingHexAll(s[1..]); }
  }

  /** "0x" followed by hexadecimal digits is read in base 16, as `parseInt` without a radix does. */
  lemma HexDigitsParse(h: string)
    requires h != [] && AllHex(h)
    ensures ParseIntText("0x" + h) == Num(HexValue(h) as real)
  {
    var t := "0x" + h;
    assert t[0] == '0' && t[1] == 'x';
    assert TrimStart(t) == t;
    assert AfterSign(t) == t && !Negative(t);
    assert t[2..] == h;
    LeadingHexAll(h);
  }

  /** "0x" not followed by a hexadecimal digit is NaN: the text is not read as the decimal 0. */
  lemma HexWithoutDigits(rest: string)
    requires rest == [] || !IsHexDigit(rest[0])
    ensures ParseIntText("0x" + rest) == NaN
  {
    var t := "0x" + rest;
    assert t[0] == '0' && t[1] == 'x';
    assert TrimStart(t) == t;
    assert AfterSign(t) == t;
    assert t[2..] == rest;
  }

  // ---------------------------------------------------------------------
  // Text helpers used by the search filter and the sale labels

  /** `toLowerCase()` on ASCII letters; other characters are kept. */
  function ToLower(s: string): (r: string)
    ensures |r| == |s|
    ensures forall i :: 0 <= i < |s| ==>
      r[i] == if 'A' <= s[i] <= 'Z' then (s[i] as int + 32) as char else s[i]
  {
    if s == [] then []
    else [if 'A' <= s[0] <= 'Z' then (s[0] as int + 32) as char else s[0]] + ToLower(s[1..])
  }

  /** `s.includes(q)` */
  predicate Includes(s: string, q: string) {
    exists i :: 0 <= i <= |s| - |q| && OccursAt(s, q, i)
  }

  predicate OccursAt(s: string, q: string, i: int) {
    0 <= i <= |s| - |q| && s[i..i + |q|] == q
  }

  /** Every string includes the empty string. */
  lemma IncludesEmpty(s: string)
    ensures Includes(s, "")
  {
    assert OccursAt(s, "", 0);
  }

  /** `s.findIndex(x => key(x) === k)`: the first position whose key is k, or -1 when there is none. */
  function IndexOfKey<T, K(==)>(s: seq<T>, key: T -> K, k: K): (i: int)
    ensures -1 <= i < |s|
    ensures i >= 0 ==> key(s[i]) == k && forall j :: 0 <= j < i ==> key(s[j]) != k
    ensures i == -1 <==> forall j :: 0 <= j < |s| ==> key(s[j]) != k
  {
    if s == [] then -1
    else if key(s[0]) == k then 0
    else
      var r := IndexOfKey(s[1..], key, k);
      if r == -1 then -1 else r + 1
  }

  /** `s.indexOf(x)`: the position of x's first occurrence in s, or -1. */
  function FirstAt(s: seq<string>, x: string): (i: int)
    ensures -1 <= i < |s|
    ensures i >= 0 ==> s[i] == x && forall j :: 0 <= j < i ==> s[j] != x
    ensures i == -1 <==> x !in s
  {
    if s == [] then -1
    else if s[0] == x then 0
    else
      var r := FirstAt(s[1..], x);
      if r == -1 then -1 else r + 1
  }

  /** Past a different first value, the first occurrence is one further on than in the rest. */
  lemma FirstAtTail(s: seq<string>, x: string)
    requires s != [] && s[0] != x
    ensures FirstAt(s, x) == if FirstAt(s[1..], x) == -1 then -1 else FirstAt(s[1..], x) + 1
  {
  }

  /** `s.slice(0, n)` */
  function Prefix(s: string, n: nat): (r: string)
    ensures |r| == if |s| < n then |s| else n
    ensures r == s[..|r|]
  {
    if |s| < n then s else s[..n]
  }
}
