/**
 * The JavaScript string and array built-ins the front end leans on, written out:
 * `trim`, `toLowerCase`, `includes`, `slice`, `parseInt`, `Number.prototype.toString`,
 * and the falsy fallbacks `a || b || 0` over optional numbers and strings.
 */
module Js {
  import opened Wrappers

  // ---- truthiness ----

  /** An optional string is truthy when it is present and not empty. */
  predicate TruthyStr(s: Option<string>) {
    s.Some? && s.value != ""
  }

  /** An optional number is truthy when it is present and not zero (NaN is modelled as absent). */
  predicate TruthyNum(x: Option<real>) {
    x.Some? && x.value != 0.0
  }

  /** `x || 0` for an optional number. */
  function OrZero(x: Option<real>): (r: real)
    ensures TruthyNum(x) ==> r == x.value
    ensures !TruthyNum(x) ==> r == 0.0
  {
    if x.Some? then x.value else 0.0
  }

  /** `a || b || 0` for two optional numbers. */
  function FirstTruthy(a: Option<real>, b: Option<real>): (r: real)
    ensures TruthyNum(a) ==> r == a.value
    ensures !TruthyNum(a) && TruthyNum(b) ==> r == b.value
    ensures !TruthyNum(a) && !TruthyNum(b) ==> r == 0.0
  {
    if TruthyNum(a) then a.value else OrZero(b)
  }

  /** `x > 0` for an optional number: `undefined > 0` is false. */
  predicate Positive(x: Option<real>) {
    x.Some? && x.value > 0.0
  }

  // ---- trim ----

  /** White space removed by `String.prototype.trim` (the ASCII and Latin-1 members). */
  predicate IsSpace(c: char) {
    c == ' ' || c == '\t' || c == '\n' || c == '\r' || c == '\U{000B}' || c == '\U{000C}' || c == '\U{00A0}'
  }

  /** A string made of white space only (the empty string included). */
  predicate IsBlank(s: string) {
    forall i :: 0 <= i < |s| ==> IsSpace(s[i])
  }

  /** `s.length`: UTF-16 code units, so a character beyond the Basic Multilingual Plane counts twice. */
  function Utf16Length(s: string): (n: nat)
    ensures n >= |s|
    ensures n == 0 <==> s == []
    ensures (forall i :: 0 <= i < |s| ==> s[i] as int < 0x1_0000) ==> n == |s|
  {
    if s == [] then 0 else (if s[0] as int < 0x1_0000 then 1 else 2) + Utf16Length(s[1..])
  }

  /** The length of a concatenation is the sum of the lengths. */
  lemma {:induction false} Utf16LengthAppend(a: string, b: string)
    ensures Utf16Length(a + b) == Utf16Length(a) + Utf16Length(b)
  {
    if a == [] {
      assert a + b == b;
    } else {
      var ab := a + b;
      assert ab[0] == a[0] && ab[1..] == a[1..] + b;
      assert Utf16Length(ab) == (if a[0] as int < 0x1_0000 then 1 else 2) + Utf16Length(a[1..] + b);
      Utf16LengthAppend(a[1..], b);
    }
  }

  /** A character beyond the Basic Multilingual Plane after plain ones adds two to `length`. */
  lemma AstralCharCountsTwice(s: string, c: char)
    requires forall k :: 0 <= k < |s| ==> s[k] as int < 0x1_0000
    requires c as int >= 0x1_0000
    ensures Utf16Length(s + [c]) == |s| + 2
  {
    Utf16LengthAppend(s, [c]);
  }

  function TrimStart(s: string): (r: string)
    ensures |r| <= |s| && r == s[|s| - |r|..]
    ensures forall i :: 0 <= i < |s| - |r| ==> IsSpace(s[i])
    ensures r == [] || !IsSpace(r[0])
  {
    if s != [] && IsSpace(s[0]) then TrimStart(s[1..]) else s
  }

  function TrimEnd(s: string): (r: string)
    ensures |r| <= |s| && r == s[..|r|]
    ensures forall i :: |r| <= i < |s| ==> IsSpace(s[i])
    ensures r == [] || !IsSpace(r[|r| - 1])
  {
    if s != [] && IsSpace(s[|s| - 1]) then TrimEnd(s[..|s| - 1]) else s
  }

  /** `s.trim()`. */
  function Trim(s: string): (r: string)
    ensures |r| <= |s|
    ensures r == [] || (!IsSpace(r[0]) && !IsSpace(r[|r| - 1]))
  {
    TrimEnd(TrimStart(s))
  }

  /** `s.trim()` is falsy exactly when `s` is blank. */
  lemma TrimEmptyIffBlank(s: string)
    ensures Trim(s) == [] <==> IsBlank(s)
  {
    var t := TrimStart(s);
    if t != [] {
      assert t[0] == s[|s| - |t|];
      assert Trim(s) != [] by {
        assert !IsSpace(t[0]);
      }
    }
  }

  // ---- toLowerCase, includes ----

  function LowerChar(c: char): char {
    if 'A' <= c <= 'Z' then (c as int - 'A' as int + 'a' as int) as char else c
  }

  /** `s.toLowerCase()` on the ASCII letters. */
  function ToLower(s: string): (r: string)
    ensures |r| == |s|
    ensures forall i :: 0 <= i < |s| ==> r[i] == LowerChar(s[i])
  {
    if s == [] then [] else [LowerChar(s[0])] + ToLower(s[1..])
  }

  /** `hay.includes(needle)`: `needle` starts at some position of `hay`. */
  predicate Includes(hay: string, needle: string) {
    needle <= hay || (hay != [] && Includes(hay[1..], needle))
  }

  /** `needle` occurs in `hay` starting at position `i`. */
  predicate OccursAt(hay: string, needle: string, i: int) {
    0 <= i <= |hay| - |needle| && hay[i..i + |needle|] == needle
  }

  /** An occurrence at any position makes `includes` hold. */
  lemma {:induction false} OccursIncludes(hay: string, needle: string, i: int)
    requires OccursAt(hay, needle, i)
    ensures Includes(hay, needle)
    decreases i
  {
    if i == 0 {
      assert hay[..|needle|] == needle;
    } else {
      assert hay[1..][i - 1..i - 1 + |needle|] == hay[i..i + |needle|];
      OccursIncludes(hay[1..], needle, i - 1);
    }
  }

  /** When `includes` holds the needle occurs at some position. */
  lemma {:induction false} IncludesOccurs(hay: string, needle: string)
    requires Includes(hay, needle)
    ensures exists i :: OccursAt(hay, needle, i)
  {
    if needle <= hay {
      assert OccursAt(hay, needle, 0);
    } else {
      IncludesOccurs(hay[1..], needle);
      var j :| OccursAt(hay[1..], needle, j);
      assert hay[1..][j..j + |needle|] == hay[j + 1..j + 1 + |needle|];
      assert OccursAt(hay, needle, j + 1);
    }
  }

  /** The recursive test agrees with the positional definition of a substring. */
  lemma {:induction false} IncludesIffOccurs(hay: string, needle: string)
    ensures Includes(hay, needle) <==> exists i :: OccursAt(hay, needle, i)
  {
    if Includes(hay, needle) {
      IncludesOccurs(hay, needle);
    }
    forall i | OccursAt(hay, needle, i)
      ensures Includes(hay, needle)
    {
      OccursIncludes(hay, needle, i);
    }
  }

  /** Every string includes the empty string. */
  lemma {:induction false} IncludesEmpty(hay: string)
    ensures Includes(hay, "")
  {
  }

  // ---- slice ----

  /** How `slice` resolves an index: negative counts from the end, then clamp to `[0, len]`. */
  function RelativeIndex(i: int, len: nat): (k: nat)
    ensures k <= len
  {
    if i < 0 then (if len + i < 0 then 0 else len + i) else if i > len then len else i
  }

  /** `s.slice(start, end)` for arrays and strings. */
  function Slice<T>(s: seq<T>, start: int, end: int): (r: seq<T>)
    ensures |r| <= |s|
  {
    var a, b := RelativeIndex(start, |s|), RelativeIndex(end, |s|);
    if a < b then s[a..b] else []
  }

  /** With indices in range, `slice` is the ordinary subsequence. */
  lemma SliceInRange<T>(s: seq<T>, start: int, end: int)
    requires 0 <= start <= end
    ensures Slice(s, start, end) == s[(if start < |s| then start else |s|)..(if end < |s| then end else |s|)]
  {
  }

  // ---- parseInt and toString on integers ----

  predicate IsDigit(c: char) {
    '0' <= c <= '9'
  }

  predicate AllDigits(s: string) {
    forall i :: 0 <= i < |s| ==> IsDigit(s[i])
  }

  /** The longest prefix of `s` made of decimal digits. */
  function DigitPrefix(s: string): (d: string)
    ensures d <= s && AllDigits(d)
    ensures |d| == |s| || !IsDigit(s[|d|])
  {
    if s != [] && IsDigit(s[0]) then [s[0]] + DigitPrefix(s[1..]) else []
  }

  /** The value of a string of decimal digits, most significant first. */
  function DigitsValue(d: string): nat
    requires AllDigits(d)
  {
    if d == [] then 0 else DigitsValue(d[..|d| - 1]) * 10 + (d[|d| - 1] as int - '0' as int)
  }

  /**
   * `parseInt(s)` with no radix, for decimal text: skip leading white space, read an optional
   * sign, then the longest run of digits; no digits gives NaN (`None`).
   */
  function ParseInt(s: string): (r: Option<int>)
    ensures r.Some? && (TrimStart(s) == [] || TrimStart(s)[0] != '-') ==> r.value >= 0
  {
    var t := TrimStart(s);
    var negative := t != [] && t[0] == '-';
    var body := if t != [] && (t[0] == '-' || t[0] == '+') then t[1..] else t;
    var d := DigitPrefix(body);
    if d == [] then None else Some(if negative then -(DigitsValue(d) as int) else DigitsValue(d))
  }

  function DigitChar(k: nat): (c: char)
    requires k < 10
    ensures IsDigit(c) && c as int - '0' as int == k
  {
    ('0' as int + k) as char
  }

  /** `n.toString()` for a natural number: its decimal digits without leading zeros. */
  function NatToString(n: nat): (s: string)
    ensures s != [] && AllDigits(s)
    ensures |s| > 1 ==> s[0] != '0'
  {
    if n < 10 then [DigitChar(n)] else NatToString(n / 10) + [DigitChar(n % 10)]
  }

  /** `n.toString()` for an integer. */
  function IntToString(n: int): string {
    if n < 0 then "-" + NatToString(-n) else NatToString(n)
  }

  lemma {:induction false} NatToStringValue(n: nat)
    ensures DigitsValue(NatToString(n)) == n
  {
    if n >= 10 {
      NatToStringValue(n / 10);
      var s := NatToString(n);
      assert s[..|s| - 1] == NatToString(n / 10);
    }
  }

  lemma {:induction false} DigitPrefixOfDigits(s: string)
    requires AllDigits(s)
    ensures DigitPrefix(s) == s
  {
    if s != [] {
      DigitPrefixOfDigits(s[1..]);
    }
  }

  /** Reading a string of digits (no sign, no leading space) gives its value. */
  lemma ParseDigits(d: string)
    requires d != [] && AllDigits(d)
    ensures ParseInt(d) == Some(DigitsValue(d))
  {
    assert !IsSpace(d[0]) && d[0] != '-' && d[0] != '+';
    assert TrimStart(d) == d;
    DigitPrefixOfDigits(d);
  }

  /** Reading `-` followed by digits gives the negated value. */
  lemma ParseNegativeDigits(d: string)
    requires d != [] && AllDigits(d)
    ensures ParseInt("-" + d) == Some(-(DigitsValue(d) as int))
  {
    var s := ['-'] + d;
    assert s[0] == '-';
    assert !IsSpace(s[0]);
    assert TrimStart(s) == s;
    assert s[1..] == d;
    DigitPrefixOfDigits(d);
    assert DigitPrefix(s[1..]) == d;
  }

  /** `parseInt` reads back what `toString` writes. */
  lemma ParseIntRoundTrip(n: int)
    ensures ParseInt(IntToString(n)) == Some(n)
  {
    var d := NatToString(if n < 0 then -n else n);
    NatToStringValue(if n < 0 then -n else n);
    if n < 0 {
      ParseNegativeDigits(d);
    } else {
      ParseDigits(d);
    }
  }
  // ---- parseFloat on decimal text ----

  function Pow10(k: nat): (p: nat)
    ensures p >= 1
  {
    if k == 0 then 1 else 10 * Pow10(k - 1)
  }

  /**
   * `parseFloat(s)` for decimal text: skip leading white space, read an optional sign, the digits
   * of the integer part and, after a `.`, those of the fraction; with no digit in either part the
   * result is NaN (`None`). Exponents and `Infinity` are not read.
   */
  function ParseFloat(s: string): Option<real> {
    var t := TrimStart(s);
    var negative := t != [] && t[0] == '-';
    var body := if t != [] && (t[0] == '-' || t[0] == '+') then t[1..] else t;
    var whole := DigitPrefix(body);
    var rest := body[|whole|..];
    var frac := FractionDigits(rest);
    if whole == [] && frac == [] then None
    else
      var magnitude := Magnitude(whole, frac);
      Some(if negative then -magnitude else magnitude)
  }

  /** The digits after a leading `.`, if any. */
  function FractionDigits(rest: string): (frac: string)
    ensures AllDigits(frac)
    ensures rest == [] ==> frac == []
  {
    if rest != [] && rest[0] == '.' then DigitPrefix(rest[1..]) else []
  }

  /** The value of an integer part and a fraction part written in decimal. */
  function Magnitude(whole: string, frac: string): (m: real)
    requires AllDigits(whole) && AllDigits(frac)
    ensures m >= DigitsValue(whole) as real
    ensures frac == [] ==> m == DigitsValue(whole) as real
  {
    var f := DigitsValue(frac) as real / Pow10(|frac|) as real;
    assert f >= 0.0;
    DigitsValue(whole) as real + f
  }

  /** Text that does not start (after white space) with `-` never reads as a negative number. */
  lemma ParseFloatUnsigned(s: string)
    requires TrimStart(s) == [] || TrimStart(s)[0] != '-'
    ensures ParseFloat(s).Some? ==> ParseFloat(s).value >= 0.0
  {
  }

  /** Reading a string of digits gives its value, as `parseInt` does. */
  lemma ParseFloatDigits(d: string)
    requires d != [] && AllDigits(d)
    ensures ParseFloat(d) == Some(DigitsValue(d) as real)
  {
    assert !IsSpace(d[0]) && d[0] != '-' && d[0] != '+';
    assert TrimStart(d) == d;
    DigitPrefixOfDigits(d);
    assert d[|d|..] == [];
    assert FractionDigits(d[|d|..]) == [];
  }

  /** Reading `-` followed by digits gives the negated value. */
  lemma ParseFloatNegativeDigits(d: string)
    requires d != [] && AllDigits(d)
    ensures ParseFloat("-" + d) == Some(-(DigitsValue(d) as real))
  {
    var s := ['-'] + d;
    assert s[0] == '-';
    assert !IsSpace(s[0]);
    assert TrimStart(s) == s;
    assert s[1..] == d;
    DigitPrefixOfDigits(d);
    assert DigitPrefix(s[1..]) == d;
    assert d[|d|..] == [];
    assert FractionDigits(d[|d|..]) == [];
  }

  /** `parseFloat` reads back what `toString` writes for a whole number. */
  lemma ParseFloatRoundTrip(n: int)
    ensures ParseFloat(IntToString(n)) == Some(n as real)
  {
    var d := NatToString(if n < 0 then -n else n);
    NatToStringValue(if n < 0 then -n else n);
    if n < 0 {
      ParseFloatNegativeDigits(d);
    } else {
      ParseFloatDigits(d);
    }
  }

  // ---- toString on numbers ----

  /**
   * Up to `n` decimal digits of a fraction in `[0, 1)`, stopping as soon as nothing is left, so
   * the text never ends in `0`.
   */
  function FractionText(f: real, n: nat): (t: string)
    requires 0.0 <= f < 1.0
    ensures AllDigits(t) && |t| <= n
    ensures t != [] ==> t[|t| - 1] != '0'
    decreases n
  {
    if n == 0 || f == 0.0 then ""
    else
      var d := (f * 10.0).Floor;
      var rest := FractionText(f * 10.0 - d as real, n - 1);
      if rest == [] && d == 0 then "" else [DigitChar(d)] + rest
  }

  /**
   * `Number.prototype.toString` on a finite number: a sign, the integer part, and the fraction
   * when there is one (written to at most 20 places, which covers every amount in rupees and paise).
   */
  function NumberToString(x: real): (r: string)
    ensures r != [] && (r[0] == '-' <==> x < 0.0)
  {
    var a := if x < 0.0 then -x else x;
    var whole := a.Floor;
    var fraction := FractionText(a - whole as real, 20);
    (if x < 0.0 then "-" else "") + NatToString(whole) + (if fraction == [] then "" else "." + fraction)
  }

  /** A whole number is written as the integer it is. */
  lemma WholeNumberToString(x: real)
    requires x == x.Floor as real
    ensures NumberToString(x) == IntToString(x.Floor)
  {
    if x < 0.0 {
      var k := x.Floor;
      assert (-x).Floor == -k by {
        assert -x == (-k) as real;
      }
      assert FractionText(-x - (-k) as real, 20) == "";
    } else {
      assert FractionText(x - x.Floor as real, 20) == "";
    }
  }

  /** `parseFloat` reads back what `toString` writes for a whole number. */
  lemma ParseWholeNumber(x: real)
    requires x == x.Floor as real
    ensures ParseFloat(NumberToString(x)) == Some(x)
  {
    WholeNumberToString(x);
    ParseFloatRoundTrip(x.Floor);
  }
}
