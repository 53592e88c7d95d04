/**
 * The string operations the components use: `toLowerCase`, the
 * capitalisation `s.charAt(0).toUpperCase() + s.slice(1)`, `includes`, and
 * `Number.prototype.toFixed` for coordinates in a fallback place name.
 * Case mapping is modelled for ASCII letters only.
 */
module Text {

  /** String.prototype.toLowerCase on one character (ASCII letters). */
  function LowerChar(c: char): (r: char)
    ensures !('A' <= r <= 'Z')
    ensures !('A' <= c <= 'Z') ==> r == c
  {
    if 'A' <= c <= 'Z' then (c as int + 32) as char else c
  }

  /** String.prototype.toUpperCase on one character (ASCII letters). */
  function UpperChar(c: char): (r: char)
    ensures !('a' <= r <= 'z')
    ensures !('a' <= c <= 'z') ==> r == c
  {
    if 'a' <= c <= 'z' then (c as int - 32) as char else c
  }

  function ToLower(s: string): (r: string)
    ensures |r| == |s|
    ensures forall i :: 0 <= i < |s| ==> r[i] == LowerChar(s[i])
  {
    seq(|s|, i requires 0 <= i < |s| => LowerChar(s[i]))
  }

  /** Lower-casing twice is lower-casing once. */
  lemma ToLowerIdempotent(s: string)
    ensures ToLower(ToLower(s)) == ToLower(s)
  {
  }

  /** `s.charAt(0).toUpperCase() + s.slice(1)` */
  function Capitalize(s: string): (r: string)
    ensures |r| == |s|
    ensures |s| > 0 ==> r[0] == UpperChar(s[0]) && r[1..] == s[1..]
  {
    if s == "" then "" else [UpperChar(s[0])] + s[1..]
  }

  /**
   * String.prototype.length: the number of UTF-16 code units, where a
   * character above U+FFFF takes a surrogate pair.
   */
  function Utf16Length(s: string): (n: nat)
    ensures |s| <= n <= 2 * |s|
    ensures n == |s| <==> forall i :: 0 <= i < |s| ==> s[i] as int <= 0xFFFF
  {
    if s == [] then 0
    else
      assert forall i :: 1 <= i < |s| ==> s[1..][i - 1] == s[i];
      (if s[0] as int > 0xFFFF then 2 else 1) + Utf16Length(s[1..])
  }

  /** A character outside the Basic Multilingual Plane counts twice: "a😀" has length 3. */
  lemma Utf16LengthSurrogatePair()
    ensures |"a\U{1F600}"| == 2 && Utf16Length("a\U{1F600}") == 3
  {
  }

  /** `sub` occurs in `s` starting at index `i`. */
  predicate OccursAt(s: string, sub: string, i: int) {
    0 <= i && i + |sub| <= |s| && s[i..i + |sub|] == sub
  }

  /** String.prototype.includes, scanning from the left. */
  predicate Contains(s: string, sub: string)
    decreases |s|
  {
    |sub| <= |s| && (s[..|sub|] == sub || (|s| > 0 && Contains(s[1..], sub)))
  }

  /** An occurrence at any index makes `includes` true. */
  lemma {:induction false} OccursContains(s: string, sub: string, i: int)
    requires OccursAt(s, sub, i)
    ensures Contains(s, sub)
  {
    if i > 0 {
      assert s[1..][i - 1..i - 1 + |sub|] == s[i..i + |sub|];
      OccursContains(s[1..], sub, i - 1);
    } else {
      assert s[..|sub|] == sub;
    }
  }

  /** `includes` is true only when there is an occurrence at some index. */
  lemma {:induction false} ContainsOccurs(s: string, sub: string)
    requires Contains(s, sub)
    ensures exists i :: OccursAt(s, sub, i)
  {
    if s[..|sub|] == sub {
      assert OccursAt(s, sub, 0);
    } else {
      ContainsOccurs(s[1..], sub);
      var i :| OccursAt(s[1..], sub, i);
      assert s[1..][i..i + |sub|] == s[i + 1..i + 1 + |sub|];
      assert OccursAt(s, sub, i + 1);
    }
  }

  // ---- Number.prototype.toFixed -------------------------------------------

  function Pow10(k: nat): (r: nat)
    ensures r >= 1
  {
    if k == 0 then 1 else 10 * Pow10(k - 1)
  }

  predicate IsDigit(c: char) {
    '0' <= c <= '9'
  }

  predicate AllDigits(s: string) {
    forall i :: 0 <= i < |s| ==> IsDigit(s[i])
  }

  function DigitChar(d: nat): (c: char)
    requires d < 10
    ensures IsDigit(c)
  {
    ('0' as int + d) as char
  }

  /** The value of a string of decimal digits. */
  function DigitsValue(s: string): nat
    requires AllDigits(s)
  {
    if s == "" then 0 else DigitsValue(s[..|s| - 1]) * 10 + (s[|s| - 1] as int - '0' as int)
  }

  /** The decimal numeral of n, without leading zeros. */
  function NatDigits(n: nat): (s: string)
    ensures |s| >= 1
  {
    if n < 10 then [DigitChar(n)] else NatDigits(n / 10) + [DigitChar(n % 10)]
  }

  lemma {:induction false} NatDigitsValue(n: nat)
    ensures AllDigits(NatDigits(n)) && DigitsValue(NatDigits(n)) == n
  {
    if n >= 10 {
      NatDigitsValue(n / 10);
      var s := NatDigits(n);
      assert s[..|s| - 1] == NatDigits(n / 10);
    }
  }

  function Zeros(k: nat): (s: string)
    ensures |s| == k && AllDigits(s)
  {
    if k == 0 then "" else "0" + Zeros(k - 1)
  }

  /** Left-pads a numeral with zeros to the given width. */
  function PadZeros(s: string, width: nat): (r: string)
    ensures |r| >= width && |r| >= |s|
  {
    if |s| >= width then s else Zeros(width - |s|) + s
  }

  /** The value of a concatenation of digit strings. */
  lemma {:induction false} DigitsValueAppend(a: string, b: string)
    requires AllDigits(a) && AllDigits(b)
    ensures AllDigits(a + b)
    ensures DigitsValue(a + b) == DigitsValue(a) * Pow10(|b|) + DigitsValue(b)
  {
    if b != "" {
      var b' := b[..|b| - 1];
      assert (a + b)[..|a + b| - 1] == a + b';
      DigitsValueAppend(a, b');
      var d := b[|b| - 1] as int - '0' as int;
      assert DigitsValue(a + b) == DigitsValue(a + b') * 10 + d;
      assert DigitsValue(b) == DigitsValue(b') * 10 + d;
      assert Pow10(|b|) == 10 * Pow10(|b'|);
      ShiftDigit(DigitsValue(a), Pow10(|b'|), DigitsValue(b'), d);
    } else {
      assert a + b == a;
    }
  }

  /** (x * p + y) * 10 + d == x * (10 * p) + (y * 10 + d) */
  lemma ShiftDigit(x: int, p: int, y: int, d: int)
    ensures (x * p + y) * 10 + d == x * (10 * p) + (y * 10 + d)
  {
  }

  lemma {:induction false} ZerosValue(k: nat)
    ensures DigitsValue(Zeros(k)) == 0
  {
    if k > 0 {
      DigitsValueAppend("0", Zeros(k - 1));
      ZerosValue(k - 1);
    }
  }

  /**
   * The digits of a non-negative number scaled by 10^f, split into the
   * integer part and exactly f fractional digits.
   */
  function FixedParts(n: nat, f: nat): (parts: (string, string))
  {
    var s := PadZeros(NatDigits(n), f + 1);
    (s[..|s| - f], s[|s| - f..])
  }

  /** Number.prototype.toFixed(f) for |x| < 10^21, over exact reals. */
  function ToFixed(x: real, f: nat): string
  {
    var n := ScaledMagnitude(x, f);
    var parts := FixedParts(n, f);
    (if x < 0.0 then "-" else "") + parts.0 + (if f == 0 then "" else "." + parts.1)
  }

  /**
   * The integer n closest to |x| * 10^f, the larger one on a tie, which
   * is what toFixed prints.
   */
  function ScaledMagnitude(x: real, f: nat): (n: nat)
    ensures n as real - 0.5 <= (if x < 0.0 then -x else x) * (Pow10(f) as real) < n as real + 0.5
  {
    var m := if x < 0.0 then -x else x;
    var p := Pow10(f) as real;
    assert m * p >= 0.0;
    (m * p + 0.5).Floor
  }

  /**
   * What toFixed prints: an integer part of at least one digit and exactly
   * f fractional digits, which read together are the value |x| * 10^f
   * rounded to the nearest integer.
   */
  lemma FixedPartsValue(n: nat, f: nat)
    ensures var parts := FixedParts(n, f);
      && AllDigits(parts.0) && AllDigits(parts.1)
      && |parts.0| >= 1 && |parts.1| == f
      && DigitsValue(parts.0) * Pow10(f) + DigitsValue(parts.1) == n
  {
    NatDigitsValue(n);
    var s := PadZeros(NatDigits(n), f + 1);
    PadZerosValue(NatDigits(n), f + 1);
    SplitValue(s, f);
  }

  /**
   * The shape of toFixed's output: an optional minus sign, an integer part
   * of at least one digit and, when f > 0, a point and exactly f digits;
   * the digits read as an integer are |x| * 10^f rounded to the nearest.
   */
  lemma ToFixedShape(x: real, f: nat)
    ensures exists ip: string, fp: string ::
      && AllDigits(ip) && AllDigits(fp) && |ip| >= 1 && |fp| == f
      && DigitsValue(ip) * Pow10(f) + DigitsValue(fp) == ScaledMagnitude(x, f)
      && ToFixed(x, f) == (if x < 0.0 then "-" else "") + ip + (if f == 0 then "" else "." + fp)
  {
    var parts := FixedParts(ScaledMagnitude(x, f), f);
    FixedPartsValue(ScaledMagnitude(x, f), f);
    assert ToFixed(x, f) == (if x < 0.0 then "-" else "") + parts.0 + (if f == 0 then "" else "." + parts.1);
  }

  /** Left-padding with zeros keeps the digits' value. */
  lemma PadZerosValue(s: string, width: nat)
    requires AllDigits(s)
    ensures AllDigits(PadZeros(s, width)) && DigitsValue(PadZeros(s, width)) == DigitsValue(s)
  {
    if |s| < width {
      DigitsValueAppend(Zeros(width - |s|), s);
      ZerosValue(width - |s|);
    }
  }

  /** Cutting a numeral before its last f digits splits its value. */
  lemma SplitValue(s: string, f: nat)
    requires AllDigits(s) && |s| >= f
    ensures AllDigits(s[..|s| - f]) && AllDigits(s[|s| - f..])
    ensures DigitsValue(s[..|s| - f]) * Pow10(f) + DigitsValue(s[|s| - f..]) == DigitsValue(s)
  {
    assert s == s[..|s| - f] + s[|s| - f..];
    DigitsValueAppend(s[..|s| - f], s[|s| - f..]);
  }
}
