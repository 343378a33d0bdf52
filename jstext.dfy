/**
 * The pieces of JavaScript string behaviour the generator relies on:
 * `String(n)` for a non-negative integer, `padStart`, `slice(-k)`, and the
 * relational operator `<` on strings.
 */
module JsText {

  predicate IsDigit(c: char) {
    '0' <= c <= '9'
  }

  predicate IsDigits(s: string) {
    forall i :: 0 <= i < |s| ==> IsDigit(s[i])
  }

  function DigitChar(d: nat): (c: char)
    requires d < 10
    ensures IsDigit(c)
  {
    ('0' as int + d) as char
  }

  function DigitValue(c: char): (d: nat)
    requires IsDigit(c)
    ensures d < 10
  {
    c as int - '0' as int
  }

  /** `String(n)` for a non-negative integer: its decimal digits, most significant first. */
  function NatToString(n: nat): (s: string)
    ensures |s| > 0 && IsDigits(s)
    ensures n < 10 <==> |s| == 1
  {
    if n < 10 then [DigitChar(n)] else NatToString(n / 10) + [DigitChar(n % 10)]
  }

  /** The value of a string of decimal digits (leading zeros allowed). */
  function ParseDigits(s: string): (v: nat)
    requires IsDigits(s)
  {
    if s == [] then 0 else ParseDigits(s[..|s| - 1]) * 10 + DigitValue(s[|s| - 1])
  }

  function Pow10(k: nat): (p: nat)
    ensures p > 0
  {
    if k == 0 then 1 else 10 * Pow10(k - 1)
  }

  /** A string of zeros is worth 0. */
  lemma {:induction false} ZerosValue(z: string)
    requires forall i :: 0 <= i < |z| ==> z[i] == '0'
    ensures IsDigits(z) && ParseDigits(z) == 0
  {
    if z != [] {
      ZerosValue(z[..|z| - 1]);
    }
  }

  /** Leading zeros do not change the value of a numeral. */
  lemma {:induction false} LeadingZeros(z: string, s: string)
    requires forall i :: 0 <= i < |z| ==> z[i] == '0'
    requires IsDigits(s)
    ensures IsDigits(z + s) && ParseDigits(z + s) == ParseDigits(s)
    decreases |s|
  {
    ZerosValue(z);
    if s == [] {
      assert z + s == z;
    } else {
      assert (z + s)[..|z + s| - 1] == z + s[..|s| - 1];
      LeadingZeros(z, s[..|s| - 1]);
    }
  }

  /** The remainder of `x` by `m`, given a quotient and remainder that add up to it. */
  lemma ModOfDecomposition(x: int, m: int, q: int, r: int)
    requires m > 0 && x == q * m + r && 0 <= r < m
    ensures x / m == q && x % m == r
  {
    var q', r' := x / m, x % m;
    assert x == q' * m + r';
    var k := q - q';
    assert k * m == r' - r by {
      assert q * m - q' * m == (q - q') * m;
    }
    if k > 0 {
      AtLeastOnce(k, m);
    } else if k < 0 {
      AtMostMinusOnce(k, m);
    }
  }

  lemma AtMostMinusOnce(k: int, m: int)
    requires k <= -1 && m > 0
    ensures k * m <= -m
  {
    AtLeastOnce(-k, m);
    assert (-k) * m == -(k * m);
  }

  lemma AtLeastOnce(k: int, m: int)
    requires k >= 1 && m > 0
    ensures k * m >= m
  {
    assert k * m == (k - 1) * m + m;
  }

  /** One more digit on the right of a remainder: `(a mod m)·10 + d == (10a + d) mod 10m`. */
  lemma ShiftMod(a: nat, d: nat, m: nat)
    requires d < 10 && m > 0
    ensures (a % m) * 10 + d == (a * 10 + d) % (10 * m)
  {
    var q, r := a / m, a % m;
    assert a * 10 + d == q * (10 * m) + (r * 10 + d);
    ModOfDecomposition(a * 10 + d, 10 * m, q, r * 10 + d);
  }

  /** The last `k` digits of a numeral are its value modulo 10^k. */
  lemma {:induction false} SuffixDigits(s: string, k: nat)
    requires IsDigits(s) && k <= |s|
    ensures IsDigits(s[|s| - k..]) && ParseDigits(s[|s| - k..]) == ParseDigits(s) % Pow10(k)
  {
    if k == 0 {
      assert s[|s|..] == [];
    } else {
      var t := s[|s| - k..];
      var init := s[..|s| - 1];
      assert t[..|t| - 1] == init[|init| - (k - 1)..];
      SuffixDigits(init, k - 1);
      ShiftMod(ParseDigits(init), DigitValue(s[|s| - 1]), Pow10(k - 1));
    }
  }

  /** A numeral written between a prefix and a suffix can be read back out of the middle. */
  lemma Framed(pre: string, n: nat, post: string)
    ensures var s := pre + NatToString(n) + post;
      && |s| > |pre| + |post|
      && s[|pre|..|s| - |post|] == NatToString(n)
      && IsDigits(s[|pre|..|s| - |post|]) && ParseDigits(s[|pre|..|s| - |post|]) == n
  {
    var s := pre + NatToString(n) + post;
    assert s[|pre|..|s| - |post|] == NatToString(n);
    ParseNatToString(n);
  }

  /** Reading back what `String(n)` wrote gives `n`. */
  lemma {:induction false} ParseNatToString(n: nat)
    ensures ParseDigits(NatToString(n)) == n
  {
    var s := NatToString(n);
    if n < 10 {
      assert s[..|s| - 1] == [];
    } else {
      assert s[..|s| - 1] == NatToString(n / 10);
      ParseNatToString(n / 10);
    }
  }

  /** Distinct numbers have distinct decimal strings. */
  lemma NatToStringInjective(m: nat, n: nat)
    requires NatToString(m) == NatToString(n)
    ensures m == n
  {
    ParseNatToString(m);
    ParseNatToString(n);
  }

  /** `s.padStart(width, fill)`: `fill` repeated on the left until `s` is `width` long. */
  function PadStart(s: string, width: nat, fill: char): (r: string) {
    if |s| < width then seq(width - |s|, _ => fill) + s else s
  }

  /** The padded string is `max(width, |s|)` long, ends with `s`, and is `fill` before it. */
  lemma PadStartShape(s: string, width: nat, fill: char)
    ensures var r := PadStart(s, width, fill);
      && |r| == (if |s| < width then width else |s|)
      && r[|r| - |s|..] == s
      && forall i :: 0 <= i < |r| - |s| ==> r[i] == fill
  {
  }

  /** `s.slice(-k)` for `k > 0`: the last `k` characters, or all of `s` when it is shorter. */
  function LastChars(s: string, k: nat): (r: string)
    requires k > 0
  {
    if |s| <= k then s else s[|s| - k..]
  }

  /** The result is the suffix of `s` of length `min(k, |s|)`. */
  lemma LastCharsSuffix(s: string, k: nat)
    requires k > 0
    ensures var r := LastChars(s, k);
      |r| == (if |s| < k then |s| else k) && r == s[|s| - |r|..]
  {
  }

  /**
   * The relational operator `<` on two strings: lexicographic order on
   * characters, a proper prefix coming first.
   */
  predicate Less(a: string, b: string) {
    if a == [] then b != []
    else if b == [] then false
    else if a[0] == b[0] then Less(a[1..], b[1..])
    else a[0] < b[0]
  }

  lemma {:induction false} LessIrreflexive(a: string)
    ensures !Less(a, a)
  {
    if a != [] {
      LessIrreflexive(a[1..]);
    }
  }

  lemma {:induction false} LessAsymmetric(a: string, b: string)
    requires Less(a, b)
    ensures !Less(b, a)
  {
    if a != [] && b != [] && a[0] == b[0] {
      LessAsymmetric(a[1..], b[1..]);
    }
  }

  /** Two different strings are always ordered one way or the other. */
  lemma {:induction false} LessTotal(a: string, b: string)
    requires a != b
    ensures Less(a, b) || Less(b, a)
  {
    if a != [] && b != [] && a[0] == b[0] {
      assert a == [a[0]] + a[1..] && b == [b[0]] + b[1..];
      LessTotal(a[1..], b[1..]);
    }
  }

  lemma {:induction false} LessTransitive(a: string, b: string, c: string)
    requires Less(a, b) && Less(b, c)
    ensures Less(a, c)
  {
    if a != [] && b != [] && c != [] && a[0] == b[0] && b[0] == c[0] {
      LessTransitive(a[1..], b[1..], c[1..]);
    }
  }

  /** A common prefix does not change the order. */
  lemma {:induction false} LessCommonPrefix(p: string, a: string, b: string)
    ensures Less(p + a, p + b) <==> Less(a, b)
  {
    if p == [] {
      assert p + a == a && p + b == b;
    } else {
      assert (p + a)[0] == p[0] == (p + b)[0];
      assert (p + a)[1..] == p[1..] + a;
      assert (p + b)[1..] == p[1..] + b;
      LessCommonPrefix(p[1..], a, b);
    }
  }
}
