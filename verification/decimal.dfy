/** Decimal digit strings: number-to-string conversion, zero padding and parsing. */
module Decimal {

  predicate IsDigit(c: char) { '0' <= c <= '9' }

  predicate AllDigits(s: string) { forall i :: 0 <= i < |s| ==> IsDigit(s[i]) }

  function DigitChar(d: nat): (c: char)
    requires d < 10
    ensures IsDigit(c)
  {
    ('0' as int + d) as char
  }

  function DigitValue(c: char): (d: nat)
    requires IsDigit(c)
    ensures d < 10 && DigitChar(d) == c
  {
    c as int - '0' as int
  }

  function Pow10(k: nat): (p: nat)
    ensures p >= 1
  {
    if k == 0 then 1 else 10 * Pow10(k - 1)
  }

  /** The shortest decimal representation of n (Int.toString / String(n) for n >= 0). */
  function NatToString(n: nat): (s: string)
    ensures |s| >= 1 && AllDigits(s)
    decreases n
  {
    if n < 10 then [DigitChar(n)] else NatToString(n / 10) + [DigitChar(n % 10)]
  }

  /** Integer to string with a leading minus sign for negative values. */
  function IntToString(i: int): string {
    if i < 0 then "-" + NatToString(-i) else NatToString(i)
  }

  /** The value of a digit string, most significant digit first. */
  function ParseDigits(s: string): nat
    requires AllDigits(s)
  {
    if |s| == 0 then 0 else 10 * ParseDigits(s[..|s| - 1]) + DigitValue(s[|s| - 1])
  }

  function Repeat(c: char, n: nat): (r: string)
    ensures |r| == n && forall i :: 0 <= i < n ==> r[i] == c
  {
    if n == 0 then [] else [c] + Repeat(c, n - 1)
  }

  /** String.padStart / Kotlin padStart: left-pad s with c up to width characters. */
  function PadStart(s: string, width: nat, c: char): (r: string)
    ensures |r| == if |s| >= width then |s| else width
  {
    if |s| >= width then s else Repeat(c, width - |s|) + s
  }

  /** The padded text ends with s and is filled with c in front of it. */
  lemma PadStartShape(s: string, width: nat, c: char)
    ensures var r := PadStart(s, width, c);
      r[|r| - |s|..] == s && forall i :: 0 <= i < |r| - |s| ==> r[i] == c
  {
    var r := PadStart(s, width, c);
    if |s| < width {
      assert r == Repeat(c, width - |s|) + s;
    }
  }

  /** Exactly k digits: the k least significant decimal digits of n. */
  function Fixed(n: nat, k: nat): (s: string)
    ensures |s| == k && AllDigits(s)
  {
    if k == 0 then [] else Fixed(n / 10, k - 1) + [DigitChar(n % 10)]
  }

  /** Zero-padded decimal of n to at least k digits. */
  function Padded(n: nat, k: nat): string {
    PadStart(NatToString(n), k, '0')
  }

  lemma {:induction false} ParseNatToString(n: nat)
    ensures ParseDigits(NatToString(n)) == n
    decreases n
  {
    var s := NatToString(n);
    if n >= 10 {
      ParseNatToString(n / 10);
      assert s[..|s| - 1] == NatToString(n / 10);
    }
  }

  /** Distinct numbers have distinct decimal strings. */
  lemma NatToStringInjective(a: nat, b: nat)
    requires NatToString(a) == NatToString(b)
    ensures a == b
  {
    ParseNatToString(a);
    ParseNatToString(b);
  }

  /** Reading back a k-digit form gives the number, when it fits in k digits. */
  lemma {:induction false} FixedOfSmall(n: nat, k: nat)
    requires n < Pow10(k)
    ensures ParseDigits(Fixed(n, k)) == n
  {
    if k > 0 {
      var s := Fixed(n, k);
      assert s[..k - 1] == Fixed(n / 10, k - 1);
      FixedOfSmall(n / 10, k - 1);
    }
  }

  lemma {:induction false} FixedZero(k: nat)
    ensures Fixed(0, k) == Repeat('0', k)
  {
    if k > 0 {
      FixedZero(k - 1);
      assert Repeat('0', k) == Repeat('0', k - 1) + ['0'];
    }
  }

  lemma PadStartAppend(s: string, c: char, w: nat)
    ensures PadStart(s + [c], w + 1, '0') == PadStart(s, w, '0') + [c]
  {
    if |s| < w {
      assert Repeat('0', w - |s|) + (s + [c]) == (Repeat('0', w - |s|) + s) + [c];
    }
  }

  /** Zero padding a number that fits in k digits gives exactly its k-digit form. */
  lemma {:induction false} PaddedIsFixed(n: nat, k: nat)
    requires k >= 1 && n < Pow10(k)
    ensures Padded(n, k) == Fixed(n, k)
  {
    if n < 10 {
      FixedZero(k - 1);
      assert Fixed(n, k) == Fixed(0, k - 1) + [DigitChar(n)];
    } else {
      assert k >= 2;
      PaddedIsFixed(n / 10, k - 1);
      assert NatToString(n) == NatToString(n / 10) + [DigitChar(n % 10)];
      PadStartAppend(NatToString(n / 10), DigitChar(n % 10), k - 1);
    }
  }

  /** Length of a decimal string of a number below 10^k is at most k. */
  lemma {:induction false} NatToStringLength(n: nat, k: nat)
    requires k >= 1 && n < Pow10(k)
    ensures |NatToString(n)| <= k
  {
    if n >= 10 {
      assert k >= 2;
      NatToStringLength(n / 10, k - 1);
    }
  }

  /** A digit string is the fixed-width form of its own value. */
  lemma {:induction false} FixedOfParse(t: string)
    requires AllDigits(t)
    ensures Fixed(ParseDigits(t), |t|) == t
  {
    if |t| > 0 {
      var p := t[..|t| - 1];
      FixedOfParse(p);
      var n := ParseDigits(t);
      assert n / 10 == ParseDigits(p) && n % 10 == DigitValue(t[|t| - 1]);
      assert t == p + [t[|t| - 1]];
    }
  }

  lemma {:induction false} ParseZeros(z: nat)
    ensures ParseDigits(Repeat('0', z)) == 0
  {
    if z > 0 {
      assert Repeat('0', z)[..z - 1] == Repeat('0', z - 1);
      ParseZeros(z - 1);
    }
  }

  lemma {:induction false} ParseLeadingZeros(z: nat, s: string)
    requires AllDigits(s)
    ensures AllDigits(Repeat('0', z) + s) && ParseDigits(Repeat('0', z) + s) == ParseDigits(s)
    decreases |s|
  {
    var t := Repeat('0', z) + s;
    if |s| == 0 {
      assert t == Repeat('0', z);
      ParseZeros(z);
    } else {
      ParseLeadingZeros(z, s[..|s| - 1]);
      assert t[..|t| - 1] == Repeat('0', z) + s[..|s| - 1];
    }
  }

  /** Zero padding does not change the value that a digit string reads back as. */
  lemma ParsePadded(n: nat, k: nat)
    ensures AllDigits(Padded(n, k)) && ParseDigits(Padded(n, k)) == n
  {
    var s := NatToString(n);
    ParseNatToString(n);
    if |s| < k {
      ParseLeadingZeros(k - |s|, s);
    }
  }

  /** Different numbers have different zero-padded forms. */
  lemma PaddedInjective(a: nat, b: nat, k: nat)
    requires Padded(a, k) == Padded(b, k)
    ensures a == b
  {
    ParsePadded(a, k);
    ParsePadded(b, k);
  }
}
