/** Decimal text for integers, as Go's `fmt` writes it with the verbs `%d` and
    `%0*d`, and the inverse reading used to state what the text means. */
module Decimal {

  function Pow10(k: nat): (p: nat)
    ensures p >= 1
  {
    if k == 0 then 1 else 10 * Pow10(k - 1)
  }

  predicate IsDigit(c: char) {
    '0' <= c <= '9'
  }

  predicate AllDigits(s: string) {
    forall i :: 0 <= i < |s| ==> IsDigit(s[i])
  }

  function DigitChar(d: nat): (c: char)
    requires d < 10
    ensures IsDigit(c)
  {
    ('0' as int + d) as char
  }

  /** `%d` of a non-negative number: no sign, no leading zero (0 is "0"). */
  function Itoa(n: nat): (s: string)
    ensures 1 <= |s| && AllDigits(s)
    ensures |s| > 1 ==> s[0] != '0'
  {
    if n < 10 then [DigitChar(n)] else Itoa(n / 10) + [DigitChar(n % 10)]
  }

  /** `%d` of any integer. */
  function IntString(i: int): (s: string)
    ensures 1 <= |s|
  {
    if i < 0 then "-" + Itoa(-i) else Itoa(i)
  }

  /** The number a string of decimal digits denotes; leading zeros are allowed. */
  function Atoi(s: string): nat
    requires AllDigits(s)
  {
    if s == [] then 0 else 10 * Atoi(s[..|s| - 1]) + (s[|s| - 1] as int - '0' as int)
  }

  lemma {:induction false} AtoiItoa(n: nat)
    ensures Atoi(Itoa(n)) == n
  {
    if n >= 10 {
      AtoiItoa(n / 10);
      var s := Itoa(n);
      assert s[..|s| - 1] == Itoa(n / 10);
    }
  }

  /** A number is written with at most `w` digits exactly when it is below 10^w. */
  lemma {:induction false} ItoaFits(n: nat, w: nat)
    requires w >= 1
    ensures |Itoa(n)| <= w <==> n < Pow10(w)
  {
    if n >= 10 {
      if w == 1 {
        assert |Itoa(n)| >= 2;
      } else {
        ItoaFits(n / 10, w - 1);
        assert n / 10 < Pow10(w - 1) <==> n < 10 * Pow10(w - 1);
      }
    } else {
      assert Pow10(w) >= 10 by { Pow10Grows(w); }
    }
  }

  lemma {:induction false} Pow10Grows(w: nat)
    requires w >= 1
    ensures Pow10(w) >= 10
  {
    if w > 1 {
      Pow10Grows(w - 1);
    }
  }

  function Repeat(c: char, k: int): (s: string)
    ensures |s| == if k < 0 then 0 else k
    ensures forall i :: 0 <= i < |s| ==> s[i] == c
    decreases k
  {
    if k <= 0 then [] else [c] + Repeat(c, k - 1)
  }

  /** `fmt.Sprintf("%0*d", width, n)` for a width that is not negative: the
      digits of `n`, with zeros in front up to `width` characters; nothing is
      cut off when `n` needs more digits. */
  function ZeroPadded(n: nat, width: nat): (s: string)
    ensures AllDigits(s)
    ensures |s| == if |Itoa(n)| < width then width else |Itoa(n)|
  {
    Repeat('0', width - |Itoa(n)|) + Itoa(n)
  }

  /** `%-*s`-style justification, as `fmt` applies a negative `*` width: the
      text, then spaces up to `width` characters; nothing is cut off. */
  function LeftJustified(s: string, width: nat): (r: string)
    ensures |r| == if |s| < width then width else |s|
    ensures r[..|s|] == s && forall k :: |s| <= k < |r| ==> r[k] == ' '
  {
    s + Repeat(' ', width - |s|)
  }

  lemma {:induction false} AtoiOfZeros(k: int)
    ensures Atoi(Repeat('0', k)) == 0
    decreases k
  {
    if k > 0 {
      var z := Repeat('0', k);
      assert z[..|z| - 1] == Repeat('0', k - 1);
      AtoiOfZeros(k - 1);
    }
  }

  /** Leading zeros do not change the number. */
  lemma {:induction false} AtoiLeadingZeros(k: int, s: string)
    requires AllDigits(s)
    ensures Atoi(Repeat('0', k) + s) == Atoi(s)
    decreases |s|
  {
    var z := Repeat('0', k);
    if s == [] {
      assert z + s == z;
      AtoiOfZeros(k);
    } else {
      var t := z + s;
      assert t[..|t| - 1] == z + s[..|s| - 1];
      AtoiLeadingZeros(k, s[..|s| - 1]);
    }
  }

  /** Reading the padded text back gives the number. */
  lemma ZeroPaddedValue(n: nat, width: nat)
    ensures Atoi(ZeroPadded(n, width)) == n
  {
    AtoiLeadingZeros(width - |Itoa(n)|, Itoa(n));
    AtoiItoa(n);
  }

  /** A number below 10^width (width at least 1) padded to `width` digits is
      exactly `width` digits long. */
  lemma ZeroPaddedLength(n: nat, width: nat)
    requires 1 <= width && n < Pow10(width)
    ensures |ZeroPadded(n, width)| == width
  {
    ItoaFits(n, width);
  }
}
