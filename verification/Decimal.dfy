/** Numbers written in decimal. */
module Decimal {
  function DigitChar(d: nat): char
    requires d < 10
  {
    '0' + d as char
  }

  predicate IsDigit(c: char) {
    '0' <= c <= '9'
  }

  function DigitOf(c: char): nat
    requires IsDigit(c)
  {
    c as nat - '0' as nat
  }

  predicate AllDigits(s: string) {
    forall c <- s :: IsDigit(c)
  }

  function Digits(k: nat): string {
    if k < 10 then [DigitChar(k)] else Digits(k / 10) + [DigitChar(k % 10)]
  }

  function Zeros(n: nat): string {
    seq(n, _ => '0')
  }

  /** The number in decimal, with zeros in front up to a width. */
  function Padded(k: nat, width: nat): string {
    var digits := Digits(k);
    if |digits| < width then Zeros(width - |digits|) + digits else digits
  }

  function Value(s: string): nat
    requires AllDigits(s)
  {
    if s == [] then 0
    else
      assert forall c <- s[..|s| - 1] :: c in s;
      10 * Value(s[..|s| - 1]) + DigitOf(s[|s| - 1])
  }

  lemma ValueSnoc(s: string, c: char)
    requires AllDigits(s) && IsDigit(c)
    ensures AllDigits(s + [c]) && Value(s + [c]) == 10 * Value(s) + DigitOf(c)
  {
    assert (s + [c])[..|s|] == s;
  }

  lemma {:induction false} ValueOfDigits(k: nat)
    ensures AllDigits(Digits(k)) && Value(Digits(k)) == k && |Digits(k)| > 0
  {
    if k < 10 {
      assert Digits(k) == [] + [DigitChar(k)];
      ValueSnoc([], DigitChar(k));
    } else {
      ValueOfDigits(k / 10);
      ValueSnoc(Digits(k / 10), DigitChar(k % 10));
    }
  }

  lemma {:induction false} ValueAfterZeros(n: nat, s: string)
    requires AllDigits(s)
    ensures AllDigits(Zeros(n) + s) && Value(Zeros(n) + s) == Value(s)
    decreases |s| + n
  {
    if s != [] {
      var m := |s| - 1;
      assert forall c <- s[..m] :: c in s;
      assert s[m] in s;
      ValueAfterZeros(n, s[..m]);
      ValueSnoc(Zeros(n) + s[..m], s[m]);
      assert Zeros(n) + s == Zeros(n) + s[..m] + [s[m]];
    } else if n > 0 {
      ValueAfterZeros(n - 1, []);
      ValueSnoc(Zeros(n - 1) + [], '0');
      assert Zeros(n) + [] == Zeros(n - 1) + [] + ['0'];
    }
  }

  lemma ValueOfPadded(k: nat, width: nat)
    ensures AllDigits(Padded(k, width)) && Value(Padded(k, width)) == k && |Padded(k, width)| >= width
  {
    ValueOfDigits(k);
    if |Digits(k)| < width {
      ValueAfterZeros(width - |Digits(k)|, Digits(k));
    }
  }

  function Power(width: nat): nat {
    if width == 0 then 1 else 10 * Power(width - 1)
  }

  /** A number takes no more digits than its size calls for. */
  lemma {:induction false} DigitsFit(k: nat, width: nat)
    requires k < Power(width) && width > 0
    ensures |Digits(k)| <= width
  {
    if k >= 10 {
      assert width > 1;
      DigitsFit(k / 10, width - 1);
    }
  }

  lemma PaddedFits(k: nat, width: nat)
    requires k < Power(width) && width > 0
    ensures |Padded(k, width)| == width
  {
    DigitsFit(k, width);
  }

  lemma {:induction false} DigitsNeed(k: nat, width: nat)
    requires Power(width) <= k
    ensures |Digits(k)| > width
  {
    if width > 0 {
      assert Power(width) >= 10 by { PowerIsPositive(width - 1); }
      DigitsNeed(k / 10, width - 1);
    } else {
      ValueOfDigits(k);
    }
  }

  lemma {:induction false} PowerIsPositive(width: nat)
    ensures Power(width) >= 1
  {
    if width > 0 {
      PowerIsPositive(width - 1);
    }
  }
}
