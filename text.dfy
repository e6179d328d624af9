/** Decimal rendering of non-negative integers, as JavaScript's `String(n)` gives it,
    and the two-character zero padding of `String(n).padStart(2, "0")`. */
module Text {

  predicate IsDigit(c: char)
  {
    '0' <= c <= '9'
  }

  predicate AllDigits(s: string)
  {
    forall i :: 0 <= i < |s| ==> IsDigit(s[i])
  }

  function DigitChar(d: nat): char
    requires d < 10
  {
    ('0' as int + d) as char
  }

  /** `String(n)` for a non-negative integer: its decimal digits, no leading zero. */
  function Digits(n: nat): (s: string)
    ensures 1 <= |s| && AllDigits(s)
    ensures (s[0] == '0') <==> n == 0
    ensures n < 10 ==> |s| == 1
    decreases n
  {
    if n < 10 then [DigitChar(n)] else Digits(n / 10) + [DigitChar(n % 10)]
  }

  /** Reads a string of decimal digits back as a number (leading zeros allowed). */
  function ValueOf(s: string): nat
    requires AllDigits(s)
  {
    if s == [] then 0 else ValueOf(s[..|s| - 1]) * 10 + (s[|s| - 1] as int - '0' as int)
  }

  /** Rendering and reading back are inverse. */
  lemma {:induction false} ValueOfDigits(n: nat)
    ensures ValueOf(Digits(n)) == n
  {
    if n >= 10 {
      var s := Digits(n);
      assert s[..|s| - 1] == Digits(n / 10);
      ValueOfDigits(n / 10);
    }
  }

  /** Distinct numbers render differently. */
  lemma DigitsInjective(a: nat, b: nat)
    ensures Digits(a) == Digits(b) ==> a == b
  {
    ValueOfDigits(a);
    ValueOfDigits(b);
  }

  /** Two-digit numbers render as two characters, four-digit numbers as four. */
  lemma DigitsLength(n: nat)
    ensures 10 <= n < 100 ==> |Digits(n)| == 2
    ensures 1000 <= n < 10000 ==> |Digits(n)| == 4
  {
    if 1000 <= n < 10000 {
      assert |Digits(n / 10 / 10)| == 2;
    }
  }

  /** `String(n).padStart(2, "0")`. */
  function Pad2(n: nat): (s: string)
    ensures n < 100 ==> |s| == 2
  {
    DigitsLength(n);
    if n < 10 then "0" + Digits(n) else Digits(n)
  }

  /** Padded text is all digits and reads back as the number it renders. */
  lemma Pad2ReadsBack(n: nat)
    ensures AllDigits(Pad2(n)) && ValueOf(Pad2(n)) == n
  {
    ValueOfDigits(n);
    if n < 10 {
      var s := Pad2(n);
      assert s[..1] == "0";
    }
  }
}
