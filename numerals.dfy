/** Powers of ten and fixed-width, zero-padded decimal numerals (`%0Nd`). */
module Numerals {
  import opened Text

  function Pow10(n: nat): (p: nat)
    ensures p >= 1
  {
    if n == 0 then 1 else 10 * Pow10(n - 1)
  }

  lemma {:induction false} Pow10Add(a: nat, b: nat)
    ensures Pow10(a) * Pow10(b) == Pow10(a + b)
  {
    if a > 0 {
      Pow10Add(a - 1, b);
      assert Pow10(a) * Pow10(b) == 10 * (Pow10(a - 1) * Pow10(b));
    }
  }

  function DigitChar(n: int): (c: char)
    requires 0 <= n < 10
    ensures '0' <= c <= '9'
  {
    ('0' as int + n) as char
  }

  /** `n` written in exactly `w` decimal digits, most significant first. */
  function Digits(n: nat, w: nat): (s: string)
    ensures |s| == w
    ensures forall i :: 0 <= i < w ==> '0' <= s[i] <= '9'
  {
    if w == 0 then [] else Digits(n / 10, w - 1) + [DigitChar(n % 10)]
  }

  /** For numbers of at most `w` digits, text order of the padded numerals is numeric order. */
  lemma {:induction false} DigitsOrder(a: nat, b: nat, w: nat)
    requires a < Pow10(w) && b < Pow10(w)
    ensures Le(Digits(a, w), Digits(b, w)) <==> a <= b
    decreases w
  {
    if w > 0 {
      var x, x' := Digits(a / 10, w - 1), Digits(b / 10, w - 1);
      var y, y' := [DigitChar(a % 10)], [DigitChar(b % 10)];
      LeConcat(x, y, x', y');
      DigitsOrder(a / 10, b / 10, w - 1);
      DigitsOrder(b / 10, a / 10, w - 1);
      if x == x' {
        LeReflexive(x);
        assert a / 10 == b / 10;
      }
      assert Le(y, y') <==> a % 10 <= b % 10 by {
        assert y[1..] == [] && y'[1..] == [];
      }
    }
  }

  /** Padded numerals of numbers below `10^w` are equal only for equal numbers. */
  lemma DigitsInjective(a: nat, b: nat, w: nat)
    requires a < Pow10(w) && b < Pow10(w)
    ensures Digits(a, w) == Digits(b, w) <==> a == b
  {
    if Digits(a, w) == Digits(b, w) {
      LeReflexive(Digits(a, w));
      DigitsOrder(a, b, w);
      DigitsOrder(b, a, w);
    }
  }
}
