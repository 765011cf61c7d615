/**
 * The ledger's money codec: amounts are exact decimals, stored as whole cents.
 * Rounding is to two decimal places with ties going away from zero (the
 * decimal module's ROUND_HALF_UP), then the result is scaled by 100.
 */
module Money {
  import opened Numerals

  /** An exact decimal amount `digits / 10^scale`, as the decimal module holds one. */
  datatype Dec = Dec(digits: int, scale: nat)

  /** The amount as a real number. */
  function Value(d: Dec): real {
    d.digits as real / Pow10(d.scale) as real
  }

  /** `valor < 0`. */
  predicate IsNegative(d: Dec) {
    d.digits < 0
  }

  lemma NegativeMeansBelowZero(d: Dec)
    ensures IsNegative(d) <==> Value(d) < 0.0
  {
    var q := Pow10(d.scale) as real;
    assert Value(d) * q == d.digits as real;
  }

  /**
   * `n / q` rounded to the nearest integer, a tie going away from zero: the
   * remainder left over is at most half of `q`, and exactly half only when the
   * result is further from zero than `n / q`.
   */
  function RoundHalfUp(n: int, q: nat): (r: int)
    requires q >= 1
    ensures n >= 0 ==> r >= 0 && -(q as int) <= 2 * (n - r * q) < q
    ensures n < 0 ==> r <= 0 && -(q as int) < 2 * (n - r * q) <= q
  {
    if n >= 0 then
      var r := (2 * n + q) / (2 * q);
      assert 2 * q * r <= 2 * n + q < 2 * q * r + 2 * q;
      r
    else
      var m := (2 * -n + q) / (2 * q);
      assert 2 * q * m <= 2 * -n + q < 2 * q * m + 2 * q;
      -m
  }

  /** With at most two decimals, scaling the digits up to cents is exact. */
  lemma ScaledCents(digits: int, scale: nat)
    requires scale <= 2
    ensures digits * Pow10(2 - scale) * Pow10(scale) == 100 * digits
  {
    Pow10Add(2 - scale, scale);
    assert digits * Pow10(2 - scale) * Pow10(scale) == digits * (Pow10(2 - scale) * Pow10(scale));
  }

  /** With more than two decimals, rounding to cents errs by at most half a cent, a tie going away from zero. */
  lemma RoundedCents(digits: int, scale: nat)
    requires scale > 2
    ensures var q := Pow10(scale);
            var c := RoundHalfUp(digits, Pow10(scale - 2));
            && (digits >= 0 ==> c >= 0 && -(q as int) <= 2 * (100 * digits - c * q) < q)
            && (digits < 0 ==> c <= 0 && -(q as int) < 2 * (100 * digits - c * q) <= q)
  {
    var q' := Pow10(scale - 2);
    var c := RoundHalfUp(digits, q');
    Pow10Add(2, scale - 2);
    assert Pow10(scale) == 100 * q';
    assert c * Pow10(scale) == 100 * (c * q');
    var e := digits - c * q';
    assert 2 * (100 * digits - c * Pow10(scale)) == 100 * (2 * e);
  }

  /**
   * `_valor_para_centavos`: quantize to 0.01 with ROUND_HALF_UP, multiply by
   * 100. The result `c` is the whole number nearest to `100 * Value(d)`, a tie
   * going away from zero; a non-negative amount never gives negative cents.
   */
  function ToCents(d: Dec): (c: int)
    ensures var q := Pow10(d.scale);
            && (d.digits >= 0 ==> c >= 0 && -(q as int) <= 2 * (100 * d.digits - c * q) < q)
            && (d.digits < 0 ==> c <= 0 && -(q as int) < 2 * (100 * d.digits - c * q) <= q)
  {
    if d.scale <= 2 then
      ScaledCents(d.digits, d.scale);
      d.digits * Pow10(2 - d.scale)
    else
      RoundedCents(d.digits, d.scale);
      RoundHalfUp(d.digits, Pow10(d.scale - 2))
  }

  /** `_centavos_para_valor`: the exact amount `cents / 100`. */
  function FromCents(cents: int): (d: Dec)
    ensures Value(d) == cents as real / 100.0
  {
    Dec(cents, 2)
  }

  /** Every cent count survives the trip to an amount and back. */
  lemma CentsRoundTrip(cents: int)
    ensures ToCents(FromCents(cents)) == cents
  {
  }

  /** An amount with at most two decimals converts exactly and comes back unchanged. */
  lemma {:induction false} ExactAmount(d: Dec)
    requires d.scale <= 2
    ensures ToCents(d) as real == 100.0 * Value(d)
    ensures Value(FromCents(ToCents(d))) == Value(d)
  {
    var c := ToCents(d);
    var q := Pow10(d.scale);
    assert c * q == 100 * d.digits;
    assert (c * q) as real == c as real * q as real;
    assert 100.0 * Value(d) * q as real == 100.0 * d.digits as real;
  }

  lemma Examples()
    ensures ToCents(Dec(1234, 2)) == 1234   // 12.34
    ensures ToCents(Dec(5, 3)) == 1         // 0.005 rounds up
    ensures ToCents(Dec(4, 3)) == 0         // 0.004 rounds down
    ensures ToCents(Dec(2675, 3)) == 268    // 2.675, exact decimal tie
    ensures ToCents(Dec(-5, 3)) == -1       // a tie below zero goes away from zero
    ensures ToCents(Dec(7, 0)) == 700       // a whole amount
  {
  }
}
