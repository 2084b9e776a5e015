/** Conversion of a score to money (agents.py, "MONEY"). */
module Money {
  import opened Numeric

  /** `to_money`: `round(max(0, score) * coef, 2)`. */
  function ToMoney(score: int, coef: real): (m: real)
    ensures score <= 0 ==> m == 0.0
    ensures 0.0 <= coef ==> 0.0 <= m
  {
    var base := (if score < 0 then 0 else score) as real * coef;
    assert score <= 0 ==> base == 0.0 as real / 100.0;
    Round2OfHundredths(0);
    Round2NonNegative(base);
    Round2(base)
  }

  /** The amount is within half a cent of `max(0, score) * coef`. */
  lemma ToMoneyClose(score: int, coef: real)
    ensures -0.005 <= ToMoney(score, coef) - (if score < 0 then 0 else score) as real * coef <= 0.005
  {
  }

  /** Rounding a non-negative amount never makes it negative. */
  lemma Round2NonNegative(x: real)
    ensures 0.0 <= x ==> 0.0 <= Round2(x)
  {
  }

  /** A coefficient with at most two decimals gives an exact amount:
      100 points at 0.12 are worth exactly 12.00. */
  lemma ExactAmount()
    ensures ToMoney(100, 0.12) == 12.0
  {
    Round2OfHundredths(1200);
    assert 100 as real * 0.12 == 1200 as real / 100.0;
  }
}
