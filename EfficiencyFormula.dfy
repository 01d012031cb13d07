/** The efficiency estimate shared by the Counter and the Histo1D efficiency
    (src/Counter.cc and src/Histo1D.cc): accepted over total sum of weights,
    with a binomial-style error; both 0 when the total is empty. The square
    root is a parameter. */
module EfficiencyFormula {
  import opened MathUtils

  function EfficiencyValue(accSumW: real, totSumW: real): real {
    if totSumW != 0.0 then accSumW / totSumW else 0.0
  }

  function EfficiencyError(accSumW: real, accSumW2: real, totSumW: real, totSumW2: real, sqrt: real -> real): real {
    if totSumW != 0.0 then
      var eff := accSumW / totSumW;
      // Division by sumW twice is, over the reals, division by its square.
      sqrt(Abs(((1.0 - 2.0 * eff) * accSumW2 + Sqr(eff) * totSumW2) / totSumW / totSumW))
    else 0.0
  }

  lemma DivMul(a: real, b: real)
    requires b != 0.0
    ensures a / b * b == a
  {
  }

  lemma DivLeOne(a: real, b: real)
    requires 0.0 <= a <= b && b > 0.0
    ensures 0.0 <= a / b <= 1.0
  {
    assert a / b * b == a;
  }

  /** For non-negative accepted weight no larger than a non-zero total, the
      efficiency is a fraction; an empty total gives (0, 0). */
  lemma EfficiencyBounds(accSumW: real, accSumW2: real, totSumW: real, totSumW2: real, sqrt: real -> real)
    ensures 0.0 <= accSumW <= totSumW && totSumW != 0.0 ==> 0.0 <= EfficiencyValue(accSumW, totSumW) <= 1.0
    ensures totSumW != 0.0 ==> EfficiencyValue(accSumW, totSumW) * totSumW == accSumW
    ensures totSumW == 0.0 ==> EfficiencyValue(accSumW, totSumW) == 0.0
                               && EfficiencyError(accSumW, accSumW2, totSumW, totSumW2, sqrt) == 0.0
  {
    if totSumW != 0.0 {
      DivMul(accSumW, totSumW);
      if 0.0 <= accSumW <= totSumW {
        DivLeOne(accSumW, totSumW);
      }
    }
  }
}
