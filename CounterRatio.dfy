/** Ratios of two counters (src/Counter.cc): the uncorrelated division and
    the efficiency, each returned as a one-point Scatter1D. The square root
    and add_quad are parameters. */
module CounterRatio {
  import opened Wrappers
  import opened MathUtils
  import opened Dbn
  import opened Points
  import opened AnalysisObject
  import opened Counter
  import opened Scatter1D
  import opened EfficiencyFormula

  /** The value of divide: numerator over denominator, or 0 when the
      denominator's value is 0. */
  function DivideValue(numer: Dbn0D, denom: Dbn0D): real {
    if denom.sumW != 0.0 then numer.sumW / denom.sumW else 0.0
  }

  /** The point of divide: the ratio with the value times the quadrature sum
      of the relative errors, or (0, 0). */
  function DividePoint(numer: Dbn0D, denom: Dbn0D, sqrt: real -> real, addQuad: (real, real) -> real): Point1D {
    if denom.sumW != 0.0 then
      var v := numer.sumW / denom.sumW;
      Point1DSym(v, v * addQuad(RelErrOf(numer, sqrt), RelErrOf(denom, sqrt)))
    else Point1DSym(0.0, 0.0)
  }

  /** The efficiency point of two counters and its binomial-style error. */
  function EfficiencyPoint(accepted: Dbn0D, total: Dbn0D, sqrt: real -> real): Point1D {
    Point1DSym(EfficiencyValue(accepted.sumW, total.sumW),
               EfficiencyError(accepted.sumW, accepted.sumW2, total.sumW, total.sumW2, sqrt))
  }

  /** The accepted counter must be a subset of the total: no more fills and
      no larger sum of weights. */
  predicate IsSubset(accepted: Dbn0D, total: Dbn0D) {
    !(accepted.numFills as real > total.numFills as real || accepted.sumW > total.sumW)
  }

  /** divide(numer, denom): a default scatter with the ratio point. */
  method Divide(numer: Counter, denom: Counter, sqrt: real -> real, addQuad: (real, real) -> real)
    returns (r: Scatter1D)
    ensures fresh(r) && r.Valid()
    ensures r.annotations == InitAnnotations([], "Scatter1D", "", "").value
    ensures r.points == [DividePoint(numer.dbn, denom.dbn, sqrt, addQuad)]
    ensures denom.dbn.sumW == 0.0 ==> r.points == [Point1D(0.0, 0.0, 0.0)]
    ensures denom.dbn.sumW != 0.0 ==> r.points[0].x * denom.dbn.sumW == numer.dbn.sumW
  {
    var created := Scatter1D.Create();
    r := created.value;
    var p := DividePoint(numer.dbn, denom.dbn, sqrt, addQuad);
    r.AddPoint(p);
    InsertIntoEmpty(p);
    if denom.dbn.sumW != 0.0 {
      DivMul(numer.dbn.sumW, denom.dbn.sumW);
    }
  }

  /** efficiency(accepted, total): the division's scatter, UserError when
      accepted is not a subset of total, and otherwise the one point reset
      in place to the efficiency with a symmetric error. */
  method Efficiency(accepted: Counter, total: Counter, sqrt: real -> real, addQuad: (real, real) -> real)
    returns (r: Result<Scatter1D>)
    ensures r.Ok? <==> IsSubset(accepted.dbn, total.dbn)
    ensures r.Err? ==> r.error == UserError
    ensures r.Ok? ==> fresh(r.value) && r.value.Valid()
    ensures r.Ok? ==> r.value.annotations == InitAnnotations([], "Scatter1D", "", "").value
    ensures r.Ok? ==> r.value.points == [EfficiencyPoint(accepted.dbn, total.dbn, sqrt)]
  {
    var tmp := Divide(accepted, total, sqrt, addQuad);
    if accepted.NumEntries() > total.NumEntries() || accepted.SumW() > total.SumW() {
      return Err(UserError);
    }
    var eff := EfficiencyValue(accepted.dbn.sumW, total.dbn.sumW);
    var err := EfficiencyError(accepted.dbn.sumW, accepted.dbn.sumW2, total.dbn.sumW, total.dbn.sumW2, sqrt);
    var p := tmp.Point(0);
    tmp.points := tmp.points[0 := SetXAndErr1(p.value, eff, err, err)];
    return Ok(tmp);
  }

  /** The efficiency is the division's value; for non-negative weights of a
      subset it lies between 0 and 1. */
  lemma EfficiencyIsRatio(accepted: Dbn0D, total: Dbn0D, sqrt: real -> real, addQuad: (real, real) -> real)
    ensures EfficiencyPoint(accepted, total, sqrt).x == DividePoint(accepted, total, sqrt, addQuad).x
    ensures IsSubset(accepted, total) && 0.0 <= accepted.sumW && total.sumW != 0.0 ==>
              0.0 <= EfficiencyPoint(accepted, total, sqrt).x <= 1.0
  {
    EfficiencyBounds(accepted.sumW, accepted.sumW2, total.sumW, total.sumW2, sqrt);
  }

  /** A counter divided by itself is 1 unless it is empty; by an empty one, 0. */
  lemma DivideBySelf(d: Dbn0D, e: Dbn0D, sqrt: real -> real, addQuad: (real, real) -> real)
    requires e.sumW == 0.0
    ensures d.sumW != 0.0 ==> DividePoint(d, d, sqrt, addQuad).x == 1.0
    ensures DividePoint(d, e, sqrt, addQuad) == Point1D(0.0, 0.0, 0.0)
  {
  }
}
