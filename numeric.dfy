/**
 * The numeric normalizer shared by the estimate and scope tools: JavaScript's
 * `Math.round`, the truthiness-guarded rounding of optional monetary fields,
 * and the 3- and 17-percentile estimate records.
 *
 * JavaScript numbers are modelled as reals.
 */
module Numeric {
  import opened Wrappers

  /** `Math.round`: the nearest integer, a half rounded up (toward +infinity). */
  function Round(x: real): (r: int)
    ensures r as real - 0.5 <= x < r as real + 0.5
  {
    (x + 0.5).Floor
  }

  predicate IsIntegral(x: real) {
    x == x.Floor as real
  }

  lemma RoundIntegral(n: int)
    ensures Round(n as real) == n
  {
  }

  lemma RoundMonotone(x: real, y: real)
    requires x <= y
    ensures Round(x) <= Round(y)
  {
  }

  /** Halves go up, also for negative numbers: this is not rounding half away from zero. */
  lemma RoundHalves()
    ensures Round(2.5) == 3 && Round(-2.5) == -2 && Round(-0.5) == 0 && Round(0.49) == 0
  {
  }

  /**
   * `x ? Math.round(x) : undefined` on an optional number: an absent value
   * and the value 0 (which is falsy) both give an absent field.
   */
  function RoundIfTruthy(x: Option<real>): (r: Option<real>)
    ensures r.Some? <==> x.Some? && x.value != 0.0
    ensures r.Some? ==> r.value == Round(x.value) as real && IsIntegral(r.value)
    ensures r.Some? ==> x.value - 0.5 < r.value <= x.value + 0.5
  {
    if x.Some? && x.value != 0.0 then Some(Round(x.value) as real) else None
  }

  /** A non-zero integer price is left as it is. */
  lemma RoundIfTruthyFixesNonZeroIntegers(x: real)
    requires IsIntegral(x) && x != 0.0
    ensures RoundIfTruthy(Some(x)) == Some(x)
  {
    RoundIntegral(x.Floor);
  }

  /** A second pass changes the result only when the first pass rounded a value to 0, which it then drops. */
  lemma RoundIfTruthyTwice(x: Option<real>)
    ensures RoundIfTruthy(RoundIfTruthy(x)) ==
              if RoundIfTruthy(x) == Some(0.0) then None else RoundIfTruthy(x)
  {
    var once := RoundIfTruthy(x);
    if once.Some? && once.value != 0.0 {
      RoundIfTruthyFixesNonZeroIntegers(once.value);
    }
  }

  /** 0.3 is kept as 0 by one pass and dropped by the next. */
  lemma RoundIfTruthyNotIdempotent()
    ensures RoundIfTruthy(Some(0.3)) == Some(0.0)
    ensures RoundIfTruthy(RoundIfTruthy(Some(0.3))) == None
  {
    assert Round(0.3) == 0;
  }

  /** The three monetary fields of a product or scope term. */
  datatype Prices = Prices(listPrice: Option<real>, discount: Option<real>, finalPrice: Option<real>)

  /** Each monetary field rounded when truthy, otherwise absent. */
  function NormalizePrices(p: Prices): (r: Prices)
    ensures r.listPrice == RoundIfTruthy(p.listPrice)
    ensures r.discount == RoundIfTruthy(p.discount)
    ensures r.finalPrice == RoundIfTruthy(p.finalPrice)
  {
    Prices(RoundIfTruthy(p.listPrice), RoundIfTruthy(p.discount), RoundIfTruthy(p.finalPrice))
  }

  predicate IsNormalizedPrice(x: Option<real>) {
    x.Some? ==> IsIntegral(x.value) && x.value != 0.0
  }

  /** Every present monetary field is a non-zero integer. */
  predicate PricesNormalized(p: Prices) {
    IsNormalizedPrice(p.listPrice) && IsNormalizedPrice(p.discount) && IsNormalizedPrice(p.finalPrice)
  }

  lemma RoundIfTruthyFixed(x: Option<real>)
    ensures RoundIfTruthy(x) == x <==> IsNormalizedPrice(x)
  {
    if x.Some? && IsNormalizedPrice(x) {
      RoundIfTruthyFixesNonZeroIntegers(x.value);
    }
  }

  /** Normalization leaves a term's prices unchanged exactly when they are already non-zero integers or absent. */
  lemma NormalizePricesFixed(p: Prices)
    ensures NormalizePrices(p) == p <==> PricesNormalized(p)
  {
    RoundIfTruthyFixed(p.listPrice);
    RoundIfTruthyFixed(p.discount);
    RoundIfTruthyFixed(p.finalPrice);
  }

  /** The advanced estimate: percentiles 10 to 90 in steps of 5. */
  datatype Percentiles = Percentiles(
    percentile10: real, percentile15: real, percentile20: real, percentile25: real,
    percentile30: real, percentile35: real, percentile40: real, percentile45: real,
    percentile50: real, percentile55: real, percentile60: real, percentile65: real,
    percentile70: real, percentile75: real, percentile80: real, percentile85: real,
    percentile90: real)

  /** The 17 slots in order; slot i is percentile 10 + 5 * i. */
  function Slots(e: Percentiles): (s: seq<real>)
    ensures |s| == 17
    ensures s[3] == e.percentile25 && s[8] == e.percentile50 && s[13] == e.percentile75
  {
    [e.percentile10, e.percentile15, e.percentile20, e.percentile25,
     e.percentile30, e.percentile35, e.percentile40, e.percentile45,
     e.percentile50, e.percentile55, e.percentile60, e.percentile65,
     e.percentile70, e.percentile75, e.percentile80, e.percentile85,
     e.percentile90]
  }

  lemma SlotsDetermine(a: Percentiles, b: Percentiles)
    requires Slots(a) == Slots(b)
    ensures a == b
  {
    assert forall i :: 0 <= i < 17 ==> Slots(a)[i] == Slots(b)[i];
  }

  /** `roundPercentiles`: every slot rounded on its own. */
  function RoundPercentiles(e: Percentiles): (r: Percentiles)
    ensures forall i :: 0 <= i < 17 ==> Slots(r)[i] == Round(Slots(e)[i]) as real
  {
    Percentiles(
      Round(e.percentile10) as real, Round(e.percentile15) as real, Round(e.percentile20) as real,
      Round(e.percentile25) as real, Round(e.percentile30) as real, Round(e.percentile35) as real,
      Round(e.percentile40) as real, Round(e.percentile45) as real, Round(e.percentile50) as real,
      Round(e.percentile55) as real, Round(e.percentile60) as real, Round(e.percentile65) as real,
      Round(e.percentile70) as real, Round(e.percentile75) as real, Round(e.percentile80) as real,
      Round(e.percentile85) as real, Round(e.percentile90) as real)
  }

  /** Rounding yields integer slots, and an estimate whose slots are integers is left unchanged. */
  lemma RoundPercentilesIntegral(e: Percentiles)
    ensures forall i :: 0 <= i < 17 ==> IsIntegral(Slots(RoundPercentiles(e))[i])
    ensures (forall i :: 0 <= i < 17 ==> IsIntegral(Slots(e)[i])) ==> RoundPercentiles(e) == e
  {
    if forall i :: 0 <= i < 17 ==> IsIntegral(Slots(e)[i]) {
      forall i | 0 <= i < 17 ensures Slots(RoundPercentiles(e))[i] == Slots(e)[i] {
        RoundIntegral(Slots(e)[i].Floor);
      }
      SlotsDetermine(RoundPercentiles(e), e);
    }
  }

  /** The basic estimate: 25th, 50th and 75th percentiles. */
  datatype BasicPercentiles = BasicPercentiles(percentile25: real, percentile50: real, percentile75: real)

  function RoundBasic(e: BasicPercentiles): (r: BasicPercentiles)
    ensures r.percentile25 == Round(e.percentile25) as real
    ensures r.percentile50 == Round(e.percentile50) as real
    ensures r.percentile75 == Round(e.percentile75) as real
  {
    BasicPercentiles(Round(e.percentile25) as real, Round(e.percentile50) as real, Round(e.percentile75) as real)
  }

  /** A basic estimate synthesized from a price range: min, midpoint, max, each rounded. */
  function SynthesizeBasic(min: real, max: real): (r: BasicPercentiles)
    ensures r.percentile25 == Round(min) as real
    ensures r.percentile50 == Round((min + max) / 2.0) as real
    ensures r.percentile75 == Round(max) as real
  {
    BasicPercentiles(Round(min) as real, Round((min + max) / 2.0) as real, Round(max) as real)
  }

  /** For an ordered range the synthesized percentiles are ordered. */
  lemma SynthesizeBasicOrdered(min: real, max: real)
    requires min <= max
    ensures SynthesizeBasic(min, max).percentile25 <= SynthesizeBasic(min, max).percentile50
    ensures SynthesizeBasic(min, max).percentile50 <= SynthesizeBasic(min, max).percentile75
  {
    var mid := (min + max) / 2.0;
    assert min <= mid <= max;
    RoundMonotone(min, mid);
    RoundMonotone(mid, max);
  }

  lemma SynthesizeBasicExample()
    ensures SynthesizeBasic(100.0, 300.0) == BasicPercentiles(100.0, 200.0, 300.0)
  {
    RoundIntegral(100);
    RoundIntegral(200);
    RoundIntegral(300);
  }

  /** An advanced estimate synthesized from a range: slots 25, 50 and 75 as in the basic one, every other slot 0. */
  function SynthesizeAdvanced(min: real, max: real): (r: Percentiles)
    ensures r.percentile25 == SynthesizeBasic(min, max).percentile25
    ensures r.percentile50 == SynthesizeBasic(min, max).percentile50
    ensures r.percentile75 == SynthesizeBasic(min, max).percentile75
    ensures forall i :: 0 <= i < 17 && i != 3 && i != 8 && i != 13 ==> Slots(r)[i] == 0.0
  {
    Percentiles(
      0.0, 0.0, 0.0, Round(min) as real,
      0.0, 0.0, 0.0, 0.0,
      Round((min + max) / 2.0) as real, 0.0, 0.0, 0.0,
      0.0, Round(max) as real, 0.0, 0.0,
      0.0)
  }
}
