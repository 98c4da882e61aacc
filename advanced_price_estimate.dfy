/**
 * The getAdvancedPriceEstimate tool: the 17-percentile estimate for a scope
 * with a per-product breakdown, rounded, and synthesized from the
 * company's default price range when the estimate call returns no data.
 *
 * `now` stands for `new Date().toJSON()`.
 */
module AdvancedPriceEstimate {
  import opened Wrappers
  import opened Numeric
  import opened PublicApi
  import opened CompanyLevelEstimates

  /** The tool's success shape: unlike the payload, its aggregate estimate is always present. */
  datatype AdvancedOutput = AdvancedOutput(
    currency: string,
    timestamp: string,
    estimate: Percentiles,
    productEstimates: seq<ProductEstimate>,
    rest: Attrs)

  /**
   * Reading `percentile10` of a `null` aggregate estimate throws this
   * `TypeError` (the message is V8's); the handler catches it.
   */
  const NullEstimateRead := ErrorObject("TypeError", NullEstimateMessage)
  const NullEstimateMessage := "Cannot read properties of null (reading 'percentile10')"

  /** Caught and turned into `String(e)`, the error reads as the name, a colon and the message. */
  lemma NullEstimateReadText()
    ensures StringOf(NullEstimateRead) == "TypeError: " + NullEstimateMessage
  {
    assert "TypeError" + ": " == "TypeError: ";
  }

  /** A product's estimate: rounded when its status is "success" and it has one, otherwise absent. */
  function RoundProductEstimate(pe: ProductEstimate): (r: ProductEstimate)
    ensures r.status == pe.status && r.rest == pe.rest
    ensures r.estimate.Some? <==> pe.status == "success" && pe.estimate.Some?
    ensures r.estimate.Some? ==> r.estimate.value == RoundPercentiles(pe.estimate.value)
  {
    pe.(estimate := if pe.status == "success" && pe.estimate.Some? then Some(RoundPercentiles(pe.estimate.value)) else None)
  }

  /** `productEstimates.map(...)`: same length and order, each entry handled on its own. */
  function RoundProductEstimates(pes: seq<ProductEstimate>): (r: seq<ProductEstimate>)
    ensures |r| == |pes|
    ensures forall i :: 0 <= i < |r| ==> r[i] == RoundProductEstimate(pes[i])
  {
    seq(|pes|, i requires 0 <= i < |pes| => RoundProductEstimate(pes[i]))
  }

  /** Rounding a product estimate twice is rounding it once. */
  lemma RoundProductEstimateIdempotent(pe: ProductEstimate)
    ensures RoundProductEstimate(RoundProductEstimate(pe)) == RoundProductEstimate(pe)
  {
    if pe.status == "success" && pe.estimate.Some? {
      RoundPercentilesIntegral(pe.estimate.value);
      RoundPercentilesIntegral(RoundPercentiles(pe.estimate.value));
    }
  }

  /** A direct estimate: a `null` aggregate raises `NullEstimateRead`, which becomes `String(e)`. */
  function ShapeAdvanced(d: AdvancedEstimate): (r: Result<AdvancedOutput>)
    ensures r.Success? <==> d.estimate.Some?
    ensures r.Failure? ==> r.error == StringOf(NullEstimateRead)
    ensures r.Success? ==>
              && r.value.currency == d.currency && r.value.timestamp == d.timestamp && r.value.rest == d.rest
              && r.value.estimate == RoundPercentiles(d.estimate.value)
              && r.value.productEstimates == RoundProductEstimates(d.productEstimates)
  {
    if d.estimate.None? then
      Failure(StringOf(NullEstimateRead))
    else
      Success(AdvancedOutput(
        d.currency, d.timestamp, RoundPercentiles(d.estimate.value), RoundProductEstimates(d.productEstimates), d.rest))
  }

  /** An estimate made from a price range: slots 25, 50 and 75 from the range, the rest 0, no product estimates. */
  function SynthesizedAdvanced(range: PriceRange, now: string): (r: AdvancedOutput)
    ensures r.currency == range.currency && r.timestamp == now && r.rest == map[]
    ensures r.productEstimates == []
    ensures r.estimate == SynthesizeAdvanced(range.min, range.max)
  {
    AdvancedOutput(range.currency, now, SynthesizeAdvanced(range.min, range.max), [], map[])
  }

  function FromFallback(outcome: Completion<PriceRange>, now: string): (r: Result<AdvancedOutput>)
    ensures r.Success? <==> outcome.Returned? && outcome.result.Success?
    ensures r.Success? ==> r.value == SynthesizedAdvanced(outcome.result.value, now)
    ensures outcome.Returned? && outcome.result.Failure? ==> r == Failure(outcome.result.error)
    ensures outcome.Threw? ==> r == Failure(StringOf(outcome.exception))
  {
    match outcome
    case Returned(Success(range)) => Success(SynthesizedAdvanced(range, now))
    case Returned(Failure(message)) => Failure(message)
    case Threw(e) => Failure(StringOf(e))
  }

  /** The handler; the fallback runs only after an error body. */
  function HandleGetAdvancedPriceEstimate(api: Api, now: string, scopeId: string): (r: Traced<Result<AdvancedOutput>>)
    ensures |r.calls| >= 1 && r.calls[0] == GetAdvancedPriceEstimate(scopeId)
    ensures api.getAdvancedPriceEstimate(scopeId).Data? ==>
              r == Traced(ShapeAdvanced(api.getAdvancedPriceEstimate(scopeId).data), [GetAdvancedPriceEstimate(scopeId)])
    ensures api.getAdvancedPriceEstimate(scopeId).Raised? ==>
              r == Traced(Failure(StringOf(api.getAdvancedPriceEstimate(scopeId).exception)), [GetAdvancedPriceEstimate(scopeId)])
    ensures api.getAdvancedPriceEstimate(scopeId).Err? ==>
              && r.calls == [GetAdvancedPriceEstimate(scopeId)] + GetCompanyPriceRange(api, scopeId).calls
              && r.result == FromFallback(GetCompanyPriceRange(api, scopeId).result, now)
  {
    var first := [GetAdvancedPriceEstimate(scopeId)];
    match api.getAdvancedPriceEstimate(scopeId)
    case Data(d) => Traced(ShapeAdvanced(d), first)
    case Raised(e) => Traced(Failure(StringOf(e)), first)
    case Err(_) =>
      var fallback := GetCompanyPriceRange(api, scopeId);
      Traced(FromFallback(fallback.result, now), first + fallback.calls)
  }

  predicate PercentilesIntegral(e: Percentiles) {
    forall i :: 0 <= i < 17 ==> IsIntegral(Slots(e)[i])
  }

  /** Every estimate in a successful result, aggregate or per product, has integer slots. */
  predicate OutputIntegral(o: AdvancedOutput) {
    && PercentilesIntegral(o.estimate)
    && forall i :: 0 <= i < |o.productEstimates| && o.productEstimates[i].estimate.Some? ==>
         PercentilesIntegral(o.productEstimates[i].estimate.value)
  }

  lemma AdvancedResultIntegral(api: Api, now: string, scopeId: string)
    ensures HandleGetAdvancedPriceEstimate(api, now, scopeId).result.Success? ==>
              OutputIntegral(HandleGetAdvancedPriceEstimate(api, now, scopeId).result.value)
  {
    var r := HandleGetAdvancedPriceEstimate(api, now, scopeId).result;
    if r.Success? {
      match api.getAdvancedPriceEstimate(scopeId)
      case Data(d) =>
        RoundPercentilesIntegral(d.estimate.value);
        forall i | 0 <= i < |r.value.productEstimates| && r.value.productEstimates[i].estimate.Some?
          ensures PercentilesIntegral(r.value.productEstimates[i].estimate.value)
        {
          RoundPercentilesIntegral(d.productEstimates[i].estimate.value);
        }
      case Err(_) =>
        var e := r.value.estimate;
        assert Slots(e)[3] == e.percentile25 && Slots(e)[8] == e.percentile50 && Slots(e)[13] == e.percentile75;
    }
  }

  /** A synthesized estimate from an ordered range has ordered percentiles 25, 50 and 75. */
  lemma FallbackOrdered(api: Api, now: string, scopeId: string, range: PriceRange)
    requires api.getAdvancedPriceEstimate(scopeId).Err?
    requires GetCompanyPriceRange(api, scopeId).result == Returned(Success(range))
    requires range.min <= range.max
    ensures var r := HandleGetAdvancedPriceEstimate(api, now, scopeId).result;
            && r.Success?
            && r.value.estimate.percentile25 <= r.value.estimate.percentile50 <= r.value.estimate.percentile75
  {
    SynthesizeBasicOrdered(range.min, range.max);
  }
}
