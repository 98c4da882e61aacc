/**
 * The getBasicPriceEstimate tool: the 25th, 50th and 75th percentile
 * estimate for a scope, rounded, and synthesized from the company's default
 * price range when the estimate call returns no data.
 *
 * `now` stands for `new Date().toJSON()`, the timestamp of a synthesized
 * estimate.
 */
module BasicPriceEstimate {
  import opened Wrappers
  import opened Numeric
  import opened PublicApi
  import opened CompanyLevelEstimates

  /** A direct estimate: the three percentiles rounded, every other field copied. */
  function RoundedBasic(d: BasicEstimate): (r: BasicEstimate)
    ensures r.currency == d.currency && r.timestamp == d.timestamp && r.rest == d.rest
    ensures r.estimate == RoundBasic(d.estimate)
  {
    d.(estimate := RoundBasic(d.estimate))
  }

  /** An estimate made from a price range: min, midpoint and max, rounded; only currency and timestamp besides. */
  function SynthesizedBasic(range: PriceRange, now: string): (r: BasicEstimate)
    ensures r.currency == range.currency && r.timestamp == now && r.rest == map[]
    ensures r.estimate == SynthesizeBasic(range.min, range.max)
  {
    BasicEstimate(range.currency, now, SynthesizeBasic(range.min, range.max), map[])
  }

  /** How the outcome of the fallback becomes the tool's result; an escaped exception is caught as `String(e)`. */
  function FromFallback(outcome: Completion<PriceRange>, now: string): (r: Result<BasicEstimate>)
    ensures r.Success? <==> outcome.Returned? && outcome.result.Success?
    ensures r.Success? ==> r.value == SynthesizedBasic(outcome.result.value, now)
    ensures outcome.Returned? && outcome.result.Failure? ==> r == Failure(outcome.result.error)
    ensures outcome.Threw? ==> r == Failure(StringOf(outcome.exception))
  {
    match outcome
    case Returned(Success(range)) => Success(SynthesizedBasic(range, now))
    case Returned(Failure(message)) => Failure(message)
    case Threw(e) => Failure(StringOf(e))
  }

  /**
   * The handler. The fallback runs only after an error body; its calls
   * follow the estimate call, and its message replaces the estimate's.
   */
  function HandleGetBasicPriceEstimate(api: Api, now: string, scopeId: string): (r: Traced<Result<BasicEstimate>>)
    ensures |r.calls| >= 1 && r.calls[0] == GetBasicPriceEstimate(scopeId)
    ensures api.getBasicPriceEstimate(scopeId).Data? ==>
              r == Traced(Success(RoundedBasic(api.getBasicPriceEstimate(scopeId).data)), [GetBasicPriceEstimate(scopeId)])
    ensures api.getBasicPriceEstimate(scopeId).Raised? ==>
              r == Traced(Failure(StringOf(api.getBasicPriceEstimate(scopeId).exception)), [GetBasicPriceEstimate(scopeId)])
    ensures api.getBasicPriceEstimate(scopeId).Err? ==>
              && r.calls == [GetBasicPriceEstimate(scopeId)] + GetCompanyPriceRange(api, scopeId).calls
              && r.result == FromFallback(GetCompanyPriceRange(api, scopeId).result, now)
  {
    var first := [GetBasicPriceEstimate(scopeId)];
    match api.getBasicPriceEstimate(scopeId)
    case Data(d) => Traced(Success(RoundedBasic(d)), first)
    case Raised(e) => Traced(Failure(StringOf(e)), first)
    case Err(_) =>
      var fallback := GetCompanyPriceRange(api, scopeId);
      Traced(FromFallback(fallback.result, now), first + fallback.calls)
  }

  predicate BasicIntegral(e: BasicPercentiles) {
    IsIntegral(e.percentile25) && IsIntegral(e.percentile50) && IsIntegral(e.percentile75)
  }

  /** Whichever path produced it, a successful estimate has integer percentiles. */
  lemma BasicResultIntegral(api: Api, now: string, scopeId: string)
    ensures HandleGetBasicPriceEstimate(api, now, scopeId).result.Success? ==>
              BasicIntegral(HandleGetBasicPriceEstimate(api, now, scopeId).result.value.estimate)
  {
  }

  /** A synthesized estimate from an ordered range has ordered percentiles. */
  lemma FallbackOrdered(api: Api, now: string, scopeId: string, range: PriceRange)
    requires api.getBasicPriceEstimate(scopeId).Err?
    requires GetCompanyPriceRange(api, scopeId).result == Returned(Success(range))
    requires range.min <= range.max
    ensures var r := HandleGetBasicPriceEstimate(api, now, scopeId).result;
            && r.Success?
            && r.value.estimate.percentile25 <= r.value.estimate.percentile50 <= r.value.estimate.percentile75
  {
    SynthesizeBasicOrdered(range.min, range.max);
  }

  /** The range 100..300 yields the estimate 100 / 200 / 300 in the range's currency. */
  lemma FallbackExample(api: Api, now: string, scopeId: string, currency: string)
    requires api.getBasicPriceEstimate(scopeId).Err?
    requires GetCompanyPriceRange(api, scopeId).result == Returned(Success(PriceRange(100.0, 300.0, currency)))
    ensures HandleGetBasicPriceEstimate(api, now, scopeId).result ==
              Success(BasicEstimate(currency, now, BasicPercentiles(100.0, 200.0, 300.0), map[]))
  {
    SynthesizeBasicExample();
  }
}
