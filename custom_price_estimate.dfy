/**
 * The getCustomPriceEstimate task: create a scope from the arguments, then
 * ask for the advanced estimate of exactly that scope. There is no company
 * fallback, a `null` aggregate estimate is reported as `null`, and a caught
 * exception is reported by its message.
 */
module CustomPriceEstimate {
  import opened Wrappers
  import opened Numeric
  import opened PublicApi
  import ScopeTools
  import AdvancedPriceEstimate

  datatype MinMax = MinMax(min: real, max: real)

  /** The task's success shape; `estimate` and `companyDefaultPriceRange` may be `null`. */
  datatype CustomEstimate = CustomEstimate(
    currency: string,
    timestamp: string,
    estimate: Nullish<Percentiles>,
    productEstimates: seq<ProductEstimate>,
    companyDefaultPriceRange: Nullish<MinMax>,
    rest: Attrs)

  /** The estimate payload reshaped: the aggregate rounded or `null`, no company range. */
  function ShapeCustom(d: AdvancedEstimate): (r: CustomEstimate)
    ensures r.currency == d.currency && r.timestamp == d.timestamp && r.rest == d.rest
    ensures r.estimate == if d.estimate.Some? then Defined(RoundPercentiles(d.estimate.value)) else Null
    ensures r.productEstimates == AdvancedPriceEstimate.RoundProductEstimates(d.productEstimates)
    ensures r.companyDefaultPriceRange == Null
  {
    CustomEstimate(
      d.currency, d.timestamp,
      if d.estimate.Some? then Defined(RoundPercentiles(d.estimate.value)) else Null,
      AdvancedPriceEstimate.RoundProductEstimates(d.productEstimates),
      Null,
      d.rest)
  }

  /** The handler: create the scope, then estimate the scope the backend returned. */
  function HandleGetCustomPriceEstimate(api: Api, args: CreateScopeArgs): (r: Traced<Result<CustomEstimate>>)
    ensures var body := ScopeTools.CreateScopeBodyOf(args);
            && 1 <= |r.calls| <= 2
            && r.calls[0] == CreateScope(body)
            && (!api.createScope(body).Data? ==> |r.calls| == 1)
            && (|r.calls| == 2 ==> api.createScope(body).Data? &&
                                   r.calls[1] == GetAdvancedPriceEstimate(api.createScope(body).data.id))
  {
    var body := ScopeTools.CreateScopeBodyOf(args);
    var first := [CreateScope(body)];
    match api.createScope(body)
    case Raised(e) => Traced(Failure(MessageOf(e)), first)
    case Err(detail) => Traced(Failure(detail), first)
    case Data(scope) =>
      var second := first + [GetAdvancedPriceEstimate(scope.id)];
      Traced(Respond(api.getAdvancedPriceEstimate(scope.id), ShapeCustom, MessageOf), second)
  }

  /** A failed creation ends the task with its detail, or the exception's message. */
  lemma CreateFails(api: Api, args: CreateScopeArgs)
    requires !api.createScope(ScopeTools.CreateScopeBodyOf(args)).Data?
    ensures var outcome := api.createScope(ScopeTools.CreateScopeBodyOf(args));
            HandleGetCustomPriceEstimate(api, args).result ==
              if outcome.Err? then Failure(outcome.detail) else Failure(MessageOf(outcome.exception))
  {
  }

  /**
   * After a creation the task's result is the estimate call's outcome
   * reshaped; an error body is reported as it is, with no fallback.
   */
  lemma EstimateOfCreatedScope(api: Api, args: CreateScopeArgs, scope: Scope)
    requires api.createScope(ScopeTools.CreateScopeBodyOf(args)) == Data(scope)
    ensures HandleGetCustomPriceEstimate(api, args).calls ==
              [CreateScope(ScopeTools.CreateScopeBodyOf(args)), GetAdvancedPriceEstimate(scope.id)]
    ensures HandleGetCustomPriceEstimate(api, args).result ==
              Respond(api.getAdvancedPriceEstimate(scope.id), ShapeCustom, MessageOf)
    ensures api.getAdvancedPriceEstimate(scope.id).Err? ==>
              HandleGetCustomPriceEstimate(api, args).result == Failure(api.getAdvancedPriceEstimate(scope.id).detail)
  {
  }

  /**
   * Where the advanced tool fails on a `null` aggregate estimate, the custom
   * task succeeds with `null`; where both succeed they report the same
   * rounded estimates.
   */
  lemma AgreesWithAdvanced(d: AdvancedEstimate)
    ensures d.estimate.None? ==> AdvancedPriceEstimate.ShapeAdvanced(d).Failure? && ShapeCustom(d).estimate == Null
    ensures d.estimate.Some? ==>
              && AdvancedPriceEstimate.ShapeAdvanced(d).Success?
              && ShapeCustom(d).estimate == Defined(AdvancedPriceEstimate.ShapeAdvanced(d).value.estimate)
              && ShapeCustom(d).productEstimates == AdvancedPriceEstimate.ShapeAdvanced(d).value.productEstimates
  {
  }

  /** Every estimate the task reports has integer slots. */
  lemma CustomResultIntegral(api: Api, args: CreateScopeArgs)
    ensures var r := HandleGetCustomPriceEstimate(api, args).result;
            r.Success? ==>
              && (r.value.estimate.Defined? ==> AdvancedPriceEstimate.PercentilesIntegral(r.value.estimate.value))
              && forall i :: 0 <= i < |r.value.productEstimates| && r.value.productEstimates[i].estimate.Some? ==>
                   AdvancedPriceEstimate.PercentilesIntegral(r.value.productEstimates[i].estimate.value)
  {
    var r := HandleGetCustomPriceEstimate(api, args).result;
    if r.Success? {
      var scope := api.createScope(ScopeTools.CreateScopeBodyOf(args)).data;
      var d := api.getAdvancedPriceEstimate(scope.id).data;
      if d.estimate.Some? {
        RoundPercentilesIntegral(d.estimate.value);
      }
      forall i | 0 <= i < |r.value.productEstimates| && r.value.productEstimates[i].estimate.Some?
        ensures AdvancedPriceEstimate.PercentilesIntegral(r.value.productEstimates[i].estimate.value)
      {
        RoundPercentilesIntegral(d.productEstimates[i].estimate.value);
      }
    }
  }
}
