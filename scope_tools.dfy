/**
 * The createScope and getScope tools: normalizing the terms of a
 * create-scope request, and rounding the monetary fields of the terms of
 * a returned scope. The body normalization is shared with the custom
 * estimate task, which sends the same body.
 */
module ScopeTools {
  import opened Wrappers
  import opened Numeric
  import opened PublicApi

  /** `d?.toJSON() ?? undefined`: an absent or invalid date becomes absent. */
  function DateToJson(d: Option<Date>): (r: Option<string>)
    ensures r.Some? <==> d.Some? && d.value.ValidDate?
    ensures r.Some? ==> r.value == d.value.iso
  {
    if d.Some? && d.value.ValidDate? then Some(d.value.iso) else None
  }

  function ProductTermBodyOf(pt: ProductTermInput): ProductTermBody
  {
    ProductTermBody(pt.productId, DateToJson(pt.startDate), DateToJson(pt.endDate), NormalizePrices(pt.prices), pt.rest)
  }

  function ScopeTermBodyOf(st: ScopeTermInput): ScopeTermBody
  {
    ScopeTermBody(
      CoalesceToUndefined(st.autoRenew), DateToJson(st.startDate), DateToJson(st.endDate),
      NormalizePrices(st.prices), st.rest)
  }

  /**
   * The create-scope body: a nullish `previousScopeId` and a nullish
   * `autoRenew` become absent, term lists keep their length and order, and
   * each term's prices are rounded when truthy and absent otherwise.
   */
  function CreateScopeBodyOf(args: CreateScopeArgs): (r: CreateScopeBody)
    ensures r.previousScopeId == CoalesceToUndefined(args.previousScopeId)
    ensures r.rest == args.rest
    ensures |r.productTerms| == |args.productTerms|
    ensures forall i :: 0 <= i < |r.productTerms| ==>
              var (body, input) := (r.productTerms[i], args.productTerms[i]);
              && body.productId == input.productId
              && body.startDate == DateToJson(input.startDate)
              && body.endDate == DateToJson(input.endDate)
              && body.prices == NormalizePrices(input.prices)
              && body.rest == input.rest
    ensures |r.scopeTerms| == |args.scopeTerms|
    ensures forall i :: 0 <= i < |r.scopeTerms| ==>
              var (body, input) := (r.scopeTerms[i], args.scopeTerms[i]);
              && body.autoRenew == CoalesceToUndefined(input.autoRenew)
              && body.startDate == DateToJson(input.startDate)
              && body.endDate == DateToJson(input.endDate)
              && body.prices == NormalizePrices(input.prices)
              && body.rest == input.rest
  {
    CreateScopeBody(
      CoalesceToUndefined(args.previousScopeId),
      seq(|args.productTerms|, i requires 0 <= i < |args.productTerms| => ProductTermBodyOf(args.productTerms[i])),
      seq(|args.scopeTerms|, i requires 0 <= i < |args.scopeTerms| => ScopeTermBodyOf(args.scopeTerms[i])),
      args.rest)
  }

  /** Every present monetary field is an integer, but possibly 0. */
  predicate IntegralPrices(p: Prices) {
    && (p.listPrice.Some? ==> IsIntegral(p.listPrice.value))
    && (p.discount.Some? ==> IsIntegral(p.discount.value))
    && (p.finalPrice.Some? ==> IsIntegral(p.finalPrice.value))
  }

  /** No price given as 0 is sent: each such field of the body is absent. */
  predicate ZeroPricesDropped(given: Prices, sent: Prices) {
    && (given.listPrice == Some(0.0) ==> sent.listPrice == None)
    && (given.discount == Some(0.0) ==> sent.discount == None)
    && (given.finalPrice == Some(0.0) ==> sent.finalPrice == None)
  }

  /** Every price in a create-scope body is an integer; a 0 in the arguments is never sent. */
  lemma CreateScopeBodyPricesIntegral(args: CreateScopeArgs)
    ensures forall i :: 0 <= i < |CreateScopeBodyOf(args).productTerms| ==>
              IntegralPrices(CreateScopeBodyOf(args).productTerms[i].prices)
    ensures forall i :: 0 <= i < |CreateScopeBodyOf(args).scopeTerms| ==>
              IntegralPrices(CreateScopeBodyOf(args).scopeTerms[i].prices)
    ensures forall i :: 0 <= i < |args.productTerms| ==>
              ZeroPricesDropped(args.productTerms[i].prices, CreateScopeBodyOf(args).productTerms[i].prices)
    ensures forall i :: 0 <= i < |args.scopeTerms| ==>
              ZeroPricesDropped(args.scopeTerms[i].prices, CreateScopeBodyOf(args).scopeTerms[i].prices)
  {
  }

  /** A returned scope with the monetary fields of every term rounded when truthy and absent otherwise. */
  function NormalizeScope(s: Scope): (r: Scope)
    ensures r.id == s.id && r.rest == s.rest
    ensures |r.productTerms| == |s.productTerms| && |r.scopeTerms| == |s.scopeTerms|
    ensures forall i :: 0 <= i < |r.productTerms| ==>
              r.productTerms[i] == s.productTerms[i].(prices := NormalizePrices(s.productTerms[i].prices))
    ensures forall i :: 0 <= i < |r.scopeTerms| ==>
              r.scopeTerms[i] == s.scopeTerms[i].(prices := NormalizePrices(s.scopeTerms[i].prices))
  {
    s.(
      productTerms := seq(|s.productTerms|, i requires 0 <= i < |s.productTerms| =>
        s.productTerms[i].(prices := NormalizePrices(s.productTerms[i].prices))),
      scopeTerms := seq(|s.scopeTerms|, i requires 0 <= i < |s.scopeTerms| =>
        s.scopeTerms[i].(prices := NormalizePrices(s.scopeTerms[i].prices))))
  }

  /** Every present price of every term is a non-zero integer. */
  predicate ScopeNormalized(s: Scope) {
    && (forall i :: 0 <= i < |s.productTerms| ==> PricesNormalized(s.productTerms[i].prices))
    && (forall i :: 0 <= i < |s.scopeTerms| ==> PricesNormalized(s.scopeTerms[i].prices))
  }

  /** Normalization leaves a scope unchanged exactly when its prices are non-zero integers or absent. */
  lemma NormalizeScopeFixed(s: Scope)
    ensures NormalizeScope(s) == s <==> ScopeNormalized(s)
  {
    var r := NormalizeScope(s);
    forall i | 0 <= i < |s.productTerms|
      ensures r.productTerms[i] == s.productTerms[i] <==> PricesNormalized(s.productTerms[i].prices)
    {
      NormalizePricesFixed(s.productTerms[i].prices);
    }
    forall i | 0 <= i < |s.scopeTerms|
      ensures r.scopeTerms[i] == s.scopeTerms[i] <==> PricesNormalized(s.scopeTerms[i].prices)
    {
      NormalizePricesFixed(s.scopeTerms[i].prices);
    }
    if ScopeNormalized(s) {
      assert r.productTerms == s.productTerms;
      assert r.scopeTerms == s.scopeTerms;
    }
  }

  /**
   * A second normalization changes nothing unless the first one rounded some
   * price to 0, which the second then drops.
   */
  lemma NormalizeScopeTwice(s: Scope)
    ensures NormalizeScope(NormalizeScope(s)) != NormalizeScope(s) <==> ScopeHasZeroPrice(NormalizeScope(s))
  {
    var n := NormalizeScope(s);
    NormalizeScopeFixed(n);
    forall i | 0 <= i < |n.productTerms|
      ensures PricesNormalized(n.productTerms[i].prices) <==> !PricesHaveZero(n.productTerms[i].prices)
    {
      NormalizedPricesZero(s.productTerms[i].prices);
    }
    forall i | 0 <= i < |n.scopeTerms|
      ensures PricesNormalized(n.scopeTerms[i].prices) <==> !PricesHaveZero(n.scopeTerms[i].prices)
    {
      NormalizedPricesZero(s.scopeTerms[i].prices);
    }
  }

  predicate PricesHaveZero(p: Prices) {
    p.listPrice == Some(0.0) || p.discount == Some(0.0) || p.finalPrice == Some(0.0)
  }

  /** Some term of the scope, of either kind, holds a price of exactly 0. */
  predicate ScopeHasZeroPrice(s: Scope) {
    || (exists i :: 0 <= i < |s.productTerms| && PricesHaveZero(s.productTerms[i].prices))
    || (exists i :: 0 <= i < |s.scopeTerms| && PricesHaveZero(s.scopeTerms[i].prices))
  }

  /** Once normalized, prices are absent or integers, so the only way to fail normalization again is a 0. */
  lemma NormalizedPricesZero(p: Prices)
    ensures PricesNormalized(NormalizePrices(p)) <==> !PricesHaveZero(NormalizePrices(p))
  {
  }

  /** A term listing 0.3 as its price is sent back as 0 once and without a price the second time. */
  lemma NormalizeScopeZeroExample(id: string, productId: string)
    ensures var s := Scope(id, [ProductTerm(productId, Prices(Some(0.3), None, None), map[])], [], map[]);
            && NormalizeScope(s).productTerms[0].prices.listPrice == Some(0.0)
            && NormalizeScope(NormalizeScope(s)).productTerms[0].prices.listPrice == None
  {
    RoundIfTruthyNotIdempotent();
  }

  /** The createScope handler: one create call with the normalized body; the returned scope normalized. */
  function HandleCreateScope(api: Api, args: CreateScopeArgs): (r: Traced<Result<Scope>>)
    ensures r.calls == [CreateScope(CreateScopeBodyOf(args))]
    ensures r.result == Respond(api.createScope(CreateScopeBodyOf(args)), NormalizeScope, StringOf)
  {
    var body := CreateScopeBodyOf(args);
    Traced(Respond(api.createScope(body), NormalizeScope, StringOf), [CreateScope(body)])
  }

  /** The getScope handler: one fetch; the scope normalized. */
  function HandleGetScope(api: Api, scopeId: string): (r: Traced<Result<Scope>>)
    ensures r.calls == [GetScopeById(scopeId)]
    ensures r.result == Respond(api.getScopeById(scopeId), NormalizeScope, StringOf)
  {
    Traced(Respond(api.getScopeById(scopeId), NormalizeScope, StringOf), [GetScopeById(scopeId)])
  }

  /** A scope returned by either handler has only integer prices. */
  lemma HandledScopesIntegral(api: Api, args: CreateScopeArgs, scopeId: string)
    ensures HandleCreateScope(api, args).result.Success? ==> ScopeIntegral(HandleCreateScope(api, args).result.value)
    ensures HandleGetScope(api, scopeId).result.Success? ==> ScopeIntegral(HandleGetScope(api, scopeId).result.value)
  {
  }

  predicate ScopeIntegral(s: Scope) {
    && (forall i :: 0 <= i < |s.productTerms| ==> IntegralPrices(s.productTerms[i].prices))
    && (forall i :: 0 <= i < |s.scopeTerms| ==> IntegralPrices(s.scopeTerms[i].prices))
  }
}
