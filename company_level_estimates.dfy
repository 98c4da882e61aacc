/**
 * `getCompanyPriceRange`: the fallback that resolves a scope to the default
 * price range of the company behind its first product term, walking
 * scope -> product -> company and stopping at the first failure.
 *
 * The resolver has no `catch`: an exception from any call escapes to the
 * estimate tool that asked for the range (`Threw`).
 */
module CompanyLevelEstimates {
  import opened Wrappers
  import opened PublicApi

  const NoProductsMessage := "Unable to find products on the scope."
  const NoDefaultPriceRangeMessage := "Company does not have default price range."

  /** `productTerms[0]?.productId` when truthy: only the first term counts, and an empty id is falsy. */
  function FirstProductId(scope: Scope): (r: Option<string>)
    ensures r.Some? <==> |scope.productTerms| > 0 && scope.productTerms[0].productId != ""
    ensures r.Some? ==> r.value == scope.productTerms[0].productId
  {
    if |scope.productTerms| > 0 && scope.productTerms[0].productId != "" then
      Some(scope.productTerms[0].productId)
    else
      None
  }

  function GetCompanyPriceRange(api: Api, scopeId: string): (r: Traced<Completion<PriceRange>>)
    ensures 1 <= |r.calls| <= 3 && r.calls[0] == GetScopeById(scopeId)
    ensures |r.calls| >= 2 ==> r.calls[1].GetProduct?
    ensures |r.calls| == 3 ==> r.calls[2].GetCompany?
    ensures r.result.Returned? && r.result.result.Success? ==> |r.calls| == 3
  {
    var first := [GetScopeById(scopeId)];
    match api.getScopeById(scopeId)
    case Raised(e) => Traced(Threw(e), first)
    case Err(detail) => Traced(Returned(Failure(detail)), first)
    case Data(scope) =>
      match FirstProductId(scope)
      case None => Traced(Returned(Failure(NoProductsMessage)), first)
      case Some(productId) =>
        var second := first + [GetProduct(productId)];
        match api.getProduct(productId)
        case Raised(e) => Traced(Threw(e), second)
        case Err(detail) => Traced(Returned(Failure(detail)), second)
        case Data(product) =>
          var third := second + [GetCompany(product.company.id)];
          match api.getCompany(product.company.id)
          case Raised(e) => Traced(Threw(e), third)
          case Err(detail) => Traced(Returned(Failure(detail)), third)
          case Data(company) =>
            if company.defaultPriceRange.Some? then
              Traced(Returned(Success(company.defaultPriceRange.value)), third)
            else
              Traced(Returned(Failure(NoDefaultPriceRangeMessage)), third)
  }

  /** A scope fetch without data ends the walk: its detail, or its exception, is the outcome. */
  lemma ScopeFetchFails(api: Api, scopeId: string)
    requires !api.getScopeById(scopeId).Data?
    ensures GetCompanyPriceRange(api, scopeId).calls == [GetScopeById(scopeId)]
    ensures api.getScopeById(scopeId).Err? ==>
              GetCompanyPriceRange(api, scopeId).result == Returned(Failure(api.getScopeById(scopeId).detail))
    ensures api.getScopeById(scopeId).Raised? ==>
              GetCompanyPriceRange(api, scopeId).result == Threw(api.getScopeById(scopeId).exception)
  {
  }

  /** Without a truthy first product id no product is fetched. */
  lemma NoProductOnScope(api: Api, scopeId: string)
    requires api.getScopeById(scopeId).Data?
    requires FirstProductId(api.getScopeById(scopeId).data).None?
    ensures GetCompanyPriceRange(api, scopeId) ==
              Traced(Returned(Failure(NoProductsMessage)), [GetScopeById(scopeId)])
  {
  }

  /** The product fetched is the first term's; a product fetch without data ends the walk. */
  lemma ProductFetch(api: Api, scopeId: string, productId: string)
    requires api.getScopeById(scopeId).Data?
    requires FirstProductId(api.getScopeById(scopeId).data) == Some(productId)
    ensures |GetCompanyPriceRange(api, scopeId).calls| >= 2
    ensures GetCompanyPriceRange(api, scopeId).calls[..2] == [GetScopeById(scopeId), GetProduct(productId)]
    ensures api.getProduct(productId).Err? ==>
              GetCompanyPriceRange(api, scopeId) ==
              Traced(Returned(Failure(api.getProduct(productId).detail)), [GetScopeById(scopeId), GetProduct(productId)])
    ensures api.getProduct(productId).Raised? ==>
              GetCompanyPriceRange(api, scopeId) ==
              Traced(Threw(api.getProduct(productId).exception), [GetScopeById(scopeId), GetProduct(productId)])
  {
  }

  /**
   * The company fetched is the one the product names; the walk then
   * succeeds exactly when that company has a default price range, which is
   * returned unchanged.
   */
  lemma CompanyFetch(api: Api, scopeId: string, productId: string, product: Product)
    requires api.getScopeById(scopeId).Data?
    requires FirstProductId(api.getScopeById(scopeId).data) == Some(productId)
    requires api.getProduct(productId) == Data(product)
    ensures GetCompanyPriceRange(api, scopeId).calls ==
              [GetScopeById(scopeId), GetProduct(productId), GetCompany(product.company.id)]
    ensures api.getCompany(product.company.id).Err? ==>
              GetCompanyPriceRange(api, scopeId).result == Returned(Failure(api.getCompany(product.company.id).detail))
    ensures api.getCompany(product.company.id).Raised? ==>
              GetCompanyPriceRange(api, scopeId).result == Threw(api.getCompany(product.company.id).exception)
    ensures api.getCompany(product.company.id).Data? ==>
              var company := api.getCompany(product.company.id).data;
              GetCompanyPriceRange(api, scopeId).result ==
                if company.defaultPriceRange.Some? then Returned(Success(company.defaultPriceRange.value))
                else Returned(Failure(NoDefaultPriceRangeMessage))
  {
  }

  /**
   * The walk yields `range` exactly when the scope's first product names a
   * company whose default price range is `range`.
   */
  lemma PriceRangeFoundIff(api: Api, scopeId: string, range: PriceRange)
    ensures GetCompanyPriceRange(api, scopeId).result == Returned(Success(range)) <==>
              && api.getScopeById(scopeId).Data?
              && FirstProductId(api.getScopeById(scopeId).data).Some?
              && var productId := FirstProductId(api.getScopeById(scopeId).data).value;
                 && api.getProduct(productId).Data?
                 && var companyId := api.getProduct(productId).data.company.id;
                    && api.getCompany(companyId).Data?
                    && api.getCompany(companyId).data.defaultPriceRange == Some(range)
  {
  }
}
