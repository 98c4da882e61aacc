/**
 * The searchCompaniesAndProducts task: find the first company matching a
 * name, then fetch its details and its products, stopping at the first
 * step without data. Nothing is redacted, and a caught exception is
 * reported by its message.
 */
module SearchCompaniesAndProducts {
  import opened Wrappers
  import opened PublicApi

  /** The validated arguments; `productLimit` is an integer from 1 to 100. */
  datatype SearchArgs = SearchArgs(companyName: string, productLimit: int)

  predicate ValidProductLimit(limit: int) {
    1 <= limit <= 100
  }

  datatype SearchResult = SearchResult(matchedCompany: Company, products: ProductPage)

  /** The best match for a name: the first company by name, ascending. */
  function CompanySearchQuery(companyName: string): (q: Query)
    ensures q.Keys == {"name", "limit", "offset", "sortBy", "sortOrder"}
    ensures q["name"] == QString(companyName) && q["limit"] == QNumber(1) && q["offset"] == QNumber(0)
    ensures q["sortBy"] == QString("name") && q["sortOrder"] == QString("asc")
  {
    map["name" := QString(companyName), "limit" := QNumber(1), "offset" := QNumber(0),
        "sortBy" := QString("name"), "sortOrder" := QString("asc")]
  }

  /** The first `limit` products in their catalog order. */
  function CompanyProductsQuery(limit: int): (q: Query)
    ensures q.Keys == {"limit", "offset", "sortBy", "sortOrder"}
    ensures q["limit"] == QNumber(limit) && q["offset"] == QNumber(0)
    ensures q["sortBy"] == QString("sortOrder") && q["sortOrder"] == QString("asc")
  {
    map["limit" := QNumber(limit), "offset" := QNumber(0), "sortBy" := QString("sortOrder"), "sortOrder" := QString("asc")]
  }

  function NoCompaniesMessage(companyName: string): string
  {
    "No companies found matching the name \"" + companyName + "\"."
  }

  /**
   * A page reporting a non-zero total but holding no company: reading `id`
   * of `data[0]` throws this `TypeError` (V8's wording), caught by the handler.
   */
  const UndefinedIdRead := ErrorObject("TypeError", "Cannot read properties of undefined (reading 'id')")

  function HandleSearchCompaniesAndProducts(api: Api, args: SearchArgs): (r: Traced<Result<SearchResult>>)
    requires ValidProductLimit(args.productLimit)
    ensures 1 <= |r.calls| <= 3 && r.calls[0] == ListCompanies(CompanySearchQuery(args.companyName))
    ensures |r.calls| >= 2 ==> r.calls[1].GetCompany?
    ensures |r.calls| == 3 ==>
              r.calls[2] == GetCompanyProducts(r.calls[1].companyId, CompanyProductsQuery(args.productLimit))
    ensures r.result.Success? ==> |r.calls| == 3
    ensures |r.calls| == 3 ==>
              var outcome := api.getCompanyProducts(r.calls[2].companyId, CompanyProductsQuery(args.productLimit));
              && api.getCompany(r.calls[1].companyId).Data?
              && (outcome.Data? ==>
                    r.result == Success(SearchResult(api.getCompany(r.calls[1].companyId).data, outcome.data)))
              && (outcome.Err? ==> r.result == Failure(outcome.detail))
              && (outcome.Raised? ==> r.result == Failure(MessageOf(outcome.exception)))
  {
    var query := CompanySearchQuery(args.companyName);
    var first := [ListCompanies(query)];
    match api.listCompanies(query)
    case Raised(e) => Traced(Failure(MessageOf(e)), first)
    case Err(detail) => Traced(Failure(detail), first)
    case Data(page) =>
      if page.pagination.total == 0 then
        Traced(Failure(NoCompaniesMessage(args.companyName)), first)
      else if |page.data| == 0 then
        Traced(Failure(MessageOf(UndefinedIdRead)), first)
      else
        var companyId := page.data[0].id;
        var second := first + [GetCompany(companyId)];
        match api.getCompany(companyId)
        case Raised(e) => Traced(Failure(MessageOf(e)), second)
        case Err(detail) => Traced(Failure(detail), second)
        case Data(company) =>
          var productsQuery := CompanyProductsQuery(args.productLimit);
          var third := second + [GetCompanyProducts(companyId, productsQuery)];
          match api.getCompanyProducts(companyId, productsQuery)
          case Raised(e) => Traced(Failure(MessageOf(e)), third)
          case Err(detail) => Traced(Failure(detail), third)
          case Data(products) => Traced(Success(SearchResult(company, products)), third)
  }

  /** A search without data, or with a total of 0, ends the task after one call. */
  lemma SearchStops(api: Api, args: SearchArgs)
    requires ValidProductLimit(args.productLimit)
    ensures var outcome := api.listCompanies(CompanySearchQuery(args.companyName));
            var r := HandleSearchCompaniesAndProducts(api, args);
            && (outcome.Err? ==> r.result == Failure(outcome.detail) && |r.calls| == 1)
            && (outcome.Raised? ==> r.result == Failure(MessageOf(outcome.exception)) && |r.calls| == 1)
            && (outcome.Data? && outcome.data.pagination.total == 0 ==>
                  r.result == Failure(NoCompaniesMessage(args.companyName)) && |r.calls| == 1)
  {
  }

  /**
   * After a match, both later calls name the first company of the page; a
   * company fetch without data stops before the products.
   */
  lemma MatchedCompanyUsed(api: Api, args: SearchArgs, page: CompanyPage)
    requires ValidProductLimit(args.productLimit)
    requires api.listCompanies(CompanySearchQuery(args.companyName)) == Data(page)
    requires page.pagination.total != 0 && |page.data| > 0
    ensures var r := HandleSearchCompaniesAndProducts(api, args);
            && |r.calls| >= 2 && r.calls[1] == GetCompany(page.data[0].id)
            && (|r.calls| == 3 ==> r.calls[2].companyId == page.data[0].id)
            && (!api.getCompany(page.data[0].id).Data? ==> |r.calls| == 2)
            && (api.getCompany(page.data[0].id).Err? ==> r.result == Failure(api.getCompany(page.data[0].id).detail))
            && (api.getCompany(page.data[0].id).Raised? ==>
                  r.result == Failure(MessageOf(api.getCompany(page.data[0].id).exception)))
  {
  }

  /**
   * Once the matched company's details are in, the task makes the products
   * call and reports its outcome: both payloads on data, otherwise the
   * error body's detail or the exception's message.
   */
  lemma ProductsStep(api: Api, args: SearchArgs, page: CompanyPage, company: Company)
    requires ValidProductLimit(args.productLimit)
    requires api.listCompanies(CompanySearchQuery(args.companyName)) == Data(page)
    requires page.pagination.total != 0 && |page.data| > 0
    requires api.getCompany(page.data[0].id) == Data(company)
    ensures var r := HandleSearchCompaniesAndProducts(api, args);
            var outcome := api.getCompanyProducts(page.data[0].id, CompanyProductsQuery(args.productLimit));
            && r.calls == [ListCompanies(CompanySearchQuery(args.companyName)), GetCompany(page.data[0].id),
                           GetCompanyProducts(page.data[0].id, CompanyProductsQuery(args.productLimit))]
            && (outcome.Data? ==> r.result == Success(SearchResult(company, outcome.data)))
            && (outcome.Err? ==> r.result == Failure(outcome.detail))
            && (outcome.Raised? ==> r.result == Failure(MessageOf(outcome.exception)))
  {
  }

  /**
   * A success carries the company details and the products page exactly as
   * the backend returned them, so the default prices are not redacted.
   */
  lemma SuccessUnredacted(api: Api, args: SearchArgs)
    requires ValidProductLimit(args.productLimit)
    ensures var r := HandleSearchCompaniesAndProducts(api, args);
            r.result.Success? ==>
              && api.getCompany(r.calls[1].companyId) == Data(r.result.value.matchedCompany)
              && api.getCompanyProducts(r.calls[1].companyId, CompanyProductsQuery(args.productLimit))
                   == Data(r.result.value.products)
  {
  }

  /** A page claiming matches but holding none fails with the message of the `TypeError`. */
  lemma EmptyPageWithTotal(api: Api, args: SearchArgs, page: CompanyPage)
    requires ValidProductLimit(args.productLimit)
    requires api.listCompanies(CompanySearchQuery(args.companyName)) == Data(page)
    requires page.pagination.total != 0 && |page.data| == 0
    ensures HandleSearchCompaniesAndProducts(api, args).result ==
              Failure("Cannot read properties of undefined (reading 'id')")
  {
  }
}
