/**
 * The catalog tools getCompany, getProduct, getProductFamily,
 * listProductFamilies and listProducts. Each forwards one request and
 * returns the payload with its default prices cleared at fixed places,
 * keeping every list's length and order and every other field.
 */
module CatalogTools {
  import opened Wrappers
  import opened PublicApi

  // ---------------------------------------------------------------------
  // Per-list redactions
  // ---------------------------------------------------------------------

  function RedactCompetitors(cs: seq<Competitor>): (r: seq<Competitor>)
    ensures |r| == |cs|
    ensures forall i :: 0 <= i < |r| ==> r[i].defaultPrice == None && r[i].rest == cs[i].rest
  {
    seq(|cs|, i requires 0 <= i < |cs| => cs[i].(defaultPrice := None))
  }

  function RedactSummaries(ps: seq<ProductSummary>): (r: seq<ProductSummary>)
    ensures |r| == |ps|
    ensures forall i :: 0 <= i < |r| ==> r[i].defaultPrice == None && r[i].rest == ps[i].rest
  {
    seq(|ps|, i requires 0 <= i < |ps| => ps[i].(defaultPrice := None))
  }

  function RedactFamilySummaries(fs: seq<FamilySummary>): (r: seq<FamilySummary>)
    ensures |r| == |fs|
    ensures forall i :: 0 <= i < |r| ==> r[i].defaultPriceRange == None && r[i].rest == fs[i].rest
  {
    seq(|fs|, i requires 0 <= i < |fs| => fs[i].(defaultPriceRange := None))
  }

  predicate CompetitorsRedacted(cs: seq<Competitor>) {
    forall i :: 0 <= i < |cs| ==> cs[i].defaultPrice.None?
  }

  predicate SummariesRedacted(ps: seq<ProductSummary>) {
    forall i :: 0 <= i < |ps| ==> ps[i].defaultPrice.None?
  }

  predicate FamilySummariesRedacted(fs: seq<FamilySummary>) {
    forall i :: 0 <= i < |fs| ==> fs[i].defaultPriceRange.None?
  }

  lemma RedactCompetitorsFixed(cs: seq<Competitor>)
    ensures RedactCompetitors(cs) == cs <==> CompetitorsRedacted(cs)
  {
    if CompetitorsRedacted(cs) {
      assert forall i :: 0 <= i < |cs| ==> RedactCompetitors(cs)[i] == cs[i];
    }
  }

  lemma RedactSummariesFixed(ps: seq<ProductSummary>)
    ensures RedactSummaries(ps) == ps <==> SummariesRedacted(ps)
  {
    if SummariesRedacted(ps) {
      assert forall i :: 0 <= i < |ps| ==> RedactSummaries(ps)[i] == ps[i];
    }
  }

  lemma RedactFamilySummariesFixed(fs: seq<FamilySummary>)
    ensures RedactFamilySummaries(fs) == fs <==> FamilySummariesRedacted(fs)
  {
    if FamilySummariesRedacted(fs) {
      assert forall i :: 0 <= i < |fs| ==> RedactFamilySummaries(fs)[i] == fs[i];
    }
  }

  /** Two competitor lists redact alike exactly when they differ at most in their prices. */
  lemma RedactCompetitorsForgetsOnlyPrices(a: seq<Competitor>, b: seq<Competitor>)
    ensures RedactCompetitors(a) == RedactCompetitors(b) <==>
              |a| == |b| && forall i :: 0 <= i < |a| ==> a[i].rest == b[i].rest
  {
    if |a| == |b| && forall i :: 0 <= i < |a| ==> a[i].rest == b[i].rest {
      assert forall i :: 0 <= i < |a| ==> RedactCompetitors(a)[i] == RedactCompetitors(b)[i];
    }
    if RedactCompetitors(a) == RedactCompetitors(b) {
      assert forall i :: 0 <= i < |a| ==> RedactCompetitors(a)[i].rest == RedactCompetitors(b)[i].rest;
    }
  }

  lemma RedactSummariesForgetsOnlyPrices(a: seq<ProductSummary>, b: seq<ProductSummary>)
    ensures RedactSummaries(a) == RedactSummaries(b) <==>
              |a| == |b| && forall i :: 0 <= i < |a| ==> a[i].rest == b[i].rest
  {
    if |a| == |b| && forall i :: 0 <= i < |a| ==> a[i].rest == b[i].rest {
      assert forall i :: 0 <= i < |a| ==> RedactSummaries(a)[i] == RedactSummaries(b)[i];
    }
    if RedactSummaries(a) == RedactSummaries(b) {
      assert forall i :: 0 <= i < |a| ==> RedactSummaries(a)[i].rest == RedactSummaries(b)[i].rest;
    }
  }

  lemma RedactFamilySummariesForgetsOnlyPrices(a: seq<FamilySummary>, b: seq<FamilySummary>)
    ensures RedactFamilySummaries(a) == RedactFamilySummaries(b) <==>
              |a| == |b| && forall i :: 0 <= i < |a| ==> a[i].rest == b[i].rest
  {
    if |a| == |b| && forall i :: 0 <= i < |a| ==> a[i].rest == b[i].rest {
      assert forall i :: 0 <= i < |a| ==> RedactFamilySummaries(a)[i] == RedactFamilySummaries(b)[i];
    }
    if RedactFamilySummaries(a) == RedactFamilySummaries(b) {
      assert forall i :: 0 <= i < |a| ==> RedactFamilySummaries(a)[i].rest == RedactFamilySummaries(b)[i].rest;
    }
  }

  // ---------------------------------------------------------------------
  // getCompany
  // ---------------------------------------------------------------------

  /** The company's range, every family's range and every product's price cleared. */
  function RedactCompany(c: Company): (r: Company)
    ensures r.id == c.id && r.rest == c.rest && r.defaultPriceRange == None
    ensures r.productFamilies == RedactFamilySummaries(c.productFamilies)
    ensures r.products == RedactSummaries(c.products)
  {
    c.(defaultPriceRange := None,
       productFamilies := RedactFamilySummaries(c.productFamilies),
       products := RedactSummaries(c.products))
  }

  predicate CompanyRedacted(c: Company) {
    c.defaultPriceRange.None? && FamilySummariesRedacted(c.productFamilies) && SummariesRedacted(c.products)
  }

  /** Redaction changes a company exactly when some price is still present. */
  lemma RedactCompanyFixed(c: Company)
    ensures RedactCompany(c) == c <==> CompanyRedacted(c)
  {
    RedactFamilySummariesFixed(c.productFamilies);
    RedactSummariesFixed(c.products);
  }

  /** Two companies redact alike exactly when they differ at most in their prices. */
  lemma RedactCompanyForgetsOnlyPrices(a: Company, b: Company)
    ensures RedactCompany(a) == RedactCompany(b) <==>
              && a.id == b.id && a.rest == b.rest
              && RedactFamilySummaries(a.productFamilies) == RedactFamilySummaries(b.productFamilies)
              && RedactSummaries(a.products) == RedactSummaries(b.products)
  {
  }

  function HandleGetCompany(api: Api, companyId: string): (r: Traced<Result<Company>>)
    ensures r.calls == [GetCompany(companyId)]
    ensures r.result == Respond(api.getCompany(companyId), RedactCompany, StringOf)
  {
    Traced(Respond(api.getCompany(companyId), RedactCompany, StringOf), [GetCompany(companyId)])
  }

  // ---------------------------------------------------------------------
  // getProduct
  // ---------------------------------------------------------------------

  /** The product's price and every competitor's price cleared. */
  function RedactProduct(p: Product): (r: Product)
    ensures r.company == p.company && r.rest == p.rest && r.defaultPrice == None
    ensures r.competitors == RedactCompetitors(p.competitors)
  {
    p.(defaultPrice := None, competitors := RedactCompetitors(p.competitors))
  }

  predicate ProductRedacted(p: Product) {
    p.defaultPrice.None? && CompetitorsRedacted(p.competitors)
  }

  lemma RedactProductFixed(p: Product)
    ensures RedactProduct(p) == p <==> ProductRedacted(p)
  {
    RedactCompetitorsFixed(p.competitors);
  }

  function HandleGetProduct(api: Api, productId: string): (r: Traced<Result<Product>>)
    ensures r.calls == [GetProduct(productId)]
    ensures r.result == Respond(api.getProduct(productId), RedactProduct, StringOf)
  {
    Traced(Respond(api.getProduct(productId), RedactProduct, StringOf), [GetProduct(productId)])
  }

  // ---------------------------------------------------------------------
  // getProductFamily and listProductFamilies
  // ---------------------------------------------------------------------

  /** The family's range cleared; its products, when present, have their prices cleared. */
  function RedactProductFamily(f: ProductFamily): (r: ProductFamily)
    ensures r.rest == f.rest && r.defaultPriceRange == None
    ensures r.products.Some? <==> f.products.Some?
    ensures r.products.Some? ==> r.products.value == RedactSummaries(f.products.value)
  {
    f.(defaultPriceRange := None,
       products := if f.products.Some? then Some(RedactSummaries(f.products.value)) else None)
  }

  predicate FamilyRedacted(f: ProductFamily) {
    f.defaultPriceRange.None? && (f.products.Some? ==> SummariesRedacted(f.products.value))
  }

  lemma RedactProductFamilyFixed(f: ProductFamily)
    ensures RedactProductFamily(f) == f <==> FamilyRedacted(f)
  {
    if f.products.Some? {
      RedactSummariesFixed(f.products.value);
    }
  }

  function HandleGetProductFamily(api: Api, productFamilyId: string): (r: Traced<Result<ProductFamily>>)
    ensures r.calls == [GetProductFamily(productFamilyId)]
    ensures r.result == Respond(api.getProductFamily(productFamilyId), RedactProductFamily, StringOf)
  {
    Traced(Respond(api.getProductFamily(productFamilyId), RedactProductFamily, StringOf), [GetProductFamily(productFamilyId)])
  }

  /** A page of families, each redacted; pagination and the other top-level fields kept. */
  function RedactFamilyPage(page: ProductFamilyPage): (r: ProductFamilyPage)
    ensures r.rest == page.rest && |r.data| == |page.data|
    ensures forall i :: 0 <= i < |r.data| ==> r.data[i] == RedactProductFamily(page.data[i])
  {
    page.(data := seq(|page.data|, i requires 0 <= i < |page.data| => RedactProductFamily(page.data[i])))
  }

  lemma RedactFamilyPageFixed(page: ProductFamilyPage)
    ensures RedactFamilyPage(page) == page <==> forall i :: 0 <= i < |page.data| ==> FamilyRedacted(page.data[i])
  {
    forall i | 0 <= i < |page.data| ensures RedactFamilyPage(page).data[i] == page.data[i] <==> FamilyRedacted(page.data[i]) {
      RedactProductFamilyFixed(page.data[i]);
    }
    if forall i :: 0 <= i < |page.data| ==> FamilyRedacted(page.data[i]) {
      assert RedactFamilyPage(page).data == page.data;
    }
  }

  /** The validated arguments of a list tool: the company and the other parameters given. */
  datatype ListArgs = ListArgs(companyId: string, params: Query)

  /** The only parameters listProductFamilies forwards as its query. */
  const ForwardedFamilyParams: set<string> := {"limit", "offset", "sortBy", "sortOrder"}

  /** The query listProductFamilies sends: the given paging and sorting parameters, nothing else. */
  function FamilyQuery(args: ListArgs): (q: Query)
    ensures q.Keys == args.params.Keys * ForwardedFamilyParams
    ensures forall k :: k in q ==> q[k] == args.params[k]
  {
    map k | k in args.params && k in ForwardedFamilyParams :: args.params[k]
  }

  function HandleListProductFamilies(api: Api, args: ListArgs): (r: Traced<Result<ProductFamilyPage>>)
    ensures r.calls == [ListProductFamilies(args.companyId, FamilyQuery(args))]
    ensures r.result == Respond(api.listProductFamilies(args.companyId, FamilyQuery(args)), RedactFamilyPage, StringOf)
  {
    var query := FamilyQuery(args);
    Traced(Respond(api.listProductFamilies(args.companyId, query), RedactFamilyPage, StringOf),
           [ListProductFamilies(args.companyId, query)])
  }

  // ---------------------------------------------------------------------
  // listProducts
  // ---------------------------------------------------------------------

  /** A row with its competitors' prices cleared; every other field of the row kept. */
  function RedactProductRow(row: ProductRow): (r: ProductRow)
    ensures r.rest == row.rest && r.competitors == RedactCompetitors(row.competitors)
  {
    row.(competitors := RedactCompetitors(row.competitors))
  }

  function RedactProductPage(page: ProductPage): (r: ProductPage)
    ensures r.rest == page.rest && |r.data| == |page.data|
    ensures forall i :: 0 <= i < |r.data| ==> r.data[i] == RedactProductRow(page.data[i])
  {
    page.(data := seq(|page.data|, i requires 0 <= i < |page.data| => RedactProductRow(page.data[i])))
  }

  lemma RedactProductPageFixed(page: ProductPage)
    ensures RedactProductPage(page) == page <==>
              forall i :: 0 <= i < |page.data| ==> CompetitorsRedacted(page.data[i].competitors)
  {
    forall i | 0 <= i < |page.data|
      ensures RedactProductPage(page).data[i] == page.data[i] <==> CompetitorsRedacted(page.data[i].competitors)
    {
      RedactCompetitorsFixed(page.data[i].competitors);
    }
    if forall i :: 0 <= i < |page.data| ==> CompetitorsRedacted(page.data[i].competitors) {
      assert RedactProductPage(page).data == page.data;
    }
  }

  /** listProducts forwards all of its arguments as the query, the company id included. */
  function ProductsQuery(args: ListArgs): (q: Query)
    ensures q.Keys == args.params.Keys + {"companyId"}
    ensures q["companyId"] == QString(args.companyId)
    ensures forall k :: k in args.params && k != "companyId" ==> q[k] == args.params[k]
  {
    args.params["companyId" := QString(args.companyId)]
  }

  function HandleListProducts(api: Api, args: ListArgs): (r: Traced<Result<ProductPage>>)
    ensures r.calls == [GetCompanyProducts(args.companyId, ProductsQuery(args))]
    ensures r.result == Respond(api.getCompanyProducts(args.companyId, ProductsQuery(args)), RedactProductPage, StringOf)
  {
    var query := ProductsQuery(args);
    Traced(Respond(api.getCompanyProducts(args.companyId, query), RedactProductPage, StringOf),
           [GetCompanyProducts(args.companyId, query)])
  }

  /** No price survives in anything a catalog tool returns. */
  lemma CatalogResultsRedacted(api: Api, id: string, args: ListArgs)
    ensures HandleGetCompany(api, id).result.Success? ==> CompanyRedacted(HandleGetCompany(api, id).result.value)
    ensures HandleGetProduct(api, id).result.Success? ==> ProductRedacted(HandleGetProduct(api, id).result.value)
    ensures HandleGetProductFamily(api, id).result.Success? ==>
              FamilyRedacted(HandleGetProductFamily(api, id).result.value)
    ensures var r := HandleListProductFamilies(api, args).result;
            r.Success? ==> forall i :: 0 <= i < |r.value.data| ==> FamilyRedacted(r.value.data[i])
    ensures var r := HandleListProducts(api, args).result;
            r.Success? ==> forall i :: 0 <= i < |r.value.data| ==> CompetitorsRedacted(r.value.data[i].competitors)
  {
  }
}
