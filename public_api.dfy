/**
 * The boundary to the remote pricing API: the payloads the tools read, the
 * outcome of one awaited call, the exceptions a handler can catch, and a log
 * of the calls a handler makes.
 *
 * Each payload names the fields the tools inspect or rewrite; every other
 * field of the same JSON object is carried, untouched, in `rest`.
 */
module PublicApi {
  import opened Wrappers
  import opened Numeric
  import Json

  /** The fields of a JSON object that no tool inspects. */
  type Attrs = map<string, Json.JsonValue>

  // ---------------------------------------------------------------------
  // Exceptions and call outcomes
  // ---------------------------------------------------------------------

  /** A thrown JavaScript value: an `Error` object or anything else. */
  datatype Thrown = ErrorObject(name: string, message: string) | NonError(text: string)

  /** `String(e)`: for an `Error`, `Error.prototype.toString` joins name and message with ": ". */
  function StringOf(e: Thrown): string
  {
    match e
    case ErrorObject(name, message) =>
      if name == "" then message else if message == "" then name else name + ": " + message
    case NonError(text) => text
  }

  /** `e instanceof Error ? e.message : String(e)`. */
  function MessageOf(e: Thrown): string
  {
    match e
    case ErrorObject(_, message) => message
    case NonError(text) => text
  }

  /** The two descriptions agree except on an `Error` with a name, which `String(e)` prefixes with it. */
  lemma MessageOfIsSuffixOfStringOf(e: Thrown)
    ensures |MessageOf(e)| <= |StringOf(e)|
    ensures StringOf(e)[|StringOf(e)| - |MessageOf(e)|..] == MessageOf(e)
    ensures e.NonError? ==> StringOf(e) == MessageOf(e)
  {
    if e.ErrorObject? && e.name != "" && e.message != "" {
      var s := e.name + ": " + e.message;
      assert s[|s| - |e.message|..] == e.message;
    }
  }

  /**
   * One awaited call of the generated client: a payload (`data`), an error
   * body carrying `error.detail`, or an exception that escapes the call.
   */
  datatype ApiResult<+T> = Data(data: T) | Err(detail: string) | Raised(exception: Thrown)

  /** How a helper that does not catch returns: a `Result` value, or an exception for its caller's `catch`. */
  datatype Completion<+T> = Returned(result: Result<T>) | Threw(exception: Thrown)

  // ---------------------------------------------------------------------
  // Catalog payloads
  // ---------------------------------------------------------------------

  datatype PriceRange = PriceRange(min: real, max: real, currency: string)

  datatype FamilySummary = FamilySummary(defaultPriceRange: Option<PriceRange>, rest: Attrs)
  datatype ProductSummary = ProductSummary(defaultPrice: Option<Json.JsonValue>, rest: Attrs)

  datatype Company = Company(
    id: string,
    defaultPriceRange: Option<PriceRange>,
    productFamilies: seq<FamilySummary>,
    products: seq<ProductSummary>,
    rest: Attrs)

  datatype CompanyRef = CompanyRef(id: string, rest: Attrs)
  datatype Competitor = Competitor(defaultPrice: Option<Json.JsonValue>, rest: Attrs)

  datatype Product = Product(
    company: CompanyRef,
    defaultPrice: Option<Json.JsonValue>,
    competitors: seq<Competitor>,
    rest: Attrs)

  datatype ProductFamily = ProductFamily(
    defaultPriceRange: Option<PriceRange>,
    products: Option<seq<ProductSummary>>,
    rest: Attrs)

  /** A page of product families; `rest` holds the pagination. */
  datatype ProductFamilyPage = ProductFamilyPage(data: seq<ProductFamily>, rest: Attrs)

  datatype ProductRow = ProductRow(competitors: seq<Competitor>, rest: Attrs)

  /** A page of company products; `rest` holds the pagination. */
  datatype ProductPage = ProductPage(data: seq<ProductRow>, rest: Attrs)

  datatype CompanySummary = CompanySummary(id: string, rest: Attrs)
  datatype Pagination = Pagination(total: int, rest: Attrs)
  datatype CompanyPage = CompanyPage(data: seq<CompanySummary>, pagination: Pagination, rest: Attrs)

  datatype Faq = Faq(answer: string, rest: Attrs)
  datatype FaqPage = FaqPage(faqs: seq<Faq>, rest: Attrs)

  // ---------------------------------------------------------------------
  // Scopes
  // ---------------------------------------------------------------------

  /** A `Date` argument; `toJSON` gives its ISO text, or `null` for an invalid date. */
  datatype Date = ValidDate(iso: string) | InvalidDate

  datatype ProductTermInput = ProductTermInput(
    productId: string, startDate: Option<Date>, endDate: Option<Date>, prices: Prices, rest: Attrs)

  datatype ScopeTermInput = ScopeTermInput(
    autoRenew: Nullish<bool>, startDate: Option<Date>, endDate: Option<Date>, prices: Prices, rest: Attrs)

  /** The validated arguments of a create-scope request. */
  datatype CreateScopeArgs = CreateScopeArgs(
    previousScopeId: Nullish<string>,
    productTerms: seq<ProductTermInput>,
    scopeTerms: seq<ScopeTermInput>,
    rest: Attrs)

  datatype ProductTermBody = ProductTermBody(
    productId: string, startDate: Option<string>, endDate: Option<string>, prices: Prices, rest: Attrs)

  datatype ScopeTermBody = ScopeTermBody(
    autoRenew: Option<bool>, startDate: Option<string>, endDate: Option<string>, prices: Prices, rest: Attrs)

  /** The body sent to the create-scope endpoint. */
  datatype CreateScopeBody = CreateScopeBody(
    previousScopeId: Option<string>,
    productTerms: seq<ProductTermBody>,
    scopeTerms: seq<ScopeTermBody>,
    rest: Attrs)

  datatype ProductTerm = ProductTerm(productId: string, prices: Prices, rest: Attrs)
  datatype ScopeTerm = ScopeTerm(prices: Prices, rest: Attrs)

  /** A scope as the API returns it. */
  datatype Scope = Scope(id: string, productTerms: seq<ProductTerm>, scopeTerms: seq<ScopeTerm>, rest: Attrs)

  // ---------------------------------------------------------------------
  // Estimates
  // ---------------------------------------------------------------------

  datatype BasicEstimate = BasicEstimate(currency: string, timestamp: string, estimate: BasicPercentiles, rest: Attrs)

  datatype ProductEstimate = ProductEstimate(status: string, estimate: Option<Percentiles>, rest: Attrs)

  /** The advanced estimate payload; the aggregate estimate may be `null`. */
  datatype AdvancedEstimate = AdvancedEstimate(
    currency: string,
    timestamp: string,
    estimate: Option<Percentiles>,
    productEstimates: seq<ProductEstimate>,
    rest: Attrs)

  // ---------------------------------------------------------------------
  // Requests and the backend
  // ---------------------------------------------------------------------

  datatype QueryValue = QString(s: string) | QNumber(n: int)

  /** Query parameters; a parameter whose value is `undefined` is not present. */
  type Query = map<string, QueryValue>

  /** One request to the backend, with the path, query or body it carries. */
  datatype Call =
    | GetScopeById(scopeId: string)
    | GetProduct(productId: string)
    | GetCompany(companyId: string)
    | GetProductFamily(productFamilyId: string)
    | ListCompanies(query: Query)
    | GetCompanyProducts(companyId: string, query: Query)
    | ListProductFamilies(companyId: string, query: Query)
    | CreateScope(body: CreateScopeBody)
    | GetBasicPriceEstimate(scopeId: string)
    | GetAdvancedPriceEstimate(scopeId: string)
    | GetFaqs(companyId: string)

  /** The backend: what each operation answers to each request. */
  datatype Api = Api(
    getScopeById: string -> ApiResult<Scope>,
    getProduct: string -> ApiResult<Product>,
    getCompany: string -> ApiResult<Company>,
    getProductFamily: string -> ApiResult<ProductFamily>,
    listCompanies: Query -> ApiResult<CompanyPage>,
    getCompanyProducts: (string, Query) -> ApiResult<ProductPage>,
    listProductFamilies: (string, Query) -> ApiResult<ProductFamilyPage>,
    createScope: CreateScopeBody -> ApiResult<Scope>,
    getBasicPriceEstimate: string -> ApiResult<BasicEstimate>,
    getAdvancedPriceEstimate: string -> ApiResult<AdvancedEstimate>,
    getFaqs: string -> ApiResult<FaqPage>)

  /** A handler's result together with the backend calls it made, in order. */
  datatype Traced<+T> = Traced(result: T, calls: seq<Call>)

  /**
   * The body shared by the single-call tools: on data, shape it into a
   * success; on an error body, fail with its `detail`; when the call throws,
   * the `catch` fails with `describe(e)`.
   */
  function Respond<T, U>(outcome: ApiResult<T>, shape: T -> U, describe: Thrown -> string): (r: Result<U>)
    ensures r.Success? <==> outcome.Data?
    ensures outcome.Data? ==> r.value == shape(outcome.data)
    ensures outcome.Err? ==> r == Failure(outcome.detail)
    ensures outcome.Raised? ==> r == Failure(describe(outcome.exception))
  {
    match outcome
    case Data(d) => Success(shape(d))
    case Err(detail) => Failure(detail)
    case Raised(e) => Failure(describe(e))
  }
}
