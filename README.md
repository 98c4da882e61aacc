# vendr-mcp tool core in Dafny

This project models the core of the vendr-mcp server. The server exposes
Vendr's public pricing and catalog API as MCP tools: company, product and
product family lookups, scope creation and retrieval, basic and advanced
price estimates with a company-level fallback, and the composite "task"
tools (custom estimate, company and product search, negotiation insights).

The model works as follows:

- **Backend.** The backend is a record of total functions (`PublicApi.Api`).
  Each one returns data, an error body with a detail string, or a raised
  exception.
- **Handlers.** Each tool handler is a pure function from that record and
  the tool's arguments to a `Traced` value. That value holds:
  - the `Result` the handler passes to `structureContent`: a success value,
    or a failure message;
  - the list of backend calls made, in order.
- **Envelope.** The envelope built from that `Result` is modelled once, by
  `Common.StructureContent`. It is not repeated per tool.
- **JSON utilities.** These are modelled on their own:
  - the Unicode sanitizer (`sanitizeUnicodeString`);
  - the recursive object sanitizer (`sanitizeObjectStrings`), as a method
    with loops, proved equal to a recursive specification function;
  - the bounded serializer (`safeJsonStringify`) and its presets.
- **Numbers.** `Math.round` is modelled as rounding half up (`floor(x + 0.5)`)
  on `real`.

Behaviour of the code a reader may not expect:

- Rounding is half up, as `Math.round` does, not half away from zero.
  For example, -2.5 rounds to -2.
- Object sanitization follows JavaScript's `__proto__` setter. While the
  fresh object still reaches the setter inherited from `Object.prototype`,
  an entry whose sanitized key is `__proto__` runs it and does not become
  an entry of the result (`Json.SanitizeProtoExample`). Writing null, or an
  object that has itself lost the setter, cuts the setter off; later
  `__proto__` entries then become ordinary entries. Sanitizing is therefore
  not idempotent: `{"__proto__": null, "__proto__\u0085": 1}` gives
  `{"__proto__": 1}`, and a second pass gives `{}`
  (`Json.SanitizeNullProtoExample`).
- The envelope builder does not sanitize the success value before
  serializing it. `structureContent` calls the response serializer
  directly.
- A price guarded by truthiness (`x ? Math.round(x) : undefined`) becomes
  absent when it is 0, but a price that rounds to 0 is kept as 0.
  Normalising a scope is therefore not idempotent: 0.3 becomes 0, and a
  second pass makes that 0 absent.
  See `Numeric.RoundIfTruthyNotIdempotent` and
  `ScopeTools.NormalizeScopeZeroExample`.
- The search task returns the matched company and its products exactly as
  the backend sent them, default prices included. The single-entity and
  list tools redact those prices.

## Model

| member | source | states |
|---|---|---|
| Json.SanitizeIsPerUnit | src/utils/json.ts:11-26 | the four chained replacements act on each UTF-16 code unit on its own: U+2028 becomes a newline, U+2029 two newlines, units in 0x00–0x7F and 0xA0–0xFF are kept, all others are deleted, in order |
| Json.SanitizeAppend | src/utils/json.ts:11-26 | sanitizing a concatenation is the concatenation of the sanitized parts |
| Json.SanitizedIsKept | src/utils/json.ts:16-25 | no sanitized string holds a C1 control unit (0x80–0x9F) or a unit above 0xFF |
| Json.SanitizeFixesKept | src/utils/json.ts:16-25 | a string made only of kept units is left unchanged |
| Json.SanitizeIdempotent | src/utils/json.ts:11-26 | sanitizing twice is sanitizing once |
| Json.SanitizeObjectStrings | src/utils/json.ts:32-50 | the loop-based traversal over arrays and object entries yields exactly the recursive sanitized value, and reports whether the result, as a prototype, still leads to the `__proto__` setter (`KeepsSetter`: no for null, yes for arrays and primitives, and for an object yes exactly when its own loop kept the setter) |
| Json.SanitizeEntries | src/utils/json.ts:41-46 | the object loop builds exactly the own properties of the specified writes, and tracks whether the fresh object still reaches the setter |
| Json.SanitizeValueShape | src/utils/json.ts:32-50 | strings are sanitized; numbers, booleans and null pass through; arrays keep their length, each element sanitized; objects come out with distinct keys and no more entries than they had, and with no `__proto__` entry when the object's loop kept the setter |
| Json.SanitizeObjectLookup | src/utils/json.ts:41-46 | in a sanitized object, each sanitized key other than `__proto__` holds the sanitized value of the last entry whose key sanitizes to it; `__proto__` holds the value of the last such entry written after the setter was cut off, and is absent when there is none; no other key is present |
| Json.SanitizeProtoExample | src/utils/json.ts:42-45 | `{"__proto__": 1}` sanitizes to an object without entries, since the assignment runs the prototype setter |
| Json.SanitizeNullProtoExample | src/utils/json.ts:17-45 | `{"__proto__": null, "__proto__\u0085": 1}` sanitizes to `{"__proto__": 1}`: the null prototype removes the setter, and U+0085 is deleted so the second key is `__proto__` again; sanitizing that result gives `{}` |
| Json.SetterAfterSnoc | src/utils/json.ts:44 | after one more write the setter is reachable exactly when it was before and the write was not a `__proto__` write of a value that cuts it off |
| Json.ReachedIff | src/utils/json.ts:41-46 | the writes made while the setter is reachable are exactly a prefix of the loop, of length `Reached` |
| Json.OwnPairsSplit | src/utils/json.ts:41-46 | the own properties are the non-`__proto__` writes of that prefix followed by every write after it |
| Json.OwnPairsElements | src/utils/json.ts:44 | an assignment creates an own property exactly when its key is not `__proto__` or the setter was already cut off |
| Json.OwnPairsLastValue | src/utils/json.ts:44 | every key other than `__proto__` keeps the last value written to it; `__proto__` keeps the last value written after the setter was cut off |
| Json.OwnPairsNoProto | src/utils/json.ts:44 | while the setter stays reachable, no own property is named `__proto__` |
| Json.AssignOwnSnoc | src/utils/json.ts:42-45 | one more loop step is an own-property assignment, or nothing for a `__proto__` write that reaches the setter |
| Json.SanitizeValueKept | src/utils/json.ts:32-50 | every string and key in a sanitized value holds only kept units |
| Json.SanitizeValueIdempotent | src/utils/json.ts:32-50 | sanitizing a value twice is sanitizing it once, whenever no object in the first result has an own `__proto__` entry |
| Json.PutLookup | src/utils/json.ts:44 | after an own-property assignment `obj[k] = v`, looking up k yields v and every other key is unaffected |
| Json.PutKeys | src/utils/json.ts:44 | assigning a new key appends it to the key order; assigning an existing key keeps the order |
| Json.PutElements | src/utils/json.ts:44 | an assignment adds at most the one key and changes no other entry |
| Json.PutDistinct | src/utils/json.ts:44 | an assignment keeps keys distinct |
| Json.PutFresh | src/utils/json.ts:44 | assigning a key not present grows the object by exactly one entry |
| Json.AssignAllDistinct | src/utils/json.ts:41-46 | assigning a list of entries in turn yields distinct keys |
| Json.AssignAllLookup | src/utils/json.ts:41-46 | after the loop, each key holds the value of its last occurrence in the entry list |
| Json.AssignAllKeys | src/utils/json.ts:41-46 | the resulting keys are those of the entries, in first-occurrence order |
| Json.AssignAllElements | src/utils/json.ts:41-46 | every resulting entry comes from the input list |
| Json.AssignAllOfDistinct | src/utils/json.ts:41-46 | entries with distinct keys are reproduced unchanged |
| Json.Substring | src/utils/json.ts:86 | `substring(0, n)` clamps n to the string's bounds and yields a prefix of that length |
| Json.SafeJsonStringify | src/utils/json.ts:65-91 | a failure from `JSON.stringify` gives `[Serialization Error: <message>]`; output within the limit is returned as is; longer output keeps a prefix of `maxLength` minus the marker's length (empty when the marker is longer than the limit) and ends with the marker, so it is exactly at the limit whenever the limit can hold the marker |
| Json.PresetOptions | src/utils/json.ts:103-115 | the presets use the default marker and have limits 2000 (tracing, compact), 5000 (error, pretty), 3000 (logging, compact) and 15000 (response, compact) |
| Json.ResponseSerializerBound | src/utils/json.ts:114 | a successful response serialization is at most 15000 units: unchanged when it fits, exactly 15000 when truncated |
| Numeric.Round | src/tools/getBasicPriceEstimate.ts:41-43 | `Math.round` yields the integer n with n - 1/2 <= x < n + 1/2 |
| Numeric.RoundIntegral | src/tools/getBasicPriceEstimate.ts:41-43 | a value that is already an integer rounds to itself |
| Numeric.RoundMonotone | src/tools/getBasicPriceEstimate.ts:41-43 | rounding preserves order |
| Numeric.RoundHalves | src/tools/getBasicPriceEstimate.ts:41-43 | halves round up: 2.5 to 3, -2.5 to -2 and -0.5 to 0; 0.49 rounds to 0 |
| Numeric.RoundIfTruthy | src/tools/createScope.ts:44-48 | `x ? Math.round(x) : undefined` is absent exactly for an absent or zero input; otherwise it is an integer within one half of the input |
| Numeric.RoundIfTruthyFixesNonZeroIntegers | src/tools/createScope.ts:69-81 | a price that is a non-zero integer is left unchanged |
| Numeric.RoundIfTruthyTwice | src/tools/createScope.ts:69-81 | applying the guard twice is applying it once, unless the first application rounds to 0, which the second makes absent |
| Numeric.RoundIfTruthyNotIdempotent | src/tools/createScope.ts:69-81 | 0.3 becomes 0 after one application and absent after two |
| Numeric.RoundIfTruthyFixed | src/tools/createScope.ts:69-81 | the values the guard leaves unchanged are exactly the absent ones and the non-zero integers |
| Numeric.NormalizePrices | src/tools/createScope.ts:67-81 | a term's list price, discount and final price each pass through the guarded rounding |
| Numeric.NormalizePricesFixed | src/tools/createScope.ts:67-81 | normalising leaves a term unchanged exactly when its three prices are all absent or non-zero integers |
| Numeric.SlotsDetermine | src/tools/getAdvancedPriceEstimate.ts:40-58 | two estimates with the same seventeen slots are equal |
| Numeric.RoundPercentiles | src/tools/tasks/getCustomPriceEstimate.ts:36-56 | each of the seventeen slots is rounded on its own |
| Numeric.RoundPercentilesIntegral | src/tools/tasks/getCustomPriceEstimate.ts:36-56 | every rounded slot is an integer, and an estimate with integer slots is left unchanged |
| Numeric.RoundBasic | src/tools/getBasicPriceEstimate.ts:40-44 | the three basic percentiles are each rounded |
| Numeric.SynthesizeBasic | src/tools/getBasicPriceEstimate.ts:60-64 | a range gives the rounded min, midpoint and max as percentiles 25, 50 and 75 |
| Numeric.SynthesizeBasicOrdered | src/tools/getBasicPriceEstimate.ts:60-64 | for min <= max the synthesized percentiles are ordered |
| Numeric.SynthesizeBasicExample | src/tools/getBasicPriceEstimate.ts:60-64 | the range 100..300 gives 100, 200 and 300 |
| Numeric.SynthesizeAdvanced | src/tools/getAdvancedPriceEstimate.ts:100-118 | the range fills slots 25, 50 and 75 as the basic synthesis does; the other fourteen slots are 0 |
| Wrappers.CoalesceToUndefined | src/tools/createScope.ts:39 | `x ?? undefined`: null becomes undefined; anything else is kept |
| PublicApi.MessageOfIsSuffixOfStringOf | src/tools/tasks/getCustomPriceEstimate.ts:167-175 | an error object's message is a suffix of its `String(e)` text |
| PublicApi.Respond | src/tools/getCompany.ts:37-61 | a single-call handler succeeds exactly when the call returns data, with the data reshaped; an error body fails with its detail and an exception with its description |
| Common.StructureContent | src/tools/common.ts:56-74 | `isError` is set exactly for a failure, on the envelope and the structured content alike; a failure carries its message and no data; a success carries its value and no message; the single text item is the response serializer's output for the structured content, at most 15000 units when serialization succeeds |
| Common.StructureContentMatchesSchema | src/tools/common.ts:17-23 | when a success value has the declared shape, the envelope's structured content matches the wrapped schema |
| Common.WithInstrumentation | src/tools/common.ts:92-99 | the instrumented handler returns what the handler returns, for every argument |
| CompanyLevelEstimates.FirstProductId | src/companyLevelEstimates.ts:24-29 | the first product term's id, present exactly when there is a first term and its id is not empty |
| CompanyLevelEstimates.GetCompanyPriceRange | src/companyLevelEstimates.ts:5-70 | one to three calls: the scope fetch first, then a product fetch, then a company fetch; a found range takes all three |
| CompanyLevelEstimates.ScopeFetchFails | src/companyLevelEstimates.ts:9-22 | a scope fetch without data fails with the backend detail after one call |
| CompanyLevelEstimates.NoProductOnScope | src/companyLevelEstimates.ts:24-29 | a scope without a first product id fails with the fixed "no product terms" message after one call |
| CompanyLevelEstimates.ProductFetch | src/companyLevelEstimates.ts:31-44 | the product fetch uses the first product id, and a fetch without data fails with its detail |
| CompanyLevelEstimates.CompanyFetch | src/companyLevelEstimates.ts:46-69 | the company fetched is the product's; a company without a default range fails with the fixed message; otherwise the range is returned as is |
| CompanyLevelEstimates.PriceRangeFoundIff | src/companyLevelEstimates.ts:5-70 | a range is returned exactly when all three fetches return data, the scope has a first product id and the company has a default range, and it is that company's range |
| BasicPriceEstimate.RoundedBasic | src/tools/getBasicPriceEstimate.ts:37-45 | a direct estimate keeps every field of the payload and rounds its three percentiles |
| BasicPriceEstimate.SynthesizedBasic | src/tools/getBasicPriceEstimate.ts:54-65 | a fallback estimate has the range's currency, the given timestamp and the synthesized percentiles |
| BasicPriceEstimate.FromFallback | src/tools/getBasicPriceEstimate.ts:54-77 | the fallback succeeds exactly when a range is found; a derivation failure passes its message through; an exception becomes `String(e)` |
| BasicPriceEstimate.HandleGetBasicPriceEstimate | src/tools/getBasicPriceEstimate.ts:27-78 | data gives the rounded estimate after one call; an exception gives `String(e)`; an error body runs the company fallback, with its calls appended |
| BasicPriceEstimate.BasicResultIntegral | src/tools/getBasicPriceEstimate.ts:37-65 | every successful result has integer percentiles |
| BasicPriceEstimate.FallbackOrdered | src/tools/getBasicPriceEstimate.ts:54-65 | a fallback estimate from an ordered range has ordered percentiles |
| BasicPriceEstimate.FallbackExample | src/tools/getBasicPriceEstimate.ts:54-65 | after an error body, a found range 100..300 gives the estimate 100, 200 and 300 in the range's currency, stamped with the given time |
| AdvancedPriceEstimate.NullEstimateReadText | src/tools/getAdvancedPriceEstimate.ts:41 | the TypeError thrown by reading a slot of a null aggregate estimate is reported as "TypeError: Cannot read properties of null (reading 'percentile10')" |
| AdvancedPriceEstimate.RoundProductEstimate | src/tools/getAdvancedPriceEstimate.ts:59-83 | a product estimate keeps its status and other fields; its estimate is present, rounded, exactly when the status is "success" and an estimate exists |
| AdvancedPriceEstimate.RoundProductEstimates | src/tools/getAdvancedPriceEstimate.ts:59-83 | the breakdown keeps its length and order, each entry handled on its own |
| AdvancedPriceEstimate.RoundProductEstimateIdempotent | src/tools/getAdvancedPriceEstimate.ts:59-83 | handling a product estimate twice is handling it once |
| AdvancedPriceEstimate.ShapeAdvanced | src/tools/getAdvancedPriceEstimate.ts:37-86 | a direct estimate succeeds exactly when the aggregate estimate is not null, with all slots rounded and the breakdown handled; a null aggregate fails with the TypeError's text |
| AdvancedPriceEstimate.SynthesizedAdvanced | src/tools/getAdvancedPriceEstimate.ts:93-119 | a fallback estimate has the range's currency, the given timestamp, the synthesized slots and an empty breakdown |
| AdvancedPriceEstimate.FromFallback | src/tools/getAdvancedPriceEstimate.ts:88-131 | the fallback succeeds exactly when a range is found; a derivation failure passes its message through; an exception becomes `String(e)` |
| AdvancedPriceEstimate.HandleGetAdvancedPriceEstimate | src/tools/getAdvancedPriceEstimate.ts:27-132 | data is shaped after one call; an exception gives `String(e)`; an error body runs the company fallback, with its calls appended |
| AdvancedPriceEstimate.AdvancedResultIntegral | src/tools/getAdvancedPriceEstimate.ts:37-121 | every estimate in a successful result, aggregate or per product, has integer slots |
| AdvancedPriceEstimate.FallbackOrdered | src/tools/getAdvancedPriceEstimate.ts:100-118 | a fallback estimate from an ordered range has ordered percentiles 25, 50 and 75 |
| CustomPriceEstimate.ShapeCustom | src/tools/tasks/getCustomPriceEstimate.ts:137-156 | the aggregate estimate is rounded, or null when the payload's is null; the breakdown is handled as in the advanced tool; the company range is always null |
| CustomPriceEstimate.HandleGetCustomPriceEstimate | src/tools/tasks/getCustomPriceEstimate.ts:95-175 | the scope is created from the arguments first; the estimate is asked for only after a creation with data, and for the created scope's id |
| CustomPriceEstimate.CreateFails | src/tools/tasks/getCustomPriceEstimate.ts:157-175 | a failed creation ends the task with the backend detail, or with the exception's message |
| CustomPriceEstimate.EstimateOfCreatedScope | src/tools/tasks/getCustomPriceEstimate.ts:127-165 | after a creation, the result is the estimate call's outcome reshaped, and an error body is reported without any fallback |
| CustomPriceEstimate.AgreesWithAdvanced | src/tools/tasks/getCustomPriceEstimate.ts:137-156 | where the advanced tool fails on a null aggregate, the custom task reports null; otherwise both report the same rounded estimates |
| CustomPriceEstimate.CustomResultIntegral | src/tools/tasks/getCustomPriceEstimate.ts:137-156 | every estimate the task reports has integer slots |
| ScopeTools.DateToJson | src/tools/createScope.ts:42-43 | a valid date crosses the API as its `toJSON` text; an absent or invalid date becomes absent |
| ScopeTools.CreateScopeBodyOf | src/tools/createScope.ts:37-61 | the request body keeps term order and count; null optionals become undefined; dates become their text; prices pass through the guarded rounding |
| ScopeTools.CreateScopeBodyPricesIntegral | src/tools/createScope.ts:44-59 | every price sent to the backend is absent or an integer, and no price of either kind of term given as 0 is sent |
| ScopeTools.NormalizeScope | src/tools/createScope.ts:64-83 | a returned scope keeps its id, its other fields and its terms' order and count; each term changes only in its prices, which pass through the guarded rounding |
| ScopeTools.NormalizeScopeFixed | src/tools/getScope.ts:39-50 | normalising leaves a scope unchanged exactly when all its term prices are absent or non-zero integers |
| ScopeTools.NormalizeScopeTwice | src/tools/getScope.ts:39-50 | a second pass changes a normalised scope exactly when some term price of it is exactly 0 |
| ScopeTools.NormalizeScopeZeroExample | src/tools/createScope.ts:69-81 | a scope holding a list price of 0.3 changes again when normalised a second time |
| ScopeTools.HandleCreateScope | src/tools/createScope.ts:30-94 | one create call with the built body; its data normalised, its detail or `String(e)` on failure |
| ScopeTools.HandleGetScope | src/tools/getScope.ts:26-62 | one fetch by id; its data normalised, its detail or `String(e)` on failure |
| ScopeTools.HandledScopesIntegral | src/tools/getScope.ts:39-50 | every scope either tool returns has only absent or integer prices |
| SearchCompaniesAndProducts.CompanySearchQuery | src/tools/tasks/searchCompaniesAndProducts.ts:60-70 | the search asks for the first company by name, ascending |
| SearchCompaniesAndProducts.CompanyProductsQuery | src/tools/tasks/searchCompaniesAndProducts.ts:100-117 | the products are the first `productLimit` in catalog sort order, ascending |
| SearchCompaniesAndProducts.HandleSearchCompaniesAndProducts | src/tools/tasks/searchCompaniesAndProducts.ts:54-138 | one to three calls: the company search with the task's query first, then a company fetch, then the products of that same company with the products query; a success takes all three; once the products call is made, its data gives success with the fetched company and that page, its error body fails with the detail and its exception with the message |
| SearchCompaniesAndProducts.SearchStops | src/tools/tasks/searchCompaniesAndProducts.ts:72-80 | a search without data, or with a total of 0, ends after one call with the detail, the exception's message or the "no companies" message |
| SearchCompaniesAndProducts.MatchedCompanyUsed | src/tools/tasks/searchCompaniesAndProducts.ts:83-97 | both later calls name the first company of the page; a company fetch without data stops before the products, failing with the detail or with the exception's message |
| SearchCompaniesAndProducts.ProductsStep | src/tools/tasks/searchCompaniesAndProducts.ts:100-138 | after the matched company's details arrive, the task makes exactly the three calls; products data gives success with the company and that page, an error body fails with its detail, an exception with its message |
| SearchCompaniesAndProducts.SuccessUnredacted | src/tools/tasks/searchCompaniesAndProducts.ts:119-125 | a success carries the company and the products page exactly as the backend returned them |
| SearchCompaniesAndProducts.EmptyPageWithTotal | src/tools/tasks/searchCompaniesAndProducts.ts:83 | a page with a non-zero total but no companies fails with the message of the TypeError from reading `id` of undefined |
| NegotiationInsights.SkipTag | src/tools/tasks/getNegotiationInsights.ts:49 | the text after a tag's opening '<' is a suffix of the answer |
| NegotiationInsights.StripTags | src/tools/tasks/getNegotiationInsights.ts:49 | stripping never lengthens an answer |
| NegotiationInsights.StripTagsNoOpen | src/tools/tasks/getNegotiationInsights.ts:49 | a stripped answer holds no '<' |
| NegotiationInsights.StripTagsPlainPrefix | src/tools/tasks/getNegotiationInsights.ts:49 | text before the first '<' is kept as it is |
| NegotiationInsights.StripTagsUnchanged | src/tools/tasks/getNegotiationInsights.ts:49 | an answer without '<' is unchanged, whatever '>' it holds |
| NegotiationInsights.StripClosedTag | src/tools/tasks/getNegotiationInsights.ts:49 | a closed tag is removed with its brackets, and the scan resumes after it |
| NegotiationInsights.StripUnclosedTag | src/tools/tasks/getNegotiationInsights.ts:49 | an unclosed tag removes the rest of the answer |
| NegotiationInsights.StripTagsIdempotent | src/tools/tasks/getNegotiationInsights.ts:49 | stripping twice is stripping once |
| NegotiationInsights.StripClosedExample | src/tools/tasks/getNegotiationInsights.ts:49 | "a<b>c" becomes "ac" |
| NegotiationInsights.StripUnclosedExample | src/tools/tasks/getNegotiationInsights.ts:49 | "a<b" becomes "a" |
| NegotiationInsights.StripFaqs | src/tools/tasks/getNegotiationInsights.ts:45-51 | the FAQ count, order and other fields are kept; each answer is stripped |
| NegotiationInsights.HandleGetNegotiationInsights | src/tools/tasks/getNegotiationInsights.ts:34-64 | one FAQ fetch by company id; its data stripped; its detail or the exception's message on failure |
| NegotiationInsights.InsightsHaveNoTags | src/tools/tasks/getNegotiationInsights.ts:44-55 | no answer the task returns holds a '<' |
| CatalogTools.RedactCompetitors | src/tools/getProduct.ts:41-44 | competitors keep their count, order and other fields, and lose their default price |
| CatalogTools.RedactSummaries | src/tools/getCompany.ts:46-49 | product summaries keep their count, order and other fields, and lose their default price |
| CatalogTools.RedactFamilySummaries | src/tools/getCompany.ts:42-45 | family summaries keep their count, order and other fields, and lose their default price range |
| CatalogTools.RedactCompetitorsFixed | src/tools/getProduct.ts:41-44 | redaction leaves a list unchanged exactly when none of its entries has a price |
| CatalogTools.RedactSummariesFixed | src/tools/getCompany.ts:46-49 | redaction leaves a list unchanged exactly when none of its entries has a price |
| CatalogTools.RedactFamilySummariesFixed | src/tools/getCompany.ts:42-45 | redaction leaves a list unchanged exactly when none of its entries has a price |
| CatalogTools.RedactCompetitorsForgetsOnlyPrices | src/tools/getProduct.ts:41-44 | two lists redact to the same list exactly when they differ at most in prices |
| CatalogTools.RedactSummariesForgetsOnlyPrices | src/tools/getCompany.ts:46-49 | two lists redact to the same list exactly when they differ at most in prices |
| CatalogTools.RedactFamilySummariesForgetsOnlyPrices | src/tools/getCompany.ts:42-45 | two lists redact to the same list exactly when they differ at most in prices |
| CatalogTools.RedactCompany | src/tools/getCompany.ts:39-50 | the company's own range and those of its families and products are removed; every other field is kept |
| CatalogTools.RedactCompanyFixed | src/tools/getCompany.ts:39-50 | redaction leaves a company unchanged exactly when neither it nor any of its family or product summaries has a price |
| CatalogTools.RedactCompanyForgetsOnlyPrices | src/tools/getCompany.ts:39-50 | two companies redact alike exactly when they differ at most in prices |
| CatalogTools.HandleGetCompany | src/tools/getCompany.ts:28-61 | one fetch by id; its data redacted; its detail or `String(e)` on failure |
| CatalogTools.RedactProduct | src/tools/getProduct.ts:39-45 | the product's default price and its competitors' prices are removed; its company and every other field are kept |
| CatalogTools.RedactProductFixed | src/tools/getProduct.ts:39-45 | redaction leaves a product unchanged exactly when neither it nor any competitor has a price |
| CatalogTools.HandleGetProduct | src/tools/getProduct.ts:27-56 | one fetch by id; its data redacted; its detail or `String(e)` on failure |
| CatalogTools.RedactProductFamily | src/tools/getProductFamily.ts:39-48 | the family's range and its products' prices are removed; a missing product list stays missing; every other field is kept |
| CatalogTools.RedactProductFamilyFixed | src/tools/getProductFamily.ts:39-48 | redaction leaves a family unchanged exactly when neither it nor any listed product has a price |
| CatalogTools.HandleGetProductFamily | src/tools/getProductFamily.ts:28-59 | one fetch by id; its data redacted; its detail or `String(e)` on failure |
| CatalogTools.RedactFamilyPage | src/tools/listProductFamilies.ts:46-63 | the page keeps its other fields and its entry count and order; each family is redacted as a single family is |
| CatalogTools.RedactFamilyPageFixed | src/tools/listProductFamilies.ts:46-63 | redaction leaves a page unchanged exactly when every family on it is already redacted |
| CatalogTools.FamilyQuery | src/tools/listProductFamilies.ts:35-43 | only limit, offset, sortBy and sortOrder are forwarded, each exactly when it was given |
| CatalogTools.HandleListProductFamilies | src/tools/listProductFamilies.ts:28-70 | one list call for the company with the forwarded parameters; its data redacted; its detail or `String(e)` on failure |
| CatalogTools.RedactProductRow | src/tools/listProducts.ts:42-47 | a product row's competitors lose their prices; every other field of the row is kept |
| CatalogTools.RedactProductPage | src/tools/listProducts.ts:39-53 | the page keeps its other fields and its row count and order, each row redacted |
| CatalogTools.RedactProductPageFixed | src/tools/listProducts.ts:39-53 | redaction leaves a page unchanged exactly when no competitor in it has a price |
| CatalogTools.ProductsQuery | src/tools/listProducts.ts:33-36 | every argument is forwarded as a query parameter, the company id included |
| CatalogTools.HandleListProducts | src/tools/listProducts.ts:26-60 | one list call with the forwarded query; its data redacted; its detail or `String(e)` on failure |
| CatalogTools.CatalogResultsRedacted | src/tools/getCompany.ts:39-50 | nothing the five catalog tools return on success holds a default price range |

## Left out

- HTTP transport, headers, authentication and the MCP server wiring (`src/index.ts`, `src/server.ts`, `src/context.ts`, `src/tools/index.ts`): these are I/O. The backend is the `Api` parameter.
- `listCategories`, `listCompanies` and `createScopeWithDocument`: these tools are not part of this model.
- Zod input validation: arguments are taken as already validated. The search task's `productLimit` is coerced to a number and defaults to 10 when absent. The model takes the resulting integer, which `HandleSearchCompaniesAndProducts` requires to lie in 1..100 (`ValidProductLimit`).
- `captureException`: it only writes the error to `console.error`, which is console logging. `Common.WithInstrumentation` returns the handler unchanged, as the source does, and ignores its attribute callback.
- `new Date().toJSON()`: the clock is the `now` parameter. `Date.toJSON` of a scope date is modelled by the opaque `Date` datatype carrying its text.
- IEEE-754 arithmetic: prices and percentiles are `real`, so NaN, infinities, -0 and binary rounding of the midpoint are not modelled.
- `JSON.stringify` itself: it is the `stringify` parameter of the serializer, which either yields a text or throws with a message.
- Property order of JavaScript objects with integer-like keys: objects are entry lists in insertion order.
- Json.OwnPairs: the prototype a `__proto__` assignment installs is not modelled as an object, only through `KeepsSetter`, whether it still leads to the `Object.prototype` setter. Own properties, the setter's reachability and serialized output are modelled; inherited reads of the sanitized object, which would see the installed prototype's properties, are not.
- Key order of the tools' output objects: outputs are records, not ordered entries.
- Exceptions raised while shaping a malformed backend payload: only the two TypeErrors the source can evidently reach are modelled. These are reading a slot of a null aggregate estimate, and reading `id` of a missing first company.
- Json.Units: a Dafny `char` becomes one code unit, so only characters below U+10000 map exactly; it is used only for ASCII literals.
- Json.CreateJsonSerializer has no contract of its own; what it does is stated by `Json.SafeJsonStringify` and `Json.PresetOptions`.
- Numeric.Round is exact on reals; it does not model the floating-point error of `x + 0.5` near half-integers.
