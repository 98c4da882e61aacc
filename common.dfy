/**
 * The result envelope every tool returns (src/tools/common.ts) and the
 * instrumentation wrapper.
 */
module Common {
  import opened Wrappers
  import Json

  /** `structuredContent`: `errorMessage` and `data` are `undefined` when absent. */
  datatype StructuredContent<T> = StructuredContent(isError: bool, errorMessage: Option<string>, data: Option<T>)

  /** An item of `content`; `kind` is the item's `type`. */
  datatype TextContent = TextContent(kind: string, text: Json.Utf16)

  datatype ToolResponse<T> = ToolResponse(isError: bool, structuredContent: StructuredContent<T>, content: seq<TextContent>)

  /**
   * `structureContent(result)`. The text is the response serializer applied
   * to the structured content itself; no string in it is sanitized.
   */
  function StructureContent<T>(stringify: (StructuredContent<T>, bool) -> Json.Stringified, result: Result<T>): (r: ToolResponse<T>)
    ensures r.isError <==> result.Failure?
    ensures r.structuredContent.isError == r.isError
    ensures result.Failure? ==> r.structuredContent.errorMessage == Some(result.error) && r.structuredContent.data == None
    ensures result.Success? ==> r.structuredContent.data == Some(result.value) && r.structuredContent.errorMessage == None
    ensures |r.content| == 1 && r.content[0].kind == "text"
    ensures r.content[0].text == Json.Serializer(stringify, Json.Response)(r.structuredContent)
    ensures stringify(r.structuredContent, false).Serialized? ==> |r.content[0].text| <= 15000
  {
    var structured := StructuredContent(
      result.Failure?,
      if result.Failure? then Some(result.error) else None,
      if result.Success? then Some(result.value) else None);
    var text := Json.Serializer(stringify, Json.Response)(structured);
    assert stringify(structured, false).Serialized? ==> |text| <= 15000 by {
      if stringify(structured, false).Serialized? {
        Json.ResponseSerializerBound(stringify, structured);
      }
    }
    ToolResponse(result.Failure?, structured, [TextContent("text", text)])
  }

  /**
   * `structuredSchema(success)`: `isError` a boolean, `errorMessage` a
   * nullish string and `data` nullish or of the success shape. The first two
   * hold by typing; `data` is checked against `success`.
   */
  predicate MatchesStructuredSchema<T>(content: StructuredContent<T>, success: T -> bool)
  {
    content.data.Some? ==> success(content.data.value)
  }

  /** Every envelope whose success value has the declared shape matches the wrapped schema. */
  lemma StructureContentMatchesSchema<T>(
    stringify: (StructuredContent<T>, bool) -> Json.Stringified, result: Result<T>, success: T -> bool)
    requires result.Success? ==> success(result.value)
    ensures MatchesStructuredSchema(StructureContent(stringify, result).structuredContent, success)
  {
  }

  /** A value a tool may report as a span attribute. */
  datatype AttributeValue = AttrString(s: string) | AttrNumber(n: real) | AttrBool(b: bool)

  /** `withInstrumentation`: hands back the handler itself; name and attribute callback are unused. */
  function WithInstrumentation<A, R>(
    toolName: string, handler: A -> R, getAttributes: Option<A -> map<string, AttributeValue>>): (wrapped: A -> R)
    ensures wrapped == handler
  {
    handler
  }
}
