/**
 * The list envelope shared by every paginated response, and the two
 * request parameters that drive pagination. The envelope is generic in its
 * element type: the element decoder is a parameter, so one definition
 * serves every resource kind.
 */
module Pagination {
  import opened Wrappers
  import opened Wire

  /** The element kinds a list response can announce in its `type` member. */
  datatype ResultType = Block | Comment | Database | Page | PageOrDatabase | PropertyItem | User

  function ResultTypeName(t: ResultType): string {
    match t
    case Block => "block"
    case Comment => "comment"
    case Database => "database"
    case Page => "page"
    case PageOrDatabase => "page_or_database"
    case PropertyItem => "property_item"
    case User => "user"
  }

  function ParseResultType(s: string): (r: Option<ResultType>)
    ensures r.Some? ==> ResultTypeName(r.value) == s
    ensures r.None? ==> forall t :: ResultTypeName(t) != s
  {
    if s == "block" then Some(Block)
    else if s == "comment" then Some(Comment)
    else if s == "database" then Some(Database)
    else if s == "page" then Some(Page)
    else if s == "page_or_database" then Some(PageOrDatabase)
    else if s == "property_item" then Some(PropertyItem)
    else if s == "user" then Some(User)
    else None
  }

  /**
   * One page of a list response. The `object` member is the constant
   * "list" and is therefore not stored. Callers advance with `nextCursor`;
   * nothing here fetches further pages.
   */
  datatype PaginatedData<T> = PaginatedData(
    results: seq<T>,
    nextCursor: Option<string>,
    hasMore: bool,
    resultType: ResultType,
    requestId: string,
    nextUrl: Option<string>)

  /** `object` has the default "list": it may be left out, but if present it must be exactly "list". */
  function ReadListMarker(v: Option<Json>): (r: Result<string, Error>)
    ensures r.Success? <==> v.None? || v == Some(JString("list"))
    ensures r.Success? ==> r.value == "list"
  {
    if v.None? || v == Some(JString("list")) then Success("list") else Failure(ShapeMismatch([]))
  }

  /** The `type` member is a literal of the closed set of element kinds. */
  function ReadResultType(j: Json): Result<ResultType, Error> {
    if j.JString? && ParseResultType(j.s).Some? then Success(ParseResultType(j.s).value)
    else Failure(ShapeMismatch([]))
  }

  /**
   * Decodes a list envelope, its members in declaration order, every
   * element of `results` with `decodeElem`. One element that fails to
   * decode fails the whole page; a page that decodes keeps the results in
   * their wire order.
   */
  function DecodeEnvelope<T>(j: Json, decodeElem: Json -> Result<T, Error>, isUuid: string -> bool)
    : (r: Result<PaginatedData<T>, Error>)
    ensures r.Success? ==> j.JObject? && Get(j.fields, "object") in {None, Some(JString("list"))}
    ensures r.Success? ==>
      && "results" in j.fields && j.fields["results"].JArray?
      && |r.value.results| == |j.fields["results"].items|
      && forall i :: 0 <= i < |r.value.results| ==>
           decodeElem(j.fields["results"].items[i]) == Success(r.value.results[i])
    ensures j.JObject? && "results" in j.fields && j.fields["results"].JArray?
      && (exists i :: 0 <= i < |j.fields["results"].items| && decodeElem(j.fields["results"].items[i]).Failure?)
      ==> r.Failure?
    ensures r.Success? ==> Get(j.fields, "has_more") == Some(JBool(r.value.hasMore))
    ensures r.Success? ==> Get(j.fields, "type") == Some(JString(ResultTypeName(r.value.resultType)))
    ensures r.Success? ==> isUuid(r.value.requestId) && Get(j.fields, "request_id") == Some(JString(r.value.requestId))
    ensures r.Success? ==> (r.value.nextCursor.None? <==> Missing(Get(j.fields, "next_cursor")))
    ensures r.Success? && r.value.nextCursor.Some? ==> Get(j.fields, "next_cursor") == Some(JString(r.value.nextCursor.value))
    ensures r.Success? ==> (r.value.nextUrl.None? <==> Missing(Get(j.fields, "next_url")))
    ensures r.Success? && r.value.nextUrl.Some? ==> Get(j.fields, "next_url") == Some(JString(r.value.nextUrl.value))
    ensures r.Success? <==>
      && j.JObject? && Get(j.fields, "object") in {None, Some(JString("list"))}
      && "results" in j.fields && j.fields["results"].JArray?
      && (forall i :: 0 <= i < |j.fields["results"].items| ==> decodeElem(j.fields["results"].items[i]).Success?)
      && (Missing(Get(j.fields, "next_cursor")) || j.fields["next_cursor"].JString?)
      && "has_more" in j.fields && j.fields["has_more"].JBool?
      && "type" in j.fields && ReadResultType(j.fields["type"]).Success?
      && "request_id" in j.fields && j.fields["request_id"].JString? && isUuid(j.fields["request_id"].s)
      && (Missing(Get(j.fields, "next_url")) || j.fields["next_url"].JString?)
    ensures j.JObject? && Get(j.fields, "object") in {None, Some(JString("list"))} && "results" !in j.fields
      ==> r == Failure(ShapeMismatch([Key("results")]))
  {
    if !j.JObject? then Failure(ShapeMismatch([]))
    else
      var m := j.fields;
      var marker :- At("object", ReadListMarker(Get(m, "object")));
      var results :- At("results", Required(Get(m, "results"), ListOf(decodeElem)));
      var nextCursor :- At("next_cursor", Optional(Get(m, "next_cursor"), AsString));
      var hasMore :- At("has_more", Required(Get(m, "has_more"), AsBool));
      var resultType :- At("type", Required(Get(m, "type"), ReadResultType));
      var requestId :- At("request_id", Required(Get(m, "request_id"), Formatted(isUuid)));
      var nextUrl :- At("next_url", Optional(Get(m, "next_url"), AsString));
      Success(PaginatedData(results, nextCursor, hasMore, resultType, requestId, nextUrl))
  }

  /** Encodes a list envelope; `object` is always written as "list". */
  function EncodeEnvelope<T>(p: PaginatedData<T>, encodeElem: T -> Json): (j: Json)
    ensures j.JObject? && j.fields.Keys == {"object", "results", "next_cursor", "has_more", "type", "request_id", "next_url"}
    ensures j.fields["object"] == JString("list")
    ensures j.fields["type"] == JString(ResultTypeName(p.resultType))
  {
    JObject(map[
      "object" := JString("list"),
      "results" := EncodeList(p.results, encodeElem),
      "next_cursor" := EncodeOptional(p.nextCursor, EncodeString),
      "has_more" := JBool(p.hasMore),
      "type" := JString(ResultTypeName(p.resultType)),
      "request_id" := JString(p.requestId),
      "next_url" := EncodeOptional(p.nextUrl, EncodeString)])
  }

  // ---------------------------------------------------------------------
  // Request parameters

  /**
   * `page_size`: absent (or null) means the server default; a present value
   * must be an integer n with 0 < n <= 100.
   */
  function DecodePageSize(v: Option<Json>): (r: Result<Option<int>, Error>)
    ensures r.Success? && r.value.Some? ==> 0 < r.value.value <= 100 && v == Some(JNumber(r.value.value as real))
    ensures r == Success(None) <==> Missing(v)
  {
    if Missing(v) then Success(None)
    else
      match AsInt(v.value)
      case Failure(e) => Failure(e)
      case Success(n) => if 0 < n <= 100 then Success(Some(n)) else Failure(ShapeMismatch([]))
  }

  /** `start_cursor`: absent (or null) means "start from the first page". */
  function DecodeStartCursor(v: Option<Json>): (r: Result<Option<string>, Error>)
    ensures r == Success(None) <==> Missing(v)
    ensures r.Success? && r.value.Some? <==> v.Some? && v.value.JString?
    ensures r.Success? && r.value.Some? ==> v == Some(JString(r.value.value))
  {
    Optional(v, AsString)
  }
}
