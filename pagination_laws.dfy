/** Laws of the list envelope and of the pagination parameters. */
module PaginationLaws {
  import opened Wrappers
  import opened Wire
  import opened Pagination

  lemma ParseResultTypeName(t: ResultType)
    ensures ParseResultType(ResultTypeName(t)) == Some(t)
  {
  }

  /**
   * Decoding inverts encoding for every envelope whose elements round-trip
   * and whose request id is a UUID; `has_more` and `next_cursor` are kept
   * as given, including the degraded case of more results without a cursor.
   */
  lemma EnvelopeRoundTrip<T>(p: PaginatedData<T>, enc: T -> Json, dec: Json -> Result<T, Error>, isUuid: string -> bool)
    requires forall i :: 0 <= i < |p.results| ==> dec(enc(p.results[i])) == Success(p.results[i])
    requires isUuid(p.requestId)
    ensures DecodeEnvelope(EncodeEnvelope(p, enc), dec, isUuid) == Success(p)
  {
    var m := EncodeEnvelope(p, enc).fields;
    ListRoundTrip(p.results, enc, dec);
    OptionalRoundTrip(p.nextCursor, EncodeString, AsString);
    OptionalRoundTrip(p.nextUrl, EncodeString, AsString);
    ParseResultTypeName(p.resultType);
    assert Get(m, "object") == Some(JString("list"));
    assert Get(m, "results") == Some(EncodeList(p.results, enc));
    assert Get(m, "type") == Some(JString(ResultTypeName(p.resultType)));
  }

  /**
   * Fail-fast: when the envelope's own `object` member is acceptable, the
   * first element of `results` that does not decode is the error of the
   * whole page, located at its index.
   */
  lemma EnvelopeFailsAtFirstBadElement<T>(m: map<string, Json>, items: seq<Json>, i: nat,
                                          dec: Json -> Result<T, Error>, isUuid: string -> bool)
    requires Get(m, "object") in {None, Some(JString("list"))}
    requires Get(m, "results") == Some(JArray(items))
    requires i < |items| && dec(items[i]).Failure?
    requires forall k :: 0 <= k < i ==> dec(items[k]).Success?
    ensures DecodeEnvelope(JObject(m), dec, isUuid)
      == Failure(Within(Key("results"), Within(Index(i), dec(items[i]).error)))
  {
    var r := DecodeItems(items, dec, 0);
    assert r.Failure?;
    var w :| 0 <= w < |items| && dec(items[w]).Failure?
      && (forall k :: 0 <= k < w ==> dec(items[k]).Success?)
      && r.error == Within(Index(w), dec(items[w]).error);
    assert w == i;
  }

  /** The members an envelope declares. */
  function EnvelopeKeys(): set<string> {
    {"object", "results", "next_cursor", "has_more", "type", "request_id", "next_url"}
  }

  /** Members the envelope does not declare are ignored: adding them changes neither the page nor the error. */
  lemma EnvelopeIgnoresExtraKeys<T>(m: map<string, Json>, extra: map<string, Json>,
                                    dec: Json -> Result<T, Error>, isUuid: string -> bool)
    requires extra.Keys !! EnvelopeKeys()
    ensures DecodeEnvelope(JObject(m + extra), dec, isUuid) == DecodeEnvelope(JObject(m), dec, isUuid)
  {
    forall k | k in EnvelopeKeys()
      ensures Get(m + extra, k) == Get(m, k)
    {
    }
  }

  /** A `type` outside the seven element kinds is rejected. */
  lemma EnvelopeRejectsUnknownType<T>(m: map<string, Json>, dec: Json -> Result<T, Error>, isUuid: string -> bool)
    requires "type" in m && m["type"].JString? && ParseResultType(m["type"].s).None?
    ensures DecodeEnvelope(JObject(m), dec, isUuid).Failure?
  {
  }

  /** `page_size` admits exactly 1 to 100; 0, negative values and 101 or more are rejected. */
  lemma PageSizeBounds(n: int)
    ensures DecodePageSize(Some(JNumber(n as real))).Success? <==> 0 < n <= 100
    ensures 0 < n <= 100 ==> DecodePageSize(Some(JNumber(n as real))) == Success(Some(n))
  {
    assert (n as real).Floor == n;
  }
}
