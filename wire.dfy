/**
 * JSON values as they cross the boundary to the transport layer, the
 * validation errors of the decoders, and the small readers that every
 * entity decoder is built from: required and optional fields, lists that
 * fail on their first bad element, and the `type` discriminator.
 */
module Wire {
  import opened Wrappers

  /**
   * A JSON value. Numbers are kept as `real`: the wire does not tell an
   * integer literal from a float literal, and no floating-point rounding is
   * modelled. An object is a map, so member order and duplicate keys are
   * not represented.
   */
  datatype Json =
    | JNull
    | JBool(b: bool)
    | JNumber(n: real)
    | JString(s: string)
    | JArray(items: seq<Json>)
    | JObject(fields: map<string, Json>)

  /** One step of the location of a failing field. */
  datatype Segment = Key(name: string) | Index(i: nat)

  type Path = seq<Segment>

  /**
   * UnknownVariant: a discriminator value that no registered variant carries
   * (the value found is kept as it was, whatever its JSON type).
   * ShapeMismatch: a required field is absent or a field has the wrong shape
   * (wrong JSON type, out of range, malformed string format).
   */
  datatype Error =
    | UnknownVariant(path: Path, tag: Json)
    | ShapeMismatch(path: Path)

  /** The error `e` of a nested value, relocated under `seg`. */
  function Within(seg: Segment, e: Error): (r: Error)
    ensures |r.path| == |e.path| + 1 && r.path[0] == seg && r.path[1..] == e.path
    ensures e.path == [] ==> r.path == [seg]
    ensures r.UnknownVariant? == e.UnknownVariant? && (e.UnknownVariant? ==> r.tag == e.tag)
  {
    e.(path := [seg] + e.path)
  }

  /** The outcome of reading field `k`, with its error located under `k`. */
  function At<T>(k: string, r: Result<T, Error>): (r': Result<T, Error>)
    ensures r'.Success? == r.Success? && (r.Success? ==> r' == r)
    ensures r'.Failure? ==> |r'.error.path| > 0 && r'.error.path[0] == Key(k)
    ensures r'.Failure? ==> r'.error == Within(Key(k), r.error)
  {
    match r
    case Success(_) => r
    case Failure(e) => Failure(Within(Key(k), e))
  }

  /** The member `k` of an object, or None when the key is absent. */
  function Get(m: map<string, Json>, k: string): Option<Json> {
    if k in m then Some(m[k]) else None
  }

  /** An optional field counts as absent when its key is missing or its value is null. */
  predicate Missing(v: Option<Json>) {
    v.None? || v.value == JNull
  }

  function AsBool(j: Json): Result<bool, Error> {
    if j.JBool? then Success(j.b) else Failure(ShapeMismatch([]))
  }

  function AsString(j: Json): Result<string, Error> {
    if j.JString? then Success(j.s) else Failure(ShapeMismatch([]))
  }

  function AsNumber(j: Json): Result<real, Error> {
    if j.JNumber? then Success(j.n) else Failure(ShapeMismatch([]))
  }

  /** An integer field accepts a number literal without a fractional part. */
  function AsInt(j: Json): (r: Result<int, Error>)
    ensures r.Success? <==> j.JNumber? && j.n == j.n.Floor as real
    ensures r.Success? ==> j == JNumber(r.value as real)
  {
    if j.JNumber? && j.n == j.n.Floor as real then Success(j.n.Floor) else Failure(ShapeMismatch([]))
  }

  /** A string field whose text must satisfy a format check (email, URL, UUID, timestamp). */
  function Formatted(valid: string -> bool): Json -> Result<string, Error> {
    (j: Json) => if j.JString? && valid(j.s) then Success(j.s) else Failure(ShapeMismatch([]))
  }

  /** A required field: an absent key is a shape mismatch. */
  function Required<T>(v: Option<Json>, read: Json -> Result<T, Error>): Result<T, Error> {
    if v.None? then Failure(ShapeMismatch([])) else read(v.value)
  }

  /** An optional field: absent or null decodes to None, anything else must read. */
  function Optional<T>(v: Option<Json>, read: Json -> Result<T, Error>): Result<Option<T>, Error> {
    if Missing(v) then Success(None)
    else
      match read(v.value)
      case Success(x) => Success(Some(x))
      case Failure(e) => Failure(e)
  }

  /**
   * Decodes `items[from..]` with `elem`, failing on the first element that
   * does not decode; the error is located at that element's index.
   */
  function DecodeItems<T>(items: seq<Json>, elem: Json -> Result<T, Error>, from: nat): (r: Result<seq<T>, Error>)
    requires from <= |items|
    decreases |items| - from
    ensures r.Success? <==> forall i :: from <= i < |items| ==> elem(items[i]).Success?
    ensures r.Success? ==>
      && |r.value| == |items| - from
      && forall i :: 0 <= i < |r.value| ==> elem(items[from + i]) == Success(r.value[i])
    ensures r.Failure? ==>
      exists i :: from <= i < |items| && elem(items[i]).Failure?
        && (forall k :: from <= k < i ==> elem(items[k]).Success?)
        && r.error == Within(Index(i), elem(items[i]).error)
  {
    if from == |items| then Success([])
    else
      match elem(items[from])
      case Failure(e) =>
        assert elem(items[from]).Failure?;
        Failure(Within(Index(from), e))
      case Success(x) =>
        match DecodeItems(items, elem, from + 1)
        case Failure(e) => Failure(e)
        case Success(rest) =>
          assert forall i :: 0 < i <= |rest| ==> ([x] + rest)[i] == rest[i - 1];
          Success([x] + rest)
  }

  /** A list field: a JSON array every element of which decodes with `elem`. */
  function ListOf<T>(elem: Json -> Result<T, Error>): Json -> Result<seq<T>, Error> {
    (j: Json) => if j.JArray? then DecodeItems(j.items, elem, 0) else Failure(ShapeMismatch([]))
  }

  /** The table entry a present discriminator value selects; the tables hold string literals only. */
  function LookupTag<Tag>(v: Json, parse: string -> Option<Tag>): Option<Tag> {
    if v.JString? then parse(v.s) else None
  }

  /**
   * Reads the `type` discriminator of an object and looks it up in a closed
   * table: a missing tag is a shape mismatch of `type`; a present value
   * that selects no variant (a string outside the table, or a value that is
   * not a string at all) is an unknown variant carrying that value.
   */
  function ReadTag<Tag>(m: map<string, Json>, parse: string -> Option<Tag>): (r: Result<Tag, Error>)
    ensures r.Success? <==> "type" in m && LookupTag(m["type"], parse).Some?
    ensures r.Success? ==> m["type"].JString? && parse(m["type"].s) == Some(r.value)
    ensures "type" in m && LookupTag(m["type"], parse).None?
      ==> r == Failure(UnknownVariant([Key("type")], m["type"]))
    ensures "type" !in m ==> r == Failure(ShapeMismatch([Key("type")]))
  {
    if "type" !in m then Failure(ShapeMismatch([Key("type")]))
    else
      match LookupTag(m["type"], parse)
      case Some(tag) => Success(tag)
      case None => Failure(UnknownVariant([Key("type")], m["type"]))
  }

  /** Encodes an optional value; absence is written as an explicit null. */
  function EncodeOptional<T>(o: Option<T>, enc: T -> Json): Json {
    match o
    case None => JNull
    case Some(x) => enc(x)
  }

  function EncodeList<T>(xs: seq<T>, enc: T -> Json): (j: Json)
    ensures j.JArray? && |j.items| == |xs|
    ensures forall i :: 0 <= i < |xs| ==> j.items[i] == enc(xs[i])
  {
    JArray(seq(|xs|, i requires 0 <= i < |xs| => enc(xs[i])))
  }

  function EncodeBool(b: bool): Json {
    JBool(b)
  }

  function EncodeString(s: string): Json {
    JString(s)
  }

  /**
   * `raw` carries everything that the encoding `enc` writes: scalars are
   * equal, arrays agree element by element, and each member `enc` writes
   * agrees with the member of `raw` under the same key, a missing member
   * standing for null. Members of `raw` that `enc` does not write are
   * ignored: this is equality restricted to the modelled fields.
   */
  predicate Agrees(raw: Json, enc: Json)
    decreases enc
  {
    match enc
    case JObject(em) =>
      raw.JObject? && forall k :: k in em ==>
        if k in raw.fields then Agrees(raw.fields[k], em[k]) else em[k] == JNull
    case JArray(es) =>
      raw.JArray? && |raw.items| == |es| && forall i :: 0 <= i < |es| ==> Agrees(raw.items[i], es[i])
    case _ => raw == enc
  }

  /** The member found under a key (`None` when absent) agrees with what is written under it. */
  predicate MemberAgrees(v: Option<Json>, enc: Json) {
    if v.None? then enc == JNull else Agrees(v.value, enc)
  }

  lemma AgreesReflexive(j: Json)
    ensures Agrees(j, j)
  {
    match j
    case JObject(m) =>
      forall k | k in m
        ensures Agrees(m[k], m[k])
      {
        AgreesReflexive(m[k]);
      }
    case JArray(xs) =>
      forall i | 0 <= i < |xs|
        ensures Agrees(xs[i], xs[i])
      {
        AgreesReflexive(xs[i]);
      }
    case _ =>
  }

  /** An array agrees with a list encoding when it has one agreeing element per value, in order. */
  lemma ListAgrees<T>(items: seq<Json>, xs: seq<T>, enc: T -> Json)
    requires |items| == |xs| && forall i :: 0 <= i < |xs| ==> Agrees(items[i], enc(xs[i]))
    ensures Agrees(JArray(items), EncodeList(xs, enc))
  {
  }

  /** Agreement is reflexive: a value carries everything it writes itself. */
  lemma AgreementIsReflexive()
    ensures forall j :: Agrees(j, j)
  {
    forall j
      ensures Agrees(j, j)
    {
      AgreesReflexive(j);
    }
  }

  /** Every value `elem` decodes agrees with its encoding by `enc`. */
  ghost predicate AgreeingDecoder<T>(elem: Json -> Result<T, Error>, enc: T -> Json) {
    forall x :: elem(x).Success? ==> Agrees(x, enc(elem(x).value))
  }

  /** A required list member read with an agreeing element decoder agrees with the list's encoding. */
  lemma RequiredListAgrees<T>(v: Option<Json>, elem: Json -> Result<T, Error>, enc: T -> Json)
    requires AgreeingDecoder(elem, enc)
    requires Required(v, ListOf(elem)).Success?
    ensures MemberAgrees(v, EncodeList(Required(v, ListOf(elem)).value, enc))
  {
    var xs := Required(v, ListOf(elem)).value;
    var items := v.value.items;
    forall i | 0 <= i < |xs|
      ensures Agrees(items[i], enc(xs[i]))
    {
      assert elem(items[i]) == Success(xs[i]);
    }
    ListAgrees(items, xs, enc);
  }

  /** A list encoded element by element decodes back to itself when each element does. */
  lemma ListRoundTrip<T>(xs: seq<T>, enc: T -> Json, dec: Json -> Result<T, Error>)
    requires forall i :: 0 <= i < |xs| ==> dec(enc(xs[i])) == Success(xs[i])
    ensures ListOf(dec)(EncodeList(xs, enc)) == Success(xs)
  {
    var j := EncodeList(xs, enc);
    var r := DecodeItems(j.items, dec, 0);
    assert r.Success?;
    assert r.value == xs;
  }

  /** An optional field written by EncodeOptional reads back to the same option. */
  lemma OptionalRoundTrip<T>(o: Option<T>, enc: T -> Json, dec: Json -> Result<T, Error>)
    requires o.Some? ==> dec(enc(o.value)) == Success(o.value) && enc(o.value) != JNull
    ensures Optional(Some(EncodeOptional(o, enc)), dec) == Success(o)
  {
  }
}
