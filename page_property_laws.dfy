/**
 * Laws of the page-property codec: the tag tables invert each other,
 * decoding inverts encoding on every valid value, decoding ignores the keys
 * a variant does not declare, and the nested unions are selected by their
 * own inner tag.
 */
module PagePropertyLaws {
  import opened Wrappers
  import opened Wire
  import opened Collaborators
  import opened PageProperties

  // ---------------------------------------------------------------------
  // Tag tables

  /** Looking up a tag's literal finds that tag, and no two tags share a literal. */
  lemma ParseTagName(t: PropertyType)
    ensures ParseTag(TagName(t)) == Some(t)
  {
    match t
    case Checkbox =>
    case CreatedBy =>
    case CreatedTime =>
    case Date =>
    case Email =>
    case Files =>
    case Formula =>
    case LastEditedBy =>
    case LastEditedTime =>
    case MultiSelect =>
    case Number =>
    case People =>
    case PhoneNumber =>
    case Relation =>
    case Rollup =>
    case RichText =>
    case Select =>
    case Status =>
    case Title =>
    case Url =>
    case UniqueId =>
    case Verification =>
  }

  lemma ParseFormulaTagName(t: FormulaType)
    ensures ParseFormulaTag(FormulaTagName(t)) == Some(t)
  {
  }

  lemma ParseRollupTagName(t: RollupType)
    ensures ParseRollupTag(RollupTagName(t)) == Some(t)
  {
  }

  // ---------------------------------------------------------------------
  // Round trips of the shared records and nested unions

  lemma DateValueRoundTrip(d: DateValue, s: Schemas)
    requires ValidDate(d, s)
    ensures DecodeDateValue(EncodeDateValue(d), s) == Success(d)
  {
    OptionalRoundTrip(d.end, EncodeTimestamp, TimestampDecoder(s));
    OptionalRoundTrip(d.timeZone, EncodeString, AsString);
  }

  lemma UniqueIdRoundTrip(u: UniqueIdData)
    ensures DecodeUniqueId(EncodeUniqueId(u)) == Success(u)
  {
    OptionalRoundTrip(u.prefix, EncodeString, AsString);
  }

  lemma VerificationRoundTrip(v: VerificationData, s: Schemas)
    requires ValidVerification(v, s)
    ensures DecodeVerification(EncodeVerification(v), s) == Success(v)
  {
    if v.date.Some? {
      DateValueRoundTrip(v.date.value, s);
    }
    OptionalRoundTrip(v.verifiedBy, EncodeUser, UserDecoder(s));
    OptionalRoundTrip(v.date, EncodeDateValue, DateValueDecoder(s));
  }

  lemma FormulaRoundTrip(f: FormulaData, s: Schemas)
    requires ValidFormula(f, s)
    ensures DecodeFormula(EncodeFormula(f), s) == Success(f)
  {
    ParseFormulaTagName(FormulaTagOf(f));
    if f.DateFormulaData? {
      DateValueRoundTrip(f.date, s);
    }
  }

  lemma RollupRoundTrip(r: RollupData, s: Schemas)
    requires ValidRollup(r, s)
    ensures DecodeRollup(EncodeRollup(r), s) == Success(r)
  {
    ParseRollupTagName(RollupTagOf(r));
    if r.DateRollupData? {
      DateValueRoundTrip(r.date, s);
    }
  }

  // ---------------------------------------------------------------------
  // Round trip of a page property

  /**
   * What decoding a property's payload member alone yields: the property
   * itself, except that a relation's `has_more`, a sibling member, is absent.
   */
  function PayloadPart(p: PageProperty): PageProperty {
    if p.RelationProperty? then p.(hasMore := None) else p
  }

  lemma ScalarPayloadRoundTrip(p: PageProperty, s: Schemas)
    requires ScalarPayload(TagOf(p)) && Valid(p, s)
    ensures DecodeScalarPayload(TagOf(p), p.id, Some(EncodePayload(p)), s) == Success(p)
  {
    match p
    case PhoneNumberProperty(_, ph) => OptionalRoundTrip(ph, EncodeString, AsString);
    case _ =>
  }

  lemma ListPayloadRoundTrip(p: PageProperty, s: Schemas)
    requires ListPayload(TagOf(p)) && Valid(p, s)
    ensures DecodeListPayload(TagOf(p), p.id, Some(EncodePayload(p)), s) == Success(PayloadPart(p))
  {
    if p.RelationProperty? {
      ListRoundTrip(p.relation, EncodePageReference, PageReferenceDecoder(s));
      assert DecodeReferenceList(Some(EncodePayload(p)), s) == Success(p.relation);
    } else {
      OpaqueListPayloadRoundTrip(p, s);
    }
  }

  lemma OpaqueListPayloadRoundTrip(p: PageProperty, s: Schemas)
    requires ListPayload(TagOf(p)) && !p.RelationProperty? && Valid(p, s)
    ensures DecodeOpaqueListPayload(TagOf(p), p.id, Some(EncodePayload(p)), s) == Success(p)
  {
    match p
    case FilesProperty(_, fs) => ListRoundTrip(fs, EncodeFile, FileDecoder(s));
    case MultiSelectProperty(_, os) => ListRoundTrip(os, EncodeSelectOption, SelectOptionDecoder(s));
    case PeopleProperty(_, us) => ListRoundTrip(us, EncodeUser, UserDecoder(s));
    case RichTextProperty(_, ts) => ListRoundTrip(ts, EncodeRichText, RichTextDecoder(s));
    case TitleProperty(_, ts) => ListRoundTrip(ts, EncodeRichText, RichTextDecoder(s));
  }

  lemma RecordPayloadRoundTrip(p: PageProperty, s: Schemas)
    requires !ScalarPayload(TagOf(p)) && !ListPayload(TagOf(p)) && Valid(p, s)
    ensures DecodeRecordPayload(TagOf(p), p.id, Some(EncodePayload(p)), s) == Success(p)
  {
    if p.DateProperty? || p.FormulaProperty? || p.RollupProperty? || p.UniqueIdProperty? || p.VerificationProperty? {
      StructuredPayloadRoundTrip(p, s);
    }
  }

  /** The record payloads with a structure of their own: dates, formulas, rollups, unique ids, verifications. */
  lemma StructuredPayloadRoundTrip(p: PageProperty, s: Schemas)
    requires p.DateProperty? || p.FormulaProperty? || p.RollupProperty? || p.UniqueIdProperty? || p.VerificationProperty?
    requires Valid(p, s)
    ensures DecodeRecordPayload(TagOf(p), p.id, Some(EncodePayload(p)), s) == Success(p)
  {
    match p
    case DateProperty(id, d) => DatePayloadRoundTrip(id, d, s);
    case FormulaProperty(id, f) => FormulaPayloadRoundTrip(id, f, s);
    case RollupProperty(id, r) => RollupPayloadRoundTrip(id, r, s);
    case UniqueIdProperty(id, u) => UniqueIdPayloadRoundTrip(id, u, s);
    case VerificationProperty(id, v) => VerificationPayloadRoundTrip(id, v, s);
  }

  lemma DatePayloadRoundTrip(id: Option<string>, d: DateValue, s: Schemas)
    requires ValidDate(d, s)
    ensures DecodeRecordPayload(Date, id, Some(EncodeDateValue(d)), s) == Success(DateProperty(id, d))
  {
    DateValueRoundTrip(d, s);
  }

  lemma FormulaPayloadRoundTrip(id: Option<string>, f: FormulaData, s: Schemas)
    requires ValidFormula(f, s)
    ensures DecodeRecordPayload(Formula, id, Some(EncodeFormula(f)), s) == Success(FormulaProperty(id, f))
  {
    FormulaRoundTrip(f, s);
  }

  lemma RollupPayloadRoundTrip(id: Option<string>, r: RollupData, s: Schemas)
    requires ValidRollup(r, s)
    ensures DecodeRecordPayload(Rollup, id, Some(EncodeRollup(r)), s) == Success(RollupProperty(id, r))
  {
    RollupRoundTrip(r, s);
  }

  lemma UniqueIdPayloadRoundTrip(id: Option<string>, u: UniqueIdData, s: Schemas)
    ensures DecodeRecordPayload(UniqueId, id, Some(EncodeUniqueId(u)), s) == Success(UniqueIdProperty(id, u))
  {
    UniqueIdRoundTrip(u);
  }

  lemma VerificationPayloadRoundTrip(id: Option<string>, v: VerificationData, s: Schemas)
    requires ValidVerification(v, s)
    ensures DecodeRecordPayload(Verification, id, Some(EncodeVerification(v)), s) == Success(VerificationProperty(id, v))
  {
    VerificationRoundTrip(v, s);
  }

  /** The payload of every valid property is read back from its encoding. */
  lemma PayloadRoundTrip(p: PageProperty, s: Schemas)
    requires Valid(p, s)
    ensures DecodePayload(TagOf(p), p.id, Some(EncodePayload(p)), s) == Success(PayloadPart(p))
  {
    if ScalarPayload(TagOf(p)) {
      ScalarPayloadRoundTrip(p, s);
    } else if ListPayload(TagOf(p)) {
      ListPayloadRoundTrip(p, s);
    } else {
      RecordPayloadRoundTrip(p, s);
    }
  }

  /** The fields of every valid property, `has_more` included, are read back from its encoding. */
  lemma FieldsRoundTrip(p: PageProperty, s: Schemas)
    requires Valid(p, s)
    ensures var m := Encode(p).fields;
      DecodeFields(TagOf(p), p.id, Get(m, TagName(TagOf(p))), Get(m, "has_more"), s) == Success(p)
  {
    var m := Encode(p).fields;
    assert Get(m, TagName(TagOf(p))) == Some(EncodePayload(p));
    PayloadRoundTrip(p, s);
    assert At(TagName(TagOf(p)), DecodePayload(TagOf(p), p.id, Some(EncodePayload(p)), s)) == Success(PayloadPart(p));
    if p.RelationProperty? {
      assert Get(m, "has_more") == Some(EncodeOptional(p.hasMore, EncodeBool));
      OptionalRoundTrip(p.hasMore, EncodeBool, AsBool);
    } else {
      OnlyRelationsTaggedRelation(p);
      NonRelationFields(TagOf(p), p.id, Get(m, TagName(TagOf(p))), Get(m, "has_more"), s);
    }
  }

  /** Decoding inverts encoding on every valid property value. */
  lemma RoundTrip(p: PageProperty, s: Schemas)
    requires Valid(p, s)
    ensures Decode(Encode(p), s) == Success(p)
  {
    ParseTagName(TagOf(p));
    OptionalRoundTrip(p.id, EncodeString, AsString);
    FieldsRoundTrip(p, s);
  }

  /** Decoding a valid property's encoding and decoding again changes nothing. */
  lemma DecodeIsCanonical(j: Json, s: Schemas)
    requires Decode(j, s).Success?
    ensures Decode(Encode(Decode(j, s).value), s) == Decode(j, s)
  {
    RoundTrip(Decode(j, s).value, s);
  }

  /**
   * The converse law: what a successful decode produces, encoded again,
   * agrees with the raw object on every member the variant models. Only
   * the members the variant does not declare are dropped, and a missing
   * optional member comes back as null.
   */
  lemma DecodeAgreesWithRaw(j: Json, s: Schemas)
    requires Decode(j, s).Success?
    ensures Agrees(j, Encode(Decode(j, s).value))
  {
    PropertyAgrees(j.fields, Decode(j, s).value);
  }

  /** The members a property decoder has read agree with the property's encoding. */
  lemma PropertyAgrees(m: map<string, Json>, p: PageProperty)
    requires Get(m, "type") == Some(JString(TagName(TagOf(p))))
    requires p.id.None? <==> Missing(Get(m, "id"))
    requires p.id.Some? ==> Get(m, "id") == Some(JString(p.id.value))
    requires MemberAgrees(Get(m, TagName(TagOf(p))), EncodePayload(p))
    requires p.RelationProperty? ==> MemberAgrees(Get(m, "has_more"), EncodeOptional(p.hasMore, EncodeBool))
    ensures Agrees(JObject(m), Encode(p))
  {
    var e := Encode(p).fields;
    forall k | k in e
      ensures if k in m then Agrees(m[k], e[k]) else e[k] == JNull
    {
      assert k == "id" || k == "type" || k == TagName(TagOf(p)) || (p.RelationProperty? && k == "has_more");
    }
  }

  // ---------------------------------------------------------------------
  // Decoding reads only the keys a variant declares

  /**
   * Keys that the selected variant does not declare are ignored: adding
   * them changes neither a successful result nor the error.
   */
  lemma DecodeIgnoresExtraKeys(m: map<string, Json>, extra: map<string, Json>, s: Schemas)
    requires "type" in m && m["type"].JString? && ParseTag(m["type"].s).Some?
    requires extra.Keys !! SchemaKeys(ParseTag(m["type"].s).value)
    ensures Decode(JObject(m + extra), s) == Decode(JObject(m), s)
  {
    var tag := ParseTag(m["type"].s).value;
    assert Get(m + extra, "id") == Get(m, "id");
    assert Get(m + extra, "type") == Get(m, "type");
    assert Get(m + extra, TagName(tag)) == Get(m, TagName(tag));
    if tag == Relation {
      assert Get(m + extra, "has_more") == Get(m, "has_more");
    } else {
      match Optional(Get(m, "id"), AsString)
      case Failure(_) =>
      case Success(id) => HasMoreOnlyForRelations(tag, id, Get(m, TagName(tag)), Get(m + extra, "has_more"), Get(m, "has_more"), s);
    }
  }

  /** A date value reads only `start`, `end` and `time_zone`. */
  lemma DateValueIgnoresExtraKeys(m: map<string, Json>, extra: map<string, Json>, s: Schemas)
    requires extra.Keys !! {"start", "end", "time_zone"}
    ensures DecodeDateValue(JObject(m + extra), s) == DecodeDateValue(JObject(m), s)
  {
    assert Get(m + extra, "start") == Get(m, "start");
    assert Get(m + extra, "end") == Get(m, "end");
    assert Get(m + extra, "time_zone") == Get(m, "time_zone");
  }

  /** A unique-id record reads only `number` and `prefix`. */
  lemma UniqueIdIgnoresExtraKeys(m: map<string, Json>, extra: map<string, Json>)
    requires extra.Keys !! {"number", "prefix"}
    ensures DecodeUniqueId(JObject(m + extra)) == DecodeUniqueId(JObject(m))
  {
    assert Get(m + extra, "number") == Get(m, "number");
    assert Get(m + extra, "prefix") == Get(m, "prefix");
  }

  /** A verification record reads only `state`, `verified_by` and `date`. */
  lemma VerificationIgnoresExtraKeys(m: map<string, Json>, extra: map<string, Json>, s: Schemas)
    requires extra.Keys !! {"state", "verified_by", "date"}
    ensures DecodeVerification(JObject(m + extra), s) == DecodeVerification(JObject(m), s)
  {
    assert Get(m + extra, "state") == Get(m, "state");
    assert Get(m + extra, "verified_by") == Get(m, "verified_by");
    assert Get(m + extra, "date") == Get(m, "date");
  }

  /** A formula reads only its inner `type` and the member that tag names. */
  lemma FormulaIgnoresExtraKeys(m: map<string, Json>, extra: map<string, Json>, s: Schemas)
    requires "type" in m && LookupTag(m["type"], ParseFormulaTag).Some?
    requires extra.Keys !! FormulaKeys(LookupTag(m["type"], ParseFormulaTag).value)
    ensures DecodeFormula(JObject(m + extra), s) == DecodeFormula(JObject(m), s)
  {
    var t := LookupTag(m["type"], ParseFormulaTag).value;
    assert Get(m + extra, "type") == Get(m, "type");
    assert Get(m + extra, FormulaTagName(t)) == Get(m, FormulaTagName(t));
  }

  /**
   * A rollup reads only `type`, `function` and, for date and number, the
   * member that tag names: the `array` member the API sends with an array
   * rollup, for one, is ignored.
   */
  lemma RollupIgnoresExtraKeys(m: map<string, Json>, extra: map<string, Json>, s: Schemas)
    requires "type" in m && LookupTag(m["type"], ParseRollupTag).Some?
    requires extra.Keys !! RollupKeys(LookupTag(m["type"], ParseRollupTag).value)
    ensures DecodeRollup(JObject(m + extra), s) == DecodeRollup(JObject(m), s)
  {
    var t := LookupTag(m["type"], ParseRollupTag).value;
    assert Get(m + extra, "type") == Get(m, "type");
    assert Get(m + extra, "function") == Get(m, "function");
    if t == RollupDate || t == RollupNumber {
      assert Get(m + extra, RollupTagName(t)) == Get(m, RollupTagName(t));
    }
  }

  /** Only a relation reads `has_more`; every other variant ignores it. */
  lemma HasMoreOnlyForRelations(tag: PropertyType, id: Option<string>, payload: Option<Json>, h1: Option<Json>, h2: Option<Json>, s: Schemas)
    requires tag != Relation
    ensures DecodeFields(tag, id, payload, h1, s) == DecodeFields(tag, id, payload, h2, s)
  {
    NonRelationFields(tag, id, payload, h1, s);
    NonRelationFields(tag, id, payload, h2, s);
  }

  /** A variant other than relation is exactly its payload, located under its tag. */
  lemma NonRelationFields(tag: PropertyType, id: Option<string>, payload: Option<Json>, h: Option<Json>, s: Schemas)
    requires tag != Relation
    ensures DecodeFields(tag, id, payload, h, s) == At(TagName(tag), DecodePayload(tag, id, payload, s))
  {
    var r := DecodePayload(tag, id, payload, s);
    if r.Success? {
      OnlyRelationsTaggedRelation(r.value);
    }
  }

  lemma OnlyRelationsTaggedRelation(p: PageProperty)
    ensures p.RelationProperty? <==> TagOf(p) == Relation
  {
  }

  /** An object whose `type` is a known tag and whose `id` is readable decodes to that tag's fields. */
  lemma DecodeOfKnownTag(m: map<string, Json>, tag: PropertyType, s: Schemas)
    requires Get(m, "type") == Some(JString(TagName(tag)))
    requires Optional(Get(m, "id"), AsString).Success?
    ensures Decode(JObject(m), s)
      == DecodeFields(tag, Optional(Get(m, "id"), AsString).value, Get(m, TagName(tag)), Get(m, "has_more"), s)
  {
    ParseTagName(tag);
  }

  // ---------------------------------------------------------------------
  // The nested unions

  /**
   * A formula property is selected by the outer tag alone; its payload is
   * whatever the formula union decodes from the `formula` member by the
   * inner tag, and a failure there is reported under `formula`.
   */
  lemma FormulaSelectedByInnerTag(m: map<string, Json>, s: Schemas)
    requires Get(m, "type") == Some(JString("formula")) && "formula" in m
    requires Optional(Get(m, "id"), AsString).Success?
    ensures var id := Optional(Get(m, "id"), AsString).value;
      Decode(JObject(m), s) ==
        match DecodeFormula(m["formula"], s)
        case Success(f) => Success(FormulaProperty(id, f))
        case Failure(e) => Failure(Within(Key("formula"), e))
  {
    DecodeOfKnownTag(m, Formula, s);
    var id := Optional(Get(m, "id"), AsString).value;
    assert Get(m, "formula") == Some(m["formula"]);
    assert DecodeRecordPayload(Formula, id, Some(m["formula"]), s) ==
      match DecodeFormula(m["formula"], s)
      case Success(x) => Success(FormulaProperty(id, x))
      case Failure(e) => Failure(e);
  }

  /** A date property's payload is whatever the date record decodes from the `date` member. */
  lemma DateReadFromDateMember(m: map<string, Json>, s: Schemas)
    requires Get(m, "type") == Some(JString("date")) && "date" in m
    requires Optional(Get(m, "id"), AsString).Success?
    ensures var id := Optional(Get(m, "id"), AsString).value;
      Decode(JObject(m), s) ==
        match DecodeDateValue(m["date"], s)
        case Success(d) => Success(DateProperty(id, d))
        case Failure(e) => Failure(Within(Key("date"), e))
  {
    DecodeOfKnownTag(m, Date, s);
    var id := Optional(Get(m, "id"), AsString).value;
    assert Get(m, "date") == Some(m["date"]);
    assert DecodeRecordPayload(Date, id, Some(m["date"]), s) ==
      match DecodeDateValue(m["date"], s)
      case Success(x) => Success(DateProperty(id, x))
      case Failure(e) => Failure(e);
  }

  /** A unique_id property's payload is whatever the unique-id record decodes from the `unique_id` member. */
  lemma UniqueIdReadFromMember(m: map<string, Json>, s: Schemas)
    requires Get(m, "type") == Some(JString("unique_id")) && "unique_id" in m
    requires Optional(Get(m, "id"), AsString).Success?
    ensures var id := Optional(Get(m, "id"), AsString).value;
      Decode(JObject(m), s) ==
        match DecodeUniqueId(m["unique_id"])
        case Success(u) => Success(UniqueIdProperty(id, u))
        case Failure(e) => Failure(Within(Key("unique_id"), e))
  {
    DecodeOfKnownTag(m, UniqueId, s);
    var id := Optional(Get(m, "id"), AsString).value;
    assert Get(m, "unique_id") == Some(m["unique_id"]);
    assert DecodeRecordPayload(UniqueId, id, Some(m["unique_id"]), s) ==
      match DecodeUniqueId(m["unique_id"])
      case Success(x) => Success(UniqueIdProperty(id, x))
      case Failure(e) => Failure(e);
  }

  /** A verification property's payload is whatever the verification record decodes from the `verification` member. */
  lemma VerificationReadFromMember(m: map<string, Json>, s: Schemas)
    requires Get(m, "type") == Some(JString("verification")) && "verification" in m
    requires Optional(Get(m, "id"), AsString).Success?
    ensures var id := Optional(Get(m, "id"), AsString).value;
      Decode(JObject(m), s) ==
        match DecodeVerification(m["verification"], s)
        case Success(w) => Success(VerificationProperty(id, w))
        case Failure(e) => Failure(Within(Key("verification"), e))
  {
    DecodeOfKnownTag(m, Verification, s);
    var id := Optional(Get(m, "id"), AsString).value;
    assert Get(m, "verification") == Some(m["verification"]);
    assert DecodeRecordPayload(Verification, id, Some(m["verification"]), s) ==
      match DecodeVerification(m["verification"], s)
      case Success(x) => Success(VerificationProperty(id, x))
      case Failure(e) => Failure(e);
  }

  /** The same for rollups: the `rollup` member is decoded by the rollup union's own tag. */
  lemma RollupSelectedByInnerTag(m: map<string, Json>, s: Schemas)
    requires Get(m, "type") == Some(JString("rollup")) && "rollup" in m
    requires Optional(Get(m, "id"), AsString).Success?
    ensures var id := Optional(Get(m, "id"), AsString).value;
      Decode(JObject(m), s) ==
        match DecodeRollup(m["rollup"], s)
        case Success(r) => Success(RollupProperty(id, r))
        case Failure(e) => Failure(Within(Key("rollup"), e))
  {
    DecodeOfKnownTag(m, Rollup, s);
    var id := Optional(Get(m, "id"), AsString).value;
    assert Get(m, "rollup") == Some(m["rollup"]);
    assert DecodeRecordPayload(Rollup, id, Some(m["rollup"]), s) ==
      match DecodeRollup(m["rollup"], s)
      case Success(x) => Success(RollupProperty(id, x))
      case Failure(e) => Failure(e);
  }

  /** Every rollup case requires `function`, whatever its inner tag. */
  lemma RollupRequiresFunction(m: map<string, Json>, s: Schemas)
    requires "type" in m && m["type"].JString? && ParseRollupTag(m["type"].s).Some?
    requires "function" !in m
    ensures DecodeRollup(JObject(m), s) == Failure(ShapeMismatch([Key("function")]))
  {
  }

  /**
   * The array, incomplete and unsupported rollup cases carry only their tag
   * and function: they decode from those two members alone.
   */
  lemma TagOnlyRollups(t: RollupType, fn: string, s: Schemas)
    requires t == RollupArray || t == RollupIncomplete || t == RollupUnsupported
    requires s.isRollupFunction(fn)
    ensures var r := DecodeRollup(JObject(map["type" := JString(RollupTagName(t)), "function" := JString(fn)]), s);
      r.Success? && RollupTagOf(r.value) == t && r.value.rollupFunction == fn
  {
    ParseRollupTagName(t);
  }

  // ---------------------------------------------------------------------
  // Factories produce what decoding their wire form produces


  /**
   * The factories take their arguments as given; the property they build
   * is one decoding could produce exactly when every timestamp is well
   * formed (the case in which the library's constructor does not raise).
   */
  lemma DateNewValid(start: Timestamp, end: Option<Timestamp>, timeZone: Option<string>, s: Schemas)
    ensures Valid(DateNew(start, end, timeZone), s)
      <==> s.isDateTime(start.iso) && (end.Some? ==> s.isDateTime(end.value.iso))
  {
  }

  /** Likewise a relation built from identifiers is valid exactly when each identifier is a UUID. */
  lemma RelationCreateValid(ids: seq<string>, s: Schemas)
    ensures Valid(RelationCreate(ids), s) <==> forall i :: 0 <= i < |ids| ==> s.isUuid(ids[i])
  {
  }

  lemma DateNewMatchesWire(start: Timestamp, end: Option<Timestamp>, timeZone: Option<string>, s: Schemas)
    requires ValidDate(DateValue(start, end, timeZone), s)
    ensures var date := map["start" := JString(start.iso)]
        + (if end.Some? then map["end" := JString(end.value.iso)] else map[])
        + (if timeZone.Some? then map["time_zone" := JString(timeZone.value)] else map[]);
      Decode(JObject(map["type" := JString("date"), "date" := JObject(date)]), s)
        == Success(DateNew(start, end, timeZone))
  {
    var date := map["start" := JString(start.iso)]
      + (if end.Some? then map["end" := JString(end.value.iso)] else map[])
      + (if timeZone.Some? then map["time_zone" := JString(timeZone.value)] else map[]);
    DateWireValue(start, end, timeZone, s);
    var m := map["type" := JString("date"), "date" := JObject(date)];
    assert Get(m, "type") == Some(JString("date")) && Get(m, "id") == None;
    DateReadFromDateMember(m, s);
  }

  /** The date object with its absent members omitted decodes to exactly the given value. */
  lemma DateWireValue(start: Timestamp, end: Option<Timestamp>, timeZone: Option<string>, s: Schemas)
    requires ValidDate(DateValue(start, end, timeZone), s)
    ensures var date := map["start" := JString(start.iso)]
        + (if end.Some? then map["end" := JString(end.value.iso)] else map[])
        + (if timeZone.Some? then map["time_zone" := JString(timeZone.value)] else map[]);
      DecodeDateValue(JObject(date), s) == Success(DateValue(start, end, timeZone))
  {
    var date := map["start" := JString(start.iso)]
      + (if end.Some? then map["end" := JString(end.value.iso)] else map[])
      + (if timeZone.Some? then map["time_zone" := JString(timeZone.value)] else map[]);
    assert Get(date, "start") == Some(JString(start.iso));
    assert Get(date, "end") == if end.Some? then Some(JString(end.value.iso)) else None;
    assert Get(date, "time_zone") == if timeZone.Some? then Some(JString(timeZone.value)) else None;
  }

  lemma RelationCreateMatchesWire(ids: seq<string>, s: Schemas)
    requires forall i :: 0 <= i < |ids| ==> s.isUuid(ids[i])
    ensures var refs := seq(|ids|, i requires 0 <= i < |ids| => JObject(map["id" := JString(ids[i])]));
      Decode(JObject(map["type" := JString("relation"), "relation" := JArray(refs)]), s)
        == Success(RelationCreate(ids))
  {
    var refs := seq(|ids|, i requires 0 <= i < |ids| => JObject(map["id" := JString(ids[i])]));
    RelationWireRefs(ids, s);
    var m := map["type" := JString("relation"), "relation" := JArray(refs)];
    assert Get(m, "type") == Some(JString("relation")) && Get(m, "id") == None;
    assert Get(m, "relation") == Some(JArray(refs)) && Get(m, "has_more") == None;
    RelationReadFromMembers(m, s);
  }

  /** The wire list of references decodes to the factory's references, in order. */
  lemma RelationWireRefs(ids: seq<string>, s: Schemas)
    requires forall i :: 0 <= i < |ids| ==> s.isUuid(ids[i])
    ensures var refs := seq(|ids|, i requires 0 <= i < |ids| => JObject(map["id" := JString(ids[i])]));
      DecodeReferenceList(Some(JArray(refs)), s) == Success(RelationCreate(ids).relation)
  {
    var refs := seq(|ids|, i requires 0 <= i < |ids| => JObject(map["id" := JString(ids[i])]));
    var r := DecodeItems(refs, PageReferenceDecoder(s), 0);
    assert r.Success?;
    assert r.value == RelationCreate(ids).relation;
  }

  /** A relation reads its references from `relation` and then its optional `has_more`. */
  lemma RelationReadFromMembers(m: map<string, Json>, s: Schemas)
    requires Get(m, "type") == Some(JString("relation"))
    requires Optional(Get(m, "id"), AsString).Success?
    ensures var id := Optional(Get(m, "id"), AsString).value;
      Decode(JObject(m), s) ==
        match DecodeReferenceList(Get(m, "relation"), s)
        case Failure(e) => Failure(Within(Key("relation"), e))
        case Success(rs) =>
          match Optional(Get(m, "has_more"), AsBool)
          case Failure(e) => Failure(Within(Key("has_more"), e))
          case Success(h) => Success(RelationProperty(id, rs, h))
  {
    DecodeOfKnownTag(m, Relation, s);
    var id := Optional(Get(m, "id"), AsString).value;
    assert DecodePayload(Relation, id, Get(m, "relation"), s) ==
      match DecodeReferenceList(Get(m, "relation"), s)
      case Failure(e) => Failure(e)
      case Success(rs) => Success(RelationProperty(id, rs, None));
  }

  lemma SelectCreateMatchesWire(b: Builders, name: string, color: Option<string>, s: Schemas)
    requires Accepts(s.isSelectOption, b.createSelect(name, color).raw)
    ensures Decode(JObject(map["type" := JString("select"), "select" := b.createSelect(name, color).raw]), s)
      == Success(SelectCreate(b, name, color))
  {
    var m := map["type" := JString("select"), "select" := b.createSelect(name, color).raw];
    assert Get(m, "type") == Some(JString("select")) && Get(m, "id") == None;
    assert Get(m, "select") == Some(b.createSelect(name, color).raw);
    DecodeOfKnownTag(m, Select, s);
    assert DecodePayload(Select, None, Some(b.createSelect(name, color).raw), s) == Success(SelectCreate(b, name, color));
  }

  lemma StatusCreateMatchesWire(b: Builders, name: string, color: Option<string>, s: Schemas)
    requires Accepts(s.isStatusOption, b.createStatus(name, color).raw)
    ensures Decode(JObject(map["type" := JString("status"), "status" := b.createStatus(name, color).raw]), s)
      == Success(StatusCreate(b, name, color))
  {
    var m := map["type" := JString("status"), "status" := b.createStatus(name, color).raw];
    assert Get(m, "type") == Some(JString("status")) && Get(m, "id") == None;
    assert Get(m, "status") == Some(b.createStatus(name, color).raw);
    DecodeOfKnownTag(m, Status, s);
    assert DecodePayload(Status, None, Some(b.createStatus(name, color).raw), s) == Success(StatusCreate(b, name, color));
  }

  lemma StatusReferMatchesWire(b: Builders, name: string, s: Schemas)
    requires Accepts(s.isStatusOption, b.referStatus(name).raw)
    ensures Decode(JObject(map["type" := JString("status"), "status" := b.referStatus(name).raw]), s)
      == Success(StatusRefer(b, name))
  {
    var m := map["type" := JString("status"), "status" := b.referStatus(name).raw];
    assert Get(m, "type") == Some(JString("status")) && Get(m, "id") == None;
    assert Get(m, "status") == Some(b.referStatus(name).raw);
    DecodeOfKnownTag(m, Status, s);
    assert DecodePayload(Status, None, Some(b.referStatus(name).raw), s) == Success(StatusRefer(b, name));
  }

  lemma TitleNewMatchesWire(b: Builders, text: string, s: Schemas)
    requires Accepts(s.isRichText, b.newText(text).raw)
    ensures Decode(JObject(map["type" := JString("title"), "title" := JArray([b.newText(text).raw])]), s)
      == Success(TitleNew(b, text))
  {
    var r := DecodeItems([b.newText(text).raw], RichTextDecoder(s), 0);
    assert r.Success? && r.value == [b.newText(text)];
    var m := map["type" := JString("title"), "title" := JArray([b.newText(text).raw])];
    assert Get(m, "type") == Some(JString("title")) && Get(m, "id") == None;
    assert Get(m, "title") == Some(JArray([b.newText(text).raw]));
    DecodeOfKnownTag(m, Title, s);
    assert DecodePayload(Title, None, Some(JArray([b.newText(text).raw])), s) == Success(TitleNew(b, text));
  }
}
