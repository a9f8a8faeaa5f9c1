/**
 * The catalog of page property values: a closed union of 22 variants, each
 * with an optional `id`, a fixed `type` tag and a payload stored under the
 * key named by that tag. Two payloads (formula and rollup) are themselves
 * unions selected by their own inner `type`. Decoding dispatches on the
 * tag, validates the variant's fields in declaration order and ignores the
 * keys the variant does not declare; encoding writes every declared key,
 * absent optional values as null.
 */
module PageProperties {
  import opened Wrappers
  import opened Wire
  import opened Collaborators

  // ---------------------------------------------------------------------
  // Shared value records

  /** An ISO-8601 date or date-time, kept as the text the format check accepted. */
  datatype Timestamp = Timestamp(iso: string)

  /** A date or a date range; an absent `end` means a single point in time. */
  datatype DateValue = DateValue(start: Timestamp, end: Option<Timestamp>, timeZone: Option<string>)

  /** One entry of a relation: the UUID of the referenced page. */
  datatype PageReference = PageReference(id: string)

  /** The server-owned counter of a unique-id property, with its optional prefix. */
  datatype UniqueIdData = UniqueIdData(number: int, prefix: Option<string>)

  datatype VerificationData = VerificationData(state: string, verifiedBy: Option<UserObject>, date: Option<DateValue>)

  // ---------------------------------------------------------------------
  // The formula payload: a union on its own inner `type`

  datatype FormulaType = FormulaBoolean | FormulaDate | FormulaNumber | FormulaString

  datatype FormulaData =
    | BooleanFormulaData(boolean: bool)
    | DateFormulaData(date: DateValue)
    | NumberFormulaData(number: real)
    | StringFormulaData(text: string)

  // ---------------------------------------------------------------------
  // The rollup payload: a union on its own inner `type`, every case with a `function`

  datatype RollupType = RollupDate | RollupNumber | RollupArray | RollupIncomplete | RollupUnsupported

  datatype RollupData =
    | DateRollupData(rollupFunction: string, date: DateValue)
    | NumberRollupData(rollupFunction: string, number: real)
    | ArrayRollupData(rollupFunction: string)
    | IncompleteRollupData(rollupFunction: string)
    | UnsupportedRollupData(rollupFunction: string)

  // ---------------------------------------------------------------------
  // The page property union

  datatype PropertyType =
    | Checkbox | CreatedBy | CreatedTime | Date | Email | Files | Formula
    | LastEditedBy | LastEditedTime | MultiSelect | Number | People | PhoneNumber
    | Relation | Rollup | RichText | Select | Status | Title | Url | UniqueId | Verification

  datatype PageProperty =
    | CheckboxProperty(id: Option<string>, checkbox: bool)
    | CreatedByProperty(id: Option<string>, createdBy: UserObject)
    | CreatedTimeProperty(id: Option<string>, createdTime: Timestamp)
    | DateProperty(id: Option<string>, date: DateValue)
    | EmailProperty(id: Option<string>, email: string)
    | FilesProperty(id: Option<string>, files: seq<FileObject>)
    | FormulaProperty(id: Option<string>, formula: FormulaData)
    | LastEditedByProperty(id: Option<string>, lastEditedBy: UserObject)
    | LastEditedTimeProperty(id: Option<string>, lastEditedTime: Timestamp)
    | MultiSelectProperty(id: Option<string>, multiSelect: seq<SelectOption>)
    | NumberProperty(id: Option<string>, number: real)
    | PeopleProperty(id: Option<string>, people: seq<UserObject>)
    | PhoneNumberProperty(id: Option<string>, phoneNumber: Option<string>)
    | RelationProperty(id: Option<string>, relation: seq<PageReference>, hasMore: Option<bool>)
    | RollupProperty(id: Option<string>, rollup: RollupData)
    | RichTextProperty(id: Option<string>, richText: seq<RichTextObject>)
    | SelectProperty(id: Option<string>, select: SelectOption)
    | StatusProperty(id: Option<string>, status: StatusOption)
    | TitleProperty(id: Option<string>, title: seq<RichTextObject>)
    | UrlProperty(id: Option<string>, url: string)
    | UniqueIdProperty(id: Option<string>, uniqueId: UniqueIdData)
    | VerificationProperty(id: Option<string>, verification: VerificationData)

  // ---------------------------------------------------------------------
  // Tag tables

  /** The wire literal of each outer tag. */
  function TagName(t: PropertyType): (name: string)
    ensures name !in {"id", "type", "has_more"}
  {
    match t
    case Checkbox => "checkbox"
    case CreatedBy => "created_by"
    case CreatedTime => "created_time"
    case Date => "date"
    case Email => "email"
    case Files => "files"
    case Formula => "formula"
    case LastEditedBy => "last_edited_by"
    case LastEditedTime => "last_edited_time"
    case MultiSelect => "multi_select"
    case Number => "number"
    case People => "people"
    case PhoneNumber => "phone_number"
    case Relation => "relation"
    case Rollup => "rollup"
    case RichText => "rich_text"
    case Select => "select"
    case Status => "status"
    case Title => "title"
    case Url => "url"
    case UniqueId => "unique_id"
    case Verification => "verification"
  }

  /** The registry lookup: the variant whose tag is `s`, if any. */
  function ParseTag(s: string): (r: Option<PropertyType>)
    ensures r.Some? ==> TagName(r.value) == s
    ensures r.None? ==> forall t :: TagName(t) != s
  {
    if s == "checkbox" then Some(Checkbox)
    else if s == "created_by" then Some(CreatedBy)
    else if s == "created_time" then Some(CreatedTime)
    else if s == "date" then Some(Date)
    else if s == "email" then Some(Email)
    else if s == "files" then Some(Files)
    else if s == "formula" then Some(Formula)
    else if s == "last_edited_by" then Some(LastEditedBy)
    else if s == "last_edited_time" then Some(LastEditedTime)
    else if s == "multi_select" then Some(MultiSelect)
    else if s == "number" then Some(Number)
    else if s == "people" then Some(People)
    else if s == "phone_number" then Some(PhoneNumber)
    else if s == "relation" then Some(Relation)
    else if s == "rollup" then Some(Rollup)
    else if s == "rich_text" then Some(RichText)
    else if s == "select" then Some(Select)
    else if s == "status" then Some(Status)
    else if s == "title" then Some(Title)
    else if s == "url" then Some(Url)
    else if s == "unique_id" then Some(UniqueId)
    else if s == "verification" then Some(Verification)
    else None
  }

  /** The tag a property value carries. */
  function TagOf(p: PageProperty): PropertyType {
    match p
    case CheckboxProperty(_, _) => Checkbox
    case CreatedByProperty(_, _) => CreatedBy
    case CreatedTimeProperty(_, _) => CreatedTime
    case DateProperty(_, _) => Date
    case EmailProperty(_, _) => Email
    case FilesProperty(_, _) => Files
    case FormulaProperty(_, _) => Formula
    case LastEditedByProperty(_, _) => LastEditedBy
    case LastEditedTimeProperty(_, _) => LastEditedTime
    case MultiSelectProperty(_, _) => MultiSelect
    case NumberProperty(_, _) => Number
    case PeopleProperty(_, _) => People
    case PhoneNumberProperty(_, _) => PhoneNumber
    case RelationProperty(_, _, _) => Relation
    case RollupProperty(_, _) => Rollup
    case RichTextProperty(_, _) => RichText
    case SelectProperty(_, _) => Select
    case StatusProperty(_, _) => Status
    case TitleProperty(_, _) => Title
    case UrlProperty(_, _) => Url
    case UniqueIdProperty(_, _) => UniqueId
    case VerificationProperty(_, _) => Verification
  }

  /** The keys a variant declares: `id`, `type`, the payload under the tag, and `has_more` for relations. */
  function SchemaKeys(t: PropertyType): set<string> {
    {"id", "type", TagName(t)} + (if t == Relation then {"has_more"} else {})
  }

  /** The keys a formula case declares: its inner `type` and the member named by it. */
  function FormulaKeys(t: FormulaType): set<string> {
    {"type", FormulaTagName(t)}
  }

  /** The keys a rollup case declares: `type`, `function`, and a payload member for date and number only. */
  function RollupKeys(t: RollupType): set<string> {
    {"type", "function"} + (if t == RollupDate || t == RollupNumber then {RollupTagName(t)} else {})
  }

  function FormulaTagName(t: FormulaType): string {
    match t
    case FormulaBoolean => "boolean"
    case FormulaDate => "date"
    case FormulaNumber => "number"
    case FormulaString => "string"
  }

  function ParseFormulaTag(s: string): (r: Option<FormulaType>)
    ensures r.Some? ==> FormulaTagName(r.value) == s
    ensures r.None? ==> forall t :: FormulaTagName(t) != s
  {
    if s == "boolean" then Some(FormulaBoolean)
    else if s == "date" then Some(FormulaDate)
    else if s == "number" then Some(FormulaNumber)
    else if s == "string" then Some(FormulaString)
    else None
  }

  function FormulaTagOf(f: FormulaData): FormulaType {
    match f
    case BooleanFormulaData(_) => FormulaBoolean
    case DateFormulaData(_) => FormulaDate
    case NumberFormulaData(_) => FormulaNumber
    case StringFormulaData(_) => FormulaString
  }

  function RollupTagName(t: RollupType): string {
    match t
    case RollupDate => "date"
    case RollupNumber => "number"
    case RollupArray => "array"
    case RollupIncomplete => "incomplete"
    case RollupUnsupported => "unsupported"
  }

  function ParseRollupTag(s: string): (r: Option<RollupType>)
    ensures r.Some? ==> RollupTagName(r.value) == s
    ensures r.None? ==> forall t :: RollupTagName(t) != s
  {
    if s == "date" then Some(RollupDate)
    else if s == "number" then Some(RollupNumber)
    else if s == "array" then Some(RollupArray)
    else if s == "incomplete" then Some(RollupIncomplete)
    else if s == "unsupported" then Some(RollupUnsupported)
    else None
  }

  function RollupTagOf(r: RollupData): RollupType {
    match r
    case DateRollupData(_, _) => RollupDate
    case NumberRollupData(_, _) => RollupNumber
    case ArrayRollupData(_) => RollupArray
    case IncompleteRollupData(_) => RollupIncomplete
    case UnsupportedRollupData(_) => RollupUnsupported
  }

  // ---------------------------------------------------------------------
  // Validity: every string format and opaque value the decoders check

  predicate ValidDate(d: DateValue, s: Schemas) {
    && s.isDateTime(d.start.iso)
    && (d.end.Some? ==> s.isDateTime(d.end.value.iso))
  }

  predicate ValidFormula(f: FormulaData, s: Schemas) {
    f.DateFormulaData? ==> ValidDate(f.date, s)
  }

  predicate ValidRollup(r: RollupData, s: Schemas) {
    && s.isRollupFunction(r.rollupFunction)
    && (r.DateRollupData? ==> ValidDate(r.date, s))
  }

  predicate ValidVerification(v: VerificationData, s: Schemas) {
    && s.isVerificationState(v.state)
    && (v.verifiedBy.Some? ==> Accepts(s.isUser, v.verifiedBy.value.raw))
    && (v.date.Some? ==> ValidDate(v.date.value, s))
  }

  /** What a decoded property satisfies: everything the field validators demanded of it. */
  predicate Valid(p: PageProperty, s: Schemas) {
    match p
    case CheckboxProperty(_, _) => true
    case CreatedByProperty(_, u) => Accepts(s.isUser, u.raw)
    case CreatedTimeProperty(_, t) => s.isDateTime(t.iso)
    case DateProperty(_, d) => ValidDate(d, s)
    case EmailProperty(_, e) => s.isEmail(e)
    case FilesProperty(_, fs) => forall i :: 0 <= i < |fs| ==> Accepts(s.isFile, fs[i].raw)
    case FormulaProperty(_, f) => ValidFormula(f, s)
    case LastEditedByProperty(_, u) => Accepts(s.isUser, u.raw)
    case LastEditedTimeProperty(_, t) => s.isDateTime(t.iso)
    case MultiSelectProperty(_, os) => forall i :: 0 <= i < |os| ==> Accepts(s.isSelectOption, os[i].raw)
    case NumberProperty(_, _) => true
    case PeopleProperty(_, us) => forall i :: 0 <= i < |us| ==> Accepts(s.isUser, us[i].raw)
    case PhoneNumberProperty(_, _) => true
    case RelationProperty(_, rs, _) => forall i :: 0 <= i < |rs| ==> s.isUuid(rs[i].id)
    case RollupProperty(_, r) => ValidRollup(r, s)
    case RichTextProperty(_, ts) => forall i :: 0 <= i < |ts| ==> Accepts(s.isRichText, ts[i].raw)
    case SelectProperty(_, o) => Accepts(s.isSelectOption, o.raw)
    case StatusProperty(_, o) => Accepts(s.isStatusOption, o.raw)
    case TitleProperty(_, ts) => forall i :: 0 <= i < |ts| ==> Accepts(s.isRichText, ts[i].raw)
    case UrlProperty(_, u) => s.isUrl(u)
    case UniqueIdProperty(_, _) => true
    case VerificationProperty(_, v) => ValidVerification(v, s)
  }

  // ---------------------------------------------------------------------
  // Decoders of the shared records

  function TimestampDecoder(s: Schemas): Json -> Result<Timestamp, Error> {
    (j: Json) => if j.JString? && s.isDateTime(j.s) then Success(Timestamp(j.s)) else Failure(ShapeMismatch([]))
  }

  /** Decodes a date value: `start` is required, `end` and `time_zone` default to absent. */
  function DecodeDateValue(j: Json, s: Schemas): (r: Result<DateValue, Error>)
    ensures r.Success? ==> j.JObject? && ValidDate(r.value, s)
    ensures r.Success? ==> Get(j.fields, "start") == Some(JString(r.value.start.iso))
    ensures r.Success? ==> (r.value.end.None? <==> Missing(Get(j.fields, "end")))
    ensures r.Success? && r.value.end.Some? ==> Get(j.fields, "end") == Some(JString(r.value.end.value.iso))
    ensures r.Success? ==> (r.value.timeZone.None? <==> Missing(Get(j.fields, "time_zone")))
    ensures r.Success? && r.value.timeZone.Some? ==> Get(j.fields, "time_zone") == Some(JString(r.value.timeZone.value))
    ensures r.Success? ==> Agrees(j, EncodeDateValue(r.value))
    ensures r.Success? <==>
      && j.JObject? && "start" in j.fields && TimestampDecoder(s)(j.fields["start"]).Success?
      && (Missing(Get(j.fields, "end")) || TimestampDecoder(s)(j.fields["end"]).Success?)
      && (Missing(Get(j.fields, "time_zone")) || j.fields["time_zone"].JString?)
    ensures !j.JObject? ==> r == Failure(ShapeMismatch([]))
    ensures j.JObject? && "start" !in j.fields ==> r == Failure(ShapeMismatch([Key("start")]))
  {
    if !j.JObject? then Failure(ShapeMismatch([]))
    else
      var m := j.fields;
      var start :- At("start", Required(Get(m, "start"), TimestampDecoder(s)));
      var end :- At("end", Optional(Get(m, "end"), TimestampDecoder(s)));
      var timeZone :- At("time_zone", Optional(Get(m, "time_zone"), AsString));
      DateValueAgrees(m, DateValue(start, end, timeZone));
      Success(DateValue(start, end, timeZone))
  }

  function DateValueDecoder(s: Schemas): Json -> Result<DateValue, Error> {
    (j: Json) => DecodeDateValue(j, s)
  }

  function DecodePageReference(j: Json, s: Schemas): (r: Result<PageReference, Error>)
    ensures r.Success? <==> j.JObject? && "id" in j.fields && j.fields["id"].JString? && s.isUuid(j.fields["id"].s)
    ensures r.Success? ==> j.fields["id"] == JString(r.value.id)
    ensures r.Success? ==> Agrees(j, EncodePageReference(r.value))
  {
    if !j.JObject? then Failure(ShapeMismatch([]))
    else
      var id :- At("id", Required(Get(j.fields, "id"), Formatted(s.isUuid)));
      Success(PageReference(id))
  }

  function PageReferenceDecoder(s: Schemas): Json -> Result<PageReference, Error> {
    (j: Json) => DecodePageReference(j, s)
  }

  /** The required list of a relation's page references, each of which must carry a UUID. */
  function DecodeReferenceList(v: Option<Json>, s: Schemas): (r: Result<seq<PageReference>, Error>)
    ensures r.Success? <==>
      && v.Some? && v.value.JArray?
      && forall i :: 0 <= i < |v.value.items| ==> DecodePageReference(v.value.items[i], s).Success?
    ensures r.Success? ==>
      && |r.value| == |v.value.items|
      && forall i :: 0 <= i < |r.value| ==> DecodePageReference(v.value.items[i], s) == Success(r.value[i])
    ensures r.Success? ==> forall i :: 0 <= i < |r.value| ==> s.isUuid(r.value[i].id)
    ensures r.Success? ==> MemberAgrees(v, EncodeList(r.value, EncodePageReference))
    ensures v.None? ==> r == Failure(ShapeMismatch([]))
  {
    var rs :- Required(v, ListOf(PageReferenceDecoder(s)));
    assert forall x :: PageReferenceDecoder(s)(x) == DecodePageReference(x, s);
    ReferencesAgree(v, rs, s);
    Success(rs)
  }

  lemma ReferencesAgree(v: Option<Json>, rs: seq<PageReference>, s: Schemas)
    requires Required(v, ListOf(PageReferenceDecoder(s))) == Success(rs)
    ensures MemberAgrees(v, EncodeList(rs, EncodePageReference))
  {
    forall x | PageReferenceDecoder(s)(x).Success?
      ensures Agrees(x, EncodePageReference(PageReferenceDecoder(s)(x).value))
    {
      assert PageReferenceDecoder(s)(x) == DecodePageReference(x, s);
    }
    RequiredListAgrees(v, PageReferenceDecoder(s), EncodePageReference);
  }

  function DecodeUniqueId(j: Json): (r: Result<UniqueIdData, Error>)
    ensures r.Success? ==> j.JObject? && Get(j.fields, "number") == Some(JNumber(r.value.number as real))
    ensures r.Success? ==> (r.value.prefix.None? <==> Missing(Get(j.fields, "prefix")))
    ensures r.Success? && r.value.prefix.Some? ==> Get(j.fields, "prefix") == Some(JString(r.value.prefix.value))
    ensures r.Success? ==> Agrees(j, EncodeUniqueId(r.value))
    ensures r.Success? <==>
      && j.JObject? && "number" in j.fields && AsInt(j.fields["number"]).Success?
      && (Missing(Get(j.fields, "prefix")) || j.fields["prefix"].JString?)
    ensures !j.JObject? ==> r == Failure(ShapeMismatch([]))
    ensures j.JObject? && "number" !in j.fields ==> r == Failure(ShapeMismatch([Key("number")]))
  {
    if !j.JObject? then Failure(ShapeMismatch([]))
    else
      var number :- At("number", Required(Get(j.fields, "number"), AsInt));
      var prefix :- At("prefix", Optional(Get(j.fields, "prefix"), AsString));
      UniqueIdAgrees(j.fields, UniqueIdData(number, prefix));
      Success(UniqueIdData(number, prefix))
  }

  function DecodeVerification(j: Json, s: Schemas): (r: Result<VerificationData, Error>)
    ensures r.Success? ==> j.JObject? && ValidVerification(r.value, s)
    ensures r.Success? ==> Get(j.fields, "state") == Some(JString(r.value.state))
    ensures r.Success? ==> (r.value.verifiedBy.None? <==> Missing(Get(j.fields, "verified_by")))
    ensures r.Success? && r.value.verifiedBy.Some? ==> Get(j.fields, "verified_by") == Some(r.value.verifiedBy.value.raw)
    ensures r.Success? ==> (r.value.date.None? <==> Missing(Get(j.fields, "date")))
    ensures r.Success? && r.value.date.Some? ==>
      "date" in j.fields && DecodeDateValue(j.fields["date"], s) == Success(r.value.date.value)
    ensures r.Success? ==> Agrees(j, EncodeVerification(r.value))
    ensures r.Success? <==>
      && j.JObject? && "state" in j.fields && Formatted(s.isVerificationState)(j.fields["state"]).Success?
      && (Missing(Get(j.fields, "verified_by")) || UserDecoder(s)(j.fields["verified_by"]).Success?)
      && (Missing(Get(j.fields, "date")) || DecodeDateValue(j.fields["date"], s).Success?)
    ensures !j.JObject? ==> r == Failure(ShapeMismatch([]))
    ensures j.JObject? && "state" !in j.fields ==> r == Failure(ShapeMismatch([Key("state")]))
  {
    if !j.JObject? then Failure(ShapeMismatch([]))
    else
      var m := j.fields;
      var state :- At("state", Required(Get(m, "state"), Formatted(s.isVerificationState)));
      var verifiedBy :- At("verified_by", Optional(Get(m, "verified_by"), UserDecoder(s)));
      var date :- At("date", Optional(Get(m, "date"), DateValueDecoder(s)));
      VerificationAgrees(m, VerificationData(state, verifiedBy, date));
      Success(VerificationData(state, verifiedBy, date))
  }

  // ---------------------------------------------------------------------
  // Decoders of the nested unions

  /** The member a formula case names is present and has that case's shape. */
  predicate FormulaCaseReads(t: FormulaType, m: map<string, Json>, s: Schemas) {
    FormulaTagName(t) in m &&
    match t
    case FormulaBoolean => m["boolean"].JBool?
    case FormulaDate => DecodeDateValue(m["date"], s).Success?
    case FormulaNumber => m["number"].JNumber?
    case FormulaString => m["string"].JString?
  }

  /** A date or number rollup has its member in that case's shape; the other cases need nothing more. */
  predicate RollupCaseReads(t: RollupType, m: map<string, Json>, s: Schemas) {
    && (t == RollupDate ==> "date" in m && DecodeDateValue(m["date"], s).Success?)
    && (t == RollupNumber ==> "number" in m && m["number"].JNumber?)
  }

  /** Decodes a formula payload by its own inner tag. */
  function DecodeFormula(j: Json, s: Schemas): (r: Result<FormulaData, Error>)
    ensures r.Success? ==> j.JObject? && ValidFormula(r.value, s)
    ensures r.Success? ==> Get(j.fields, "type") == Some(JString(FormulaTagName(FormulaTagOf(r.value))))
    ensures r.Success? && r.value.BooleanFormulaData? ==> Get(j.fields, "boolean") == Some(JBool(r.value.boolean))
    ensures r.Success? && r.value.DateFormulaData? ==>
      "date" in j.fields && DecodeDateValue(j.fields["date"], s) == Success(r.value.date)
    ensures r.Success? && r.value.NumberFormulaData? ==> Get(j.fields, "number") == Some(JNumber(r.value.number))
    ensures r.Success? && r.value.StringFormulaData? ==> Get(j.fields, "string") == Some(JString(r.value.text))
    ensures r.Success? ==> Agrees(j, EncodeFormula(r.value))
    ensures r.Success? <==>
      && j.JObject? && "type" in j.fields && LookupTag(j.fields["type"], ParseFormulaTag).Some?
      && FormulaCaseReads(LookupTag(j.fields["type"], ParseFormulaTag).value, j.fields, s)
    ensures !j.JObject? ==> r == Failure(ShapeMismatch([]))
    ensures j.JObject? && "type" !in j.fields ==> r == Failure(ShapeMismatch([Key("type")]))
    ensures j.JObject? && "type" in j.fields && LookupTag(j.fields["type"], ParseFormulaTag).None?
      ==> r == Failure(UnknownVariant([Key("type")], j.fields["type"]))
  {
    if !j.JObject? then Failure(ShapeMismatch([]))
    else
      var m := j.fields;
      var tag :- ReadTag(m, ParseFormulaTag);
      match tag
      case FormulaBoolean =>
        var b :- At("boolean", Required(Get(m, "boolean"), AsBool));
        FormulaAgrees(m, BooleanFormulaData(b));
        Success(BooleanFormulaData(b))
      case FormulaDate =>
        var d :- At("date", Required(Get(m, "date"), DateValueDecoder(s)));
        FormulaAgrees(m, DateFormulaData(d));
        Success(DateFormulaData(d))
      case FormulaNumber =>
        var n :- At("number", Required(Get(m, "number"), AsNumber));
        FormulaAgrees(m, NumberFormulaData(n));
        Success(NumberFormulaData(n))
      case FormulaString =>
        var t :- At("string", Required(Get(m, "string"), AsString));
        FormulaAgrees(m, StringFormulaData(t));
        Success(StringFormulaData(t))
  }

  /** Decodes a rollup payload by its own inner tag; every case requires `function`. */
  function DecodeRollup(j: Json, s: Schemas): (r: Result<RollupData, Error>)
    ensures r.Success? ==> j.JObject? && ValidRollup(r.value, s)
    ensures r.Success? ==> Get(j.fields, "type") == Some(JString(RollupTagName(RollupTagOf(r.value))))
    ensures r.Success? ==> Get(j.fields, "function") == Some(JString(r.value.rollupFunction))
    ensures r.Success? && r.value.DateRollupData? ==>
      "date" in j.fields && DecodeDateValue(j.fields["date"], s) == Success(r.value.date)
    ensures r.Success? && r.value.NumberRollupData? ==> Get(j.fields, "number") == Some(JNumber(r.value.number))
    ensures r.Success? ==> Agrees(j, EncodeRollup(r.value))
    ensures r.Success? <==>
      && j.JObject? && "type" in j.fields && LookupTag(j.fields["type"], ParseRollupTag).Some?
      && "function" in j.fields && Formatted(s.isRollupFunction)(j.fields["function"]).Success?
      && RollupCaseReads(LookupTag(j.fields["type"], ParseRollupTag).value, j.fields, s)
    ensures !j.JObject? ==> r == Failure(ShapeMismatch([]))
    ensures j.JObject? && "type" !in j.fields ==> r == Failure(ShapeMismatch([Key("type")]))
    ensures j.JObject? && "type" in j.fields && LookupTag(j.fields["type"], ParseRollupTag).None?
      ==> r == Failure(UnknownVariant([Key("type")], j.fields["type"]))
  {
    if !j.JObject? then Failure(ShapeMismatch([]))
    else
      var m := j.fields;
      var tag :- ReadTag(m, ParseRollupTag);
      var function_ :- At("function", Required(Get(m, "function"), Formatted(s.isRollupFunction)));
      var r :- DecodeRollupCase(tag, function_, m, s);
      RollupAgrees(m, r);
      Success(r)
  }

  /** The case of a rollup whose inner tag and `function` are already read: only date and number read more. */
  function DecodeRollupCase(tag: RollupType, function_: string, m: map<string, Json>, s: Schemas)
    : (r: Result<RollupData, Error>)
    ensures r.Success? ==> RollupTagOf(r.value) == tag && r.value.rollupFunction == function_
    ensures r.Success? && r.value.DateRollupData? ==>
      "date" in m && DecodeDateValue(m["date"], s) == Success(r.value.date) && ValidDate(r.value.date, s)
    ensures r.Success? && r.value.NumberRollupData? ==> Get(m, "number") == Some(JNumber(r.value.number))
    ensures r.Failure? ==> |r.error.path| > 0 && r.error.path[0] == Key(RollupTagName(tag))
    ensures r.Success? <==> RollupCaseReads(tag, m, s)
  {
    match tag
    case RollupDate =>
      var d :- At("date", Required(Get(m, "date"), DateValueDecoder(s)));
      Success(DateRollupData(function_, d))
    case RollupNumber =>
      var n :- At("number", Required(Get(m, "number"), AsNumber));
      Success(NumberRollupData(function_, n))
    case RollupArray => Success(ArrayRollupData(function_))
    case RollupIncomplete => Success(IncompleteRollupData(function_))
    case RollupUnsupported => Success(UnsupportedRollupData(function_))
  }

  // ---------------------------------------------------------------------
  // The property decoder

  /**
   * Decodes the fields of the variant `tag` (its `id` already read) from
   * the two members it may read: `payload`, found under the key named by
   * the tag, and, for a relation only, `hasMore`, found under `has_more`
   * (each `None` when the key is absent). A failure is located under the
   * member that caused it, never under `type`.
   */
  function DecodeFields(tag: PropertyType, id: Option<string>, payload: Option<Json>, hasMore: Option<Json>, s: Schemas)
    : (r: Result<PageProperty, Error>)
    ensures r.Success? ==> TagOf(r.value) == tag && r.value.id == id && Valid(r.value, s)
    ensures r.Success? ==> MemberAgrees(payload, EncodePayload(r.value))
    ensures r.Success? && tag == Relation ==> MemberAgrees(hasMore, EncodeOptional(r.value.hasMore, EncodeBool))
    ensures tag != PhoneNumber && payload.None? ==> r == Failure(ShapeMismatch([Key(TagName(tag))]))
    ensures r.Failure? ==> |r.error.path| > 0 && r.error.path[0] in {Key(TagName(tag)), Key("has_more")}
  {
    var p :- At(TagName(tag), DecodePayload(tag, id, payload, s));
    if p.RelationProperty? then
      var more :- At("has_more", Optional(hasMore, AsBool));
      Success(p.(hasMore := more))
    else
      Success(p)
  }

  /** Variants whose payload is a single JSON scalar. */
  predicate ScalarPayload(t: PropertyType) {
    t in {Checkbox, CreatedTime, Email, LastEditedTime, Number, PhoneNumber, Url}
  }

  /** Variants whose payload is a list. */
  predicate ListPayload(t: PropertyType) {
    t in {Files, MultiSelect, People, Relation, RichText, Title}
  }

  /**
   * Decodes the payload member `v` of the variant `tag`, as found in the
   * object (`None` when the key is absent). Every payload is required
   * except the phone number's. A relation's `has_more` is not part of its
   * payload and is left absent here.
   */
  function DecodePayload(tag: PropertyType, id: Option<string>, v: Option<Json>, s: Schemas): (r: Result<PageProperty, Error>)
    ensures r.Success? ==> TagOf(r.value) == tag && r.value.id == id && Valid(r.value, s)
    ensures r.Success? ==> MemberAgrees(v, EncodePayload(r.value))
    ensures r.Success? && tag == Relation ==> r.value.hasMore.None?
    ensures tag != PhoneNumber && v.None? ==> r == Failure(ShapeMismatch([]))
    ensures tag == PhoneNumber && Missing(v) ==> r == Success(PhoneNumberProperty(id, None))
  {
    if ScalarPayload(tag) then DecodeScalarPayload(tag, id, v, s)
    else if ListPayload(tag) then DecodeListPayload(tag, id, v, s)
    else DecodeRecordPayload(tag, id, v, s)
  }

  /** The payloads that are a boolean, a number or a string. */
  function DecodeScalarPayload(tag: PropertyType, id: Option<string>, v: Option<Json>, s: Schemas): (r: Result<PageProperty, Error>)
    requires ScalarPayload(tag)
    ensures r.Success? ==> TagOf(r.value) == tag && r.value.id == id && Valid(r.value, s)
    ensures r.Success? ==> MemberAgrees(v, EncodePayload(r.value))
    ensures tag != PhoneNumber && v.None? ==> r == Failure(ShapeMismatch([]))
    ensures tag == PhoneNumber && Missing(v) ==> r == Success(PhoneNumberProperty(id, None))
  {
    match tag
    case Checkbox =>
      var b :- Required(v, AsBool);
      Success(CheckboxProperty(id, b))
    case CreatedTime =>
      var t :- Required(v, TimestampDecoder(s));
      Success(CreatedTimeProperty(id, t))
    case Email =>
      var e :- Required(v, Formatted(s.isEmail));
      Success(EmailProperty(id, e))
    case LastEditedTime =>
      var t :- Required(v, TimestampDecoder(s));
      Success(LastEditedTimeProperty(id, t))
    case Number =>
      var n :- Required(v, AsNumber);
      Success(NumberProperty(id, n))
    case PhoneNumber =>
      var ph :- Optional(v, AsString);
      Success(PhoneNumberProperty(id, ph))
    case Url =>
      var u :- Required(v, Formatted(s.isUrl));
      Success(UrlProperty(id, u))
  }

  /** The payloads that are a list, decoded element by element. */
  function DecodeListPayload(tag: PropertyType, id: Option<string>, v: Option<Json>, s: Schemas): (r: Result<PageProperty, Error>)
    requires ListPayload(tag)
    ensures r.Success? ==> TagOf(r.value) == tag && r.value.id == id && Valid(r.value, s)
    ensures r.Success? ==> MemberAgrees(v, EncodePayload(r.value))
    ensures r.Success? && tag == Relation ==> r.value.hasMore.None?
    ensures v.None? ==> r == Failure(ShapeMismatch([]))
  {
    if tag == Relation then
      var rs :- DecodeReferenceList(v, s);
      Success(RelationProperty(id, rs, None))
    else DecodeOpaqueListPayload(tag, id, v, s)
  }

  /** The lists of opaque objects: files, options, users and rich-text spans. */
  function DecodeOpaqueListPayload(tag: PropertyType, id: Option<string>, v: Option<Json>, s: Schemas)
    : (r: Result<PageProperty, Error>)
    requires ListPayload(tag) && tag != Relation
    ensures r.Success? ==> TagOf(r.value) == tag && r.value.id == id && Valid(r.value, s)
    ensures r.Success? ==> MemberAgrees(v, EncodePayload(r.value))
    ensures v.None? ==> r == Failure(ShapeMismatch([]))
  {
    match tag
    case Files =>
      var fs :- DecodeFileList(v, s);
      Success(FilesProperty(id, fs))
    case MultiSelect =>
      var os :- DecodeSelectOptionList(v, s);
      Success(MultiSelectProperty(id, os))
    case People =>
      var us :- DecodeUserList(v, s);
      Success(PeopleProperty(id, us))
    case RichText =>
      var ts :- DecodeRichTextList(v, s);
      Success(RichTextProperty(id, ts))
    case Title =>
      var ts :- DecodeRichTextList(v, s);
      Success(TitleProperty(id, ts))
  }

  /** The required list of file objects, each accepted by its schema and kept as read. */
  function DecodeFileList(v: Option<Json>, s: Schemas): (r: Result<seq<FileObject>, Error>)
    ensures r.Success? ==> forall i :: 0 <= i < |r.value| ==> Accepts(s.isFile, r.value[i].raw)
    ensures r.Success? ==> MemberAgrees(v, EncodeList(r.value, EncodeFile))
    ensures v.None? ==> r == Failure(ShapeMismatch([]))
  {
    var xs :- Required(v, ListOf(FileDecoder(s)));
    OpaqueDecodersAgree(s);
    RequiredListAgrees(v, FileDecoder(s), EncodeFile);
    Success(xs)
  }

  /** The required list of select options, each accepted by its schema and kept as read. */
  function DecodeSelectOptionList(v: Option<Json>, s: Schemas): (r: Result<seq<SelectOption>, Error>)
    ensures r.Success? ==> forall i :: 0 <= i < |r.value| ==> Accepts(s.isSelectOption, r.value[i].raw)
    ensures r.Success? ==> MemberAgrees(v, EncodeList(r.value, EncodeSelectOption))
    ensures v.None? ==> r == Failure(ShapeMismatch([]))
  {
    var xs :- Required(v, ListOf(SelectOptionDecoder(s)));
    OpaqueDecodersAgree(s);
    RequiredListAgrees(v, SelectOptionDecoder(s), EncodeSelectOption);
    Success(xs)
  }

  /** The required list of users, each accepted by its schema and kept as read. */
  function DecodeUserList(v: Option<Json>, s: Schemas): (r: Result<seq<UserObject>, Error>)
    ensures r.Success? ==> forall i :: 0 <= i < |r.value| ==> Accepts(s.isUser, r.value[i].raw)
    ensures r.Success? ==> MemberAgrees(v, EncodeList(r.value, EncodeUser))
    ensures v.None? ==> r == Failure(ShapeMismatch([]))
  {
    var xs :- Required(v, ListOf(UserDecoder(s)));
    OpaqueDecodersAgree(s);
    RequiredListAgrees(v, UserDecoder(s), EncodeUser);
    Success(xs)
  }

  /** The required list of rich-text spans, each accepted by its schema and kept as read. */
  function DecodeRichTextList(v: Option<Json>, s: Schemas): (r: Result<seq<RichTextObject>, Error>)
    ensures r.Success? ==> forall i :: 0 <= i < |r.value| ==> Accepts(s.isRichText, r.value[i].raw)
    ensures r.Success? ==> MemberAgrees(v, EncodeList(r.value, EncodeRichText))
    ensures v.None? ==> r == Failure(ShapeMismatch([]))
  {
    var xs :- Required(v, ListOf(RichTextDecoder(s)));
    OpaqueDecodersAgree(s);
    RequiredListAgrees(v, RichTextDecoder(s), EncodeRichText);
    Success(xs)
  }

  /** The payloads that are an object: a user, an option, a record or a nested union. */
  function DecodeRecordPayload(tag: PropertyType, id: Option<string>, v: Option<Json>, s: Schemas): (r: Result<PageProperty, Error>)
    requires !ScalarPayload(tag) && !ListPayload(tag)
    ensures r.Success? ==> TagOf(r.value) == tag && r.value.id == id && Valid(r.value, s)
    ensures r.Success? ==> MemberAgrees(v, EncodePayload(r.value))
    ensures v.None? ==> r == Failure(ShapeMismatch([]))
  {
    AgreementIsReflexive();
    match tag
    case CreatedBy =>
      var u :- Required(v, UserDecoder(s));
      Success(CreatedByProperty(id, u))
    case Date =>
      var d :- Required(v, DateValueDecoder(s));
      Success(DateProperty(id, d))
    case Formula =>
      var f :- Required(v, FormulaDecoder(s));
      Success(FormulaProperty(id, f))
    case LastEditedBy =>
      var u :- Required(v, UserDecoder(s));
      Success(LastEditedByProperty(id, u))
    case Rollup =>
      var r :- Required(v, RollupDecoder(s));
      Success(RollupProperty(id, r))
    case Select =>
      var o :- Required(v, SelectOptionDecoder(s));
      Success(SelectProperty(id, o))
    case Status =>
      var o :- Required(v, StatusOptionDecoder(s));
      Success(StatusProperty(id, o))
    case UniqueId =>
      var u :- Required(v, UniqueIdDecoder());
      Success(UniqueIdProperty(id, u))
    case Verification =>
      var w :- Required(v, VerificationDecoder(s));
      Success(VerificationProperty(id, w))
  }

  function FormulaDecoder(s: Schemas): Json -> Result<FormulaData, Error> {
    (j: Json) => DecodeFormula(j, s)
  }

  function RollupDecoder(s: Schemas): Json -> Result<RollupData, Error> {
    (j: Json) => DecodeRollup(j, s)
  }

  function UniqueIdDecoder(): Json -> Result<UniqueIdData, Error> {
    (j: Json) => DecodeUniqueId(j)
  }

  function VerificationDecoder(s: Schemas): Json -> Result<VerificationData, Error> {
    (j: Json) => DecodeVerification(j, s)
  }

  /**
   * Decodes a page property: reads the `type` discriminator, then the
   * optional `id`, then the fields of exactly the variant the tag names.
   */
  function Decode(j: Json, s: Schemas): (r: Result<PageProperty, Error>)
    ensures r.Success? ==> j.JObject? && Get(j.fields, "type") == Some(JString(TagName(TagOf(r.value))))
    ensures r.Success? ==> Valid(r.value, s)
    ensures r.Success? ==> (r.value.id.None? <==> Missing(Get(j.fields, "id")))
    ensures r.Success? && r.value.id.Some? ==> Get(j.fields, "id") == Some(JString(r.value.id.value))
    ensures r.Success? ==> MemberAgrees(Get(j.fields, TagName(TagOf(r.value))), EncodePayload(r.value))
    ensures r.Success? && r.value.RelationProperty? ==>
      MemberAgrees(Get(j.fields, "has_more"), EncodeOptional(r.value.hasMore, EncodeBool))
    ensures !j.JObject? ==> r == Failure(ShapeMismatch([]))
    ensures j.JObject? && "type" !in j.fields ==> r == Failure(ShapeMismatch([Key("type")]))
    ensures j.JObject? && "type" in j.fields && LookupTag(j.fields["type"], ParseTag).None?
      ==> r == Failure(UnknownVariant([Key("type")], j.fields["type"]))
    ensures r.Failure? && r.error.UnknownVariant? && r.error.path == [Key("type")]
      ==> j.JObject? && "type" in j.fields && LookupTag(j.fields["type"], ParseTag).None?
  {
    if !j.JObject? then Failure(ShapeMismatch([]))
    else
      var tag :- ReadTag(j.fields, ParseTag);
      var id :- At("id", Optional(Get(j.fields, "id"), AsString));
      DecodeFields(tag, id, Get(j.fields, TagName(tag)), Get(j.fields, "has_more"), s)
  }

  // ---------------------------------------------------------------------
  // Encoders

  function EncodeTimestamp(t: Timestamp): Json {
    JString(t.iso)
  }

  /** Writes all three members of a date value; an absent end or time zone is null. */
  function EncodeDateValue(d: DateValue): (j: Json)
    ensures j.JObject? && j.fields.Keys == {"start", "end", "time_zone"}
    ensures j.fields["start"] == JString(d.start.iso)
    ensures d.end.None? <==> j.fields["end"] == JNull
    ensures d.timeZone.None? <==> j.fields["time_zone"] == JNull
  {
    JObject(map[
      "start" := EncodeTimestamp(d.start),
      "end" := EncodeOptional(d.end, EncodeTimestamp),
      "time_zone" := EncodeOptional(d.timeZone, EncodeString)])
  }

  function EncodePageReference(r: PageReference): (j: Json)
    ensures j.JObject? && j.fields.Keys == {"id"} && j.fields["id"] == JString(r.id)
  {
    JObject(map["id" := JString(r.id)])
  }

  function EncodeUniqueId(u: UniqueIdData): (j: Json)
    ensures j.JObject? && j.fields.Keys == {"number", "prefix"}
    ensures j.fields["number"] == JNumber(u.number as real)
    ensures u.prefix.None? <==> j.fields["prefix"] == JNull
  {
    JObject(map["number" := JNumber(u.number as real), "prefix" := EncodeOptional(u.prefix, EncodeString)])
  }

  function EncodeVerification(v: VerificationData): (j: Json)
    ensures j.JObject? && j.fields.Keys == {"state", "verified_by", "date"}
    ensures j.fields["state"] == JString(v.state)
    ensures v.verifiedBy.None? ==> j.fields["verified_by"] == JNull
    ensures v.verifiedBy.Some? ==> j.fields["verified_by"] == v.verifiedBy.value.raw
    ensures v.date.None? <==> j.fields["date"] == JNull
  {
    JObject(map[
      "state" := JString(v.state),
      "verified_by" := EncodeOptional(v.verifiedBy, EncodeUser),
      "date" := EncodeOptional(v.date, EncodeDateValue)])
  }

  // The members a record decoder has read agree with the record's encoding.

  lemma DateValueAgrees(m: map<string, Json>, d: DateValue)
    requires Get(m, "start") == Some(JString(d.start.iso))
    requires d.end.None? <==> Missing(Get(m, "end"))
    requires d.end.Some? ==> Get(m, "end") == Some(JString(d.end.value.iso))
    requires d.timeZone.None? <==> Missing(Get(m, "time_zone"))
    requires d.timeZone.Some? ==> Get(m, "time_zone") == Some(JString(d.timeZone.value))
    ensures Agrees(JObject(m), EncodeDateValue(d))
  {
  }

  lemma UniqueIdAgrees(m: map<string, Json>, u: UniqueIdData)
    requires Get(m, "number") == Some(JNumber(u.number as real))
    requires u.prefix.None? <==> Missing(Get(m, "prefix"))
    requires u.prefix.Some? ==> Get(m, "prefix") == Some(JString(u.prefix.value))
    ensures Agrees(JObject(m), EncodeUniqueId(u))
  {
  }

  lemma VerificationAgrees(m: map<string, Json>, v: VerificationData)
    requires Get(m, "state") == Some(JString(v.state))
    requires v.verifiedBy.None? <==> Missing(Get(m, "verified_by"))
    requires v.verifiedBy.Some? ==> Get(m, "verified_by") == Some(v.verifiedBy.value.raw)
    requires v.date.None? <==> Missing(Get(m, "date"))
    requires v.date.Some? ==> "date" in m && Agrees(m["date"], EncodeDateValue(v.date.value))
    ensures Agrees(JObject(m), EncodeVerification(v))
  {
    if v.verifiedBy.Some? {
      AgreesReflexive(v.verifiedBy.value.raw);
    }
  }

  lemma FormulaAgrees(m: map<string, Json>, f: FormulaData)
    requires Get(m, "type") == Some(JString(FormulaTagName(FormulaTagOf(f))))
    requires f.BooleanFormulaData? ==> Get(m, "boolean") == Some(JBool(f.boolean))
    requires f.DateFormulaData? ==> "date" in m && Agrees(m["date"], EncodeDateValue(f.date))
    requires f.NumberFormulaData? ==> Get(m, "number") == Some(JNumber(f.number))
    requires f.StringFormulaData? ==> Get(m, "string") == Some(JString(f.text))
    ensures Agrees(JObject(m), EncodeFormula(f))
  {
  }

  lemma RollupAgrees(m: map<string, Json>, r: RollupData)
    requires Get(m, "type") == Some(JString(RollupTagName(RollupTagOf(r))))
    requires Get(m, "function") == Some(JString(r.rollupFunction))
    requires r.DateRollupData? ==> "date" in m && Agrees(m["date"], EncodeDateValue(r.date))
    requires r.NumberRollupData? ==> Get(m, "number") == Some(JNumber(r.number))
    ensures Agrees(JObject(m), EncodeRollup(r))
  {
  }

  /** Encodes a formula payload; its payload key is its own inner tag. */
  function EncodeFormula(f: FormulaData): (j: Json)
    ensures j.JObject? && j.fields.Keys == {"type", FormulaTagName(FormulaTagOf(f))}
    ensures j.fields["type"] == JString(FormulaTagName(FormulaTagOf(f)))
  {
    match f
    case BooleanFormulaData(b) => JObject(map["type" := JString("boolean"), "boolean" := JBool(b)])
    case DateFormulaData(d) => JObject(map["type" := JString("date"), "date" := EncodeDateValue(d)])
    case NumberFormulaData(n) => JObject(map["type" := JString("number"), "number" := JNumber(n)])
    case StringFormulaData(t) => JObject(map["type" := JString("string"), "string" := JString(t)])
  }

  /**
   * Encodes a rollup payload: every case writes `type` and `function`; only
   * the date and number cases add a payload, under their inner tag.
   */
  function EncodeRollup(r: RollupData): (j: Json)
    ensures j.JObject? && j.fields.Keys == {"type", "function"}
      + (if r.DateRollupData? || r.NumberRollupData? then {RollupTagName(RollupTagOf(r))} else {})
    ensures j.fields["type"] == JString(RollupTagName(RollupTagOf(r)))
    ensures j.fields["function"] == JString(r.rollupFunction)
  {
    var base := map["type" := JString(RollupTagName(RollupTagOf(r))), "function" := JString(r.rollupFunction)];
    match r
    case DateRollupData(_, d) => JObject(base["date" := EncodeDateValue(d)])
    case NumberRollupData(_, n) => JObject(base["number" := JNumber(n)])
    case ArrayRollupData(_) => JObject(base)
    case IncompleteRollupData(_) => JObject(base)
    case UnsupportedRollupData(_) => JObject(base)
  }

  /** The common part of every variant's wire form: `id` and the `type` tag, plus its own members. */
  function Tagged(id: Option<string>, tag: string, members: map<string, Json>): (j: Json)
    requires "id" !in members && "type" !in members
    ensures j.JObject? && j.fields.Keys == {"id", "type"} + members.Keys
    ensures j.fields["type"] == JString(tag) && j.fields["id"] == EncodeOptional(id, EncodeString)
    ensures forall k :: k in members ==> j.fields[k] == members[k]
  {
    JObject(map["id" := EncodeOptional(id, EncodeString), "type" := JString(tag)] + members)
  }

  /**
   * Encodes a page property: the tag is always written, the payload sits
   * under the key equal to the tag, and an absent `id` is written as null.
   */
  function Encode(p: PageProperty): (j: Json)
    ensures j.JObject? && j.fields.Keys == SchemaKeys(TagOf(p))
    ensures j.fields["type"] == JString(TagName(TagOf(p)))
    ensures j.fields["id"] == EncodeOptional(p.id, EncodeString)
    ensures j.fields[TagName(TagOf(p))] == EncodePayload(p)
    ensures p.RelationProperty? ==> j.fields["has_more"] == EncodeOptional(p.hasMore, EncodeBool)
  {
    var key := TagName(TagOf(p));
    var extra := if p.RelationProperty? then map["has_more" := EncodeOptional(p.hasMore, EncodeBool)] else map[];
    var members := map[key := EncodePayload(p)] + extra;
    assert p.RelationProperty? <==> TagOf(p) == Relation;
    assert members.Keys == {key} + (if TagOf(p) == Relation then {"has_more"} else {});
    assert members[key] == EncodePayload(p);
    Tagged(p.id, key, members)
  }

  /** The payload of a property, as written under its tag; an absent phone number is null. */
  function EncodePayload(p: PageProperty): (j: Json)
    ensures ListPayload(TagOf(p)) ==> j.JArray?
    ensures p.DateProperty? || p.FormulaProperty? || p.RollupProperty? || p.UniqueIdProperty? || p.VerificationProperty?
      ==> j.JObject?
    ensures p.PhoneNumberProperty? ==> (p.phoneNumber.None? <==> j == JNull)
  {
    match p
    case CheckboxProperty(_, b) => JBool(b)
    case CreatedByProperty(_, u) => EncodeUser(u)
    case CreatedTimeProperty(_, t) => EncodeTimestamp(t)
    case DateProperty(_, d) => EncodeDateValue(d)
    case EmailProperty(_, e) => JString(e)
    case FilesProperty(_, fs) => EncodeList(fs, EncodeFile)
    case FormulaProperty(_, f) => EncodeFormula(f)
    case LastEditedByProperty(_, u) => EncodeUser(u)
    case LastEditedTimeProperty(_, t) => EncodeTimestamp(t)
    case MultiSelectProperty(_, os) => EncodeList(os, EncodeSelectOption)
    case NumberProperty(_, n) => JNumber(n)
    case PeopleProperty(_, us) => EncodeList(us, EncodeUser)
    case PhoneNumberProperty(_, ph) => EncodeOptional(ph, EncodeString)
    case RelationProperty(_, rs, _) => EncodeList(rs, EncodePageReference)
    case RollupProperty(_, r) => EncodeRollup(r)
    case RichTextProperty(_, ts) => EncodeList(ts, EncodeRichText)
    case SelectProperty(_, o) => EncodeSelectOption(o)
    case StatusProperty(_, o) => EncodeStatusOption(o)
    case TitleProperty(_, ts) => EncodeList(ts, EncodeRichText)
    case UrlProperty(_, u) => JString(u)
    case UniqueIdProperty(_, u) => EncodeUniqueId(u)
    case VerificationProperty(_, v) => EncodeVerification(v)
  }

  // ---------------------------------------------------------------------
  // Factories of the write path

  /** `DateProperty.new`: a date property with no `id` holding exactly the given start, end and time zone. */
  function DateNew(start: Timestamp, end: Option<Timestamp> := None, timeZone: Option<string> := None): (p: PageProperty)
    ensures p.DateProperty? && p.id.None?
    ensures p.date.start == start && p.date.end == end && p.date.timeZone == timeZone
  {
    DateProperty(None, DateValue(start, end, timeZone))
  }

  /** `RelationProperty.create`: one page reference per identifier, in order, and no `has_more`. */
  function RelationCreate(ids: seq<string>): (p: PageProperty)
    ensures p.RelationProperty? && p.id.None? && p.hasMore.None?
    ensures |p.relation| == |ids| && forall i :: 0 <= i < |ids| ==> p.relation[i].id == ids[i]
  {
    RelationProperty(None, seq(|ids|, i requires 0 <= i < |ids| => PageReference(ids[i])), None)
  }

  /** `SelectProperty.create`: the option the option factory builds from the name and colour. */
  function SelectCreate(b: Builders, name: string, color: Option<string> := None): (p: PageProperty)
    ensures p.SelectProperty? && p.id.None? && p.select == b.createSelect(name, color)
  {
    SelectProperty(None, b.createSelect(name, color))
  }

  /** `StatusProperty.create`: the colour defaults to "default". */
  function StatusCreate(b: Builders, name: string, color: Option<string> := Some("default")): (p: PageProperty)
    ensures p.StatusProperty? && p.id.None? && p.status == b.createStatus(name, color)
  {
    StatusProperty(None, b.createStatus(name, color))
  }

  /** `StatusProperty.refer`: a status that names an existing option. */
  function StatusRefer(b: Builders, name: string): (p: PageProperty)
    ensures p.StatusProperty? && p.id.None? && p.status == b.referStatus(name)
  {
    StatusProperty(None, b.referStatus(name))
  }

  /** `TitleProperty.new`: a title of exactly one plain-text span. */
  function TitleNew(b: Builders, text: string): (p: PageProperty)
    ensures p.TitleProperty? && p.id.None? && p.title == [b.newText(text)]
  {
    TitleProperty(None, [b.newText(text)])
  }
}
