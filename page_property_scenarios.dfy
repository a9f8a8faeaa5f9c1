/**
 * Concrete wire documents and what decoding makes of them: the behaviours
 * the property union promises for typical and malformed input.
 */
module PagePropertyScenarios {
  import opened Wrappers
  import opened Wire
  import opened Collaborators
  import opened PageProperties
  import opened PagePropertyLaws

  /** A checkbox whose payload is a string is rejected at the `checkbox` member. */
  lemma CheckboxRejectsString(s: Schemas)
    ensures Decode(JObject(map["type" := JString("checkbox"), "checkbox" := JString("not-a-bool")]), s)
      == Failure(ShapeMismatch([Key("checkbox")]))
  {
    var m := map["type" := JString("checkbox"), "checkbox" := JString("not-a-bool")];
    assert Get(m, "type") == Some(JString("checkbox"));
    assert Get(m, "id") == None;
    assert Get(m, "checkbox") == Some(JString("not-a-bool"));
    DecodeOfKnownTag(m, Checkbox, s);
  }

  /** A checkbox without `id` decodes, with the id absent. */
  lemma CheckboxWithoutId(s: Schemas)
    ensures Decode(JObject(map["type" := JString("checkbox"), "checkbox" := JBool(true)]), s)
      == Success(CheckboxProperty(None, true))
  {
    var m := map["type" := JString("checkbox"), "checkbox" := JBool(true)];
    assert Get(m, "type") == Some(JString("checkbox"));
    assert Get(m, "id") == None;
    assert Get(m, "checkbox") == Some(JBool(true));
    DecodeOfKnownTag(m, Checkbox, s);
  }

  /** A tag outside the 22 kinds is an unknown variant, reported with the tag it carried. */
  lemma UnknownKindRejected(s: Schemas)
    ensures Decode(JObject(map["type" := JString("mystery_kind")]), s)
      == Failure(UnknownVariant([Key("type")], JString("mystery_kind")))
  {
  }

  /** A tag that is not a string names no variant either: it is an unknown variant, not a shape mismatch. */
  lemma NonStringKindRejected(s: Schemas)
    ensures Decode(JObject(map["type" := JNumber(5.0), "checkbox" := JBool(true)]), s)
      == Failure(UnknownVariant([Key("type")], JNumber(5.0)))
  {
  }

  /** Without a tag there is nothing to dispatch on: the missing `type` is a shape mismatch. */
  lemma MissingKindRejected(s: Schemas)
    ensures Decode(JObject(map["checkbox" := JBool(true)]), s) == Failure(ShapeMismatch([Key("type")]))
  {
  }

  /** A date whose `end` is a boolean is rejected at `end`; it never decodes to a point in time. */
  lemma DateEndMustBeTimestamp(s: Schemas)
    requires s.isDateTime("2024-01-01")
    ensures Decode(JObject(map["type" := JString("date"),
                               "date" := JObject(map["start" := JString("2024-01-01"), "end" := JBool(true)])]), s)
      == Failure(ShapeMismatch([Key("date"), Key("end")]))
  {
    var dm := map["start" := JString("2024-01-01"), "end" := JBool(true)];
    var m := map["type" := JString("date"), "date" := JObject(dm)];
    assert Get(dm, "start") == Some(JString("2024-01-01"));
    assert Get(dm, "end") == Some(JBool(true));
    assert Optional(Get(dm, "end"), TimestampDecoder(s)) == Failure(ShapeMismatch([]));
    assert DecodeDateValue(JObject(dm), s) == Failure(ShapeMismatch([Key("end")]));
    assert Within(Key("date"), ShapeMismatch([Key("end")])) == ShapeMismatch([Key("date"), Key("end")]);
    assert Get(m, "type") == Some(JString("date"));
    assert Get(m, "id") == None;
    DateReadFromDateMember(m, s);
  }

  /** A number rollup keeps its value and its aggregation function. */
  lemma RollupNumberDecodes(s: Schemas)
    requires s.isRollupFunction("sum")
    ensures Decode(JObject(map["type" := JString("rollup"),
                               "rollup" := JObject(map["type" := JString("number"), "number" := JNumber(3.5),
                                                       "function" := JString("sum")])]), s)
      == Success(RollupProperty(None, NumberRollupData("sum", 3.5)))
  {
    var inner := map["type" := JString("number"), "number" := JNumber(3.5), "function" := JString("sum")];
    var m := map["type" := JString("rollup"), "rollup" := JObject(inner)];
    assert Get(inner, "type") == Some(JString("number"));
    assert Get(inner, "function") == Some(JString("sum"));
    assert Get(inner, "number") == Some(JNumber(3.5));
    assert DecodeRollup(JObject(inner), s) == Success(NumberRollupData("sum", 3.5));
    assert Get(m, "type") == Some(JString("rollup"));
    assert Get(m, "id") == None;
    RollupSelectedByInnerTag(m, s);
  }

  /** A date rollup without its `date` member fails there, inside `rollup`. */
  lemma RollupDateWithoutPayload(s: Schemas)
    requires s.isRollupFunction("earliest_date")
    ensures Decode(JObject(map["type" := JString("rollup"),
                               "rollup" := JObject(map["type" := JString("date"),
                                                       "function" := JString("earliest_date")])]), s)
      == Failure(ShapeMismatch([Key("rollup"), Key("date")]))
  {
    var inner := map["type" := JString("date"), "function" := JString("earliest_date")];
    var m := map["type" := JString("rollup"), "rollup" := JObject(inner)];
    assert Get(inner, "type") == Some(JString("date"));
    assert Get(inner, "function") == Some(JString("earliest_date"));
    assert Get(inner, "date") == None;
    assert DecodeRollup(JObject(inner), s) == Failure(ShapeMismatch([Key("date")]));
    assert Within(Key("rollup"), ShapeMismatch([Key("date")])) == ShapeMismatch([Key("rollup"), Key("date")]);
    assert Get(m, "type") == Some(JString("rollup"));
    assert Get(m, "id") == None;
    RollupSelectedByInnerTag(m, s);
  }

  /** An array rollup as the API sends it, with its `array` member, decodes to the tag-only case. */
  lemma ArrayRollupIgnoresArrayMember(s: Schemas)
    requires s.isRollupFunction("show_original")
    ensures DecodeRollup(JObject(map["type" := JString("array"), "function" := JString("show_original"),
                                     "array" := JArray([])]), s)
      == Success(ArrayRollupData("show_original"))
  {
    var base := map["type" := JString("array"), "function" := JString("show_original")];
    var extra := map["array" := JArray([])];
    assert base + extra == map["type" := JString("array"), "function" := JString("show_original"), "array" := JArray([])];
    assert Get(base, "type") == Some(JString("array"));
    assert Get(base, "function") == Some(JString("show_original"));
    RollupIgnoresExtraKeys(base, extra, s);
  }

  /** A date rollup whose date has a null `end` and no `time_zone` decodes to a single point in time. */
  lemma RollupDateWithNullEnd(s: Schemas)
    requires s.isRollupFunction("earliest_date") && s.isDateTime("2024-01-01")
    ensures DecodeRollup(JObject(map["type" := JString("date"), "function" := JString("earliest_date"),
                                     "date" := JObject(map["start" := JString("2024-01-01"), "end" := JNull])]), s)
      == Success(DateRollupData("earliest_date", DateValue(Timestamp("2024-01-01"), None, None)))
  {
    var dm := map["start" := JString("2024-01-01"), "end" := JNull];
    var m := map["type" := JString("date"), "function" := JString("earliest_date"), "date" := JObject(dm)];
    assert Get(dm, "start") == Some(JString("2024-01-01"));
    assert Get(dm, "end") == Some(JNull);
    assert Get(dm, "time_zone") == None;
    assert DecodeDateValue(JObject(dm), s) == Success(DateValue(Timestamp("2024-01-01"), None, None));
    assert Get(m, "type") == Some(JString("date"));
    assert Get(m, "function") == Some(JString("earliest_date"));
    assert Get(m, "date") == Some(JObject(dm));
  }

  /** A page reference that carries members besides `id` is read by its `id` alone. */
  lemma ReferenceWithExtraMember(u: string, s: Schemas)
    requires s.isUuid(u)
    ensures DecodeReferenceList(Some(JArray([JObject(map["id" := JString(u), "object" := JString("page")])])), s)
      == Success([PageReference(u)])
  {
    var ref := JObject(map["id" := JString(u), "object" := JString("page")]);
    assert DecodePageReference(ref, s).Success?;
    assert DecodePageReference(ref, s).value.id == u;
    var r := DecodeReferenceList(Some(JArray([ref])), s);
    assert r.Success? && |r.value| == 1;
    assert DecodePageReference(ref, s) == Success(r.value[0]);
    assert r.value[0] == PageReference(u);
    assert r.value == [PageReference(u)];
  }

  /** A unique id without `prefix` decodes, with the prefix absent. */
  lemma UniqueIdWithoutPrefix()
    ensures DecodeUniqueId(JObject(map["number" := JNumber(3.0)])) == Success(UniqueIdData(3, None))
  {
    var m := map["number" := JNumber(3.0)];
    assert Get(m, "number") == Some(JNumber(3.0));
    assert Get(m, "prefix") == None;
    assert (3.0).Floor == 3;
  }

  /** A unique_id property whose record has no `prefix` decodes, with the prefix absent. */
  lemma UniqueIdPropertyWithoutPrefix(s: Schemas)
    ensures Decode(JObject(map["type" := JString("unique_id"),
                               "unique_id" := JObject(map["number" := JNumber(3.0)])]), s)
      == Success(UniqueIdProperty(None, UniqueIdData(3, None)))
  {
    var m := map["type" := JString("unique_id"), "unique_id" := JObject(map["number" := JNumber(3.0)])];
    assert Get(m, "type") == Some(JString("unique_id"));
    assert Get(m, "id") == None;
    UniqueIdWithoutPrefix();
    UniqueIdReadFromMember(m, s);
  }

  /** A verification property holding only its `state` decodes, with no verifier and no date. */
  lemma VerificationWithStateOnly(s: Schemas)
    requires s.isVerificationState("unverified")
    ensures Decode(JObject(map["type" := JString("verification"),
                               "verification" := JObject(map["state" := JString("unverified")])]), s)
      == Success(VerificationProperty(None, VerificationData("unverified", None, None)))
  {
    var vm := map["state" := JString("unverified")];
    var m := map["type" := JString("verification"), "verification" := JObject(vm)];
    assert Get(vm, "state") == Some(JString("unverified"));
    assert Get(vm, "verified_by") == None;
    assert Get(vm, "date") == None;
    assert DecodeVerification(JObject(vm), s) == Success(VerificationData("unverified", None, None));
    assert Get(m, "type") == Some(JString("verification"));
    assert Get(m, "id") == None;
    VerificationReadFromMember(m, s);
  }

  /** A formula whose result is a date is still a formula property, never a date property. */
  lemma FormulaOfDateStaysFormula(s: Schemas)
    requires s.isDateTime("2024-01-01")
    ensures Decode(JObject(map["type" := JString("formula"),
                               "formula" := JObject(map["type" := JString("date"),
                                                        "date" := JObject(map["start" := JString("2024-01-01")])])]), s)
      == Success(FormulaProperty(None, DateFormulaData(DateValue(Timestamp("2024-01-01"), None, None))))
  {
    var dm := map["start" := JString("2024-01-01")];
    var inner := map["type" := JString("date"), "date" := JObject(dm)];
    var m := map["type" := JString("formula"), "formula" := JObject(inner)];
    assert Get(dm, "start") == Some(JString("2024-01-01"));
    assert Get(dm, "end") == None;
    assert Get(dm, "time_zone") == None;
    assert DecodeDateValue(JObject(dm), s) == Success(DateValue(Timestamp("2024-01-01"), None, None));
    assert Get(inner, "type") == Some(JString("date"));
    assert Get(inner, "date") == Some(JObject(dm));
    assert DecodeFormula(JObject(inner), s) == Success(DateFormulaData(DateValue(Timestamp("2024-01-01"), None, None)));
    assert Get(m, "type") == Some(JString("formula"));
    assert Get(m, "id") == None;
    FormulaSelectedByInnerTag(m, s);
  }
}
