# Notion page property values and list envelopes, in Dafny

This project models two parts of a set of typed models for the Notion API.

- **The catalog of page property values.** A closed union of 22 variants.
  - Every variant has an optional `id` and a fixed `type` tag.
  - Its payload sits under the key of the same name (`checkbox`, `created_by`, …, `verification`).
  - The `formula` and `rollup` payloads are unions of their own, selected by their own inner `type`.
  - A rollup case also carries a required `function`.
  - There are shared records: `DateValue`, `PageReference`, `UniqueIDData` and `VerificationData`.
  - Factory constructors build variants for the write path: `DateProperty.new`, `RelationProperty.create`, `SelectProperty.create`, `StatusProperty.create`, `StatusProperty.refer` and `TitleProperty.new`.
- **The list envelope of paginated responses.** It is generic in its element type and has:
  - the constant `object` "list";
  - the ordered `results`;
  - `has_more`, an optional `next_cursor` and an optional `next_url`;
  - a `type` drawn from seven element kinds;
  - a UUID `request_id`.
  - The request parameters `start_cursor` and `page_size` (1 to 100) belong to this part too.

Both are declarative in the source: immutable records and literal-tagged unions. The model is therefore made of datatypes, functions and lemmas.

The library validates JSON. The model makes that explicit:

- `Json` is a JSON value datatype.
- `Decode` and `DecodeEnvelope` are the validators. Each returns a `Result` whose error is either `UnknownVariant(path, tag)` or `ShapeMismatch(path)`, located by a path of keys and indices. An unknown variant carries the discriminator value it found, as JSON: a string outside the table, or a value that is not a string at all.
- Decoding and encoding are tied in both directions. A valid value decodes from its encoding to itself, and a decoded value, encoded again, agrees with the raw JSON on every member it models (`Wire.Agrees`).
- `Encode` and `EncodeEnvelope` are the serialisers.

Files:

| file | module | contents |
|---|---|---|
| wrappers.dfy | Wrappers | `Option`, `Result` |
| wire.dfy | Wire | JSON values, error paths, field readers, the list decoder, the tag reader, and their round-trip lemmas |
| collaborators.dfy | Collaborators | The opaque types the catalog uses but does not define (users, files, rich text, options). They come with `Schemas`, the format validators, and `Builders`, the factories of those opaque types. Both are passed in as values. |
| page_property.dfy | PageProperties | the catalog, its decoder and encoder, and the factories |
| page_property_laws.dfy | PagePropertyLaws | tag tables, round trips, locality of decoding, nested unions, factory equivalence |
| page_property_scenarios.dfy | PagePropertyScenarios | concrete documents and their decoding |
| pagination.dfy | Pagination | the list envelope, `page_size` and `start_cursor` |
| pagination_laws.dfy | PaginationLaws | envelope round trip, fail-fast, rejection of unknown kinds, the page-size bound |

Conventions of the model:

- **Decoding stops at the first failing member.** The discriminator `type` is read first, then the other members in declaration order: for a property, `id` and then the payload. A list fails at its first bad element.
- **Members a variant does not declare are ignored**, in a property, in its nested records and unions, and in the list envelope.
- **Absent and `null` decode alike** for optional members.
- **Encoding writes every declared member.** An absent optional value is written as `null`.
- **Numbers are `real`.** An integer member accepts only integral values.

## Model

| member | source | states |
|---|---|---|
| PageProperties.TagName | pydantic_api/notion/models/objects/properties/page_property.py:350-376 | No tag's literal is `id`, `type` or `has_more`, so a payload key never collides with the members every variant shares. |
| PageProperties.ParseTag | pydantic_api/notion/models/objects/properties/page_property.py:350-376 | The tag table has a literal for every one of the 22 variants. A string is either the literal of exactly the tag it parses to, or the literal of no tag. |
| PagePropertyLaws.ParseTagName | pydantic_api/notion/models/objects/properties/page_property.py:350-376 | Parsing a tag's own literal gives back that tag, for all 22 tags. |
| PageProperties.ParseFormulaTag | pydantic_api/notion/models/objects/properties/page_property.py:100-127 | The inner formula tags boolean, date, number and string: a string parses to the tag whose literal it is, and to none otherwise. |
| PageProperties.ParseRollupTag | pydantic_api/notion/models/objects/properties/page_property.py:194-233 | The inner rollup tags date, number, array, incomplete and unsupported: the same two directions. |
| PagePropertyLaws.ParseFormulaTagName | pydantic_api/notion/models/objects/properties/page_property.py:100-127 | Parsing an inner formula tag's literal gives back that tag. |
| PagePropertyLaws.ParseRollupTagName | pydantic_api/notion/models/objects/properties/page_property.py:194-233 | Parsing an inner rollup tag's literal gives back that tag. |
| PageProperties.Decode | pydantic_api/notion/models/objects/properties/page_property.py:27-32 | A decoded property's `type` member is the literal of its variant's tag, and the result satisfies that variant's field constraints. `id` is absent exactly when the member is missing or null; otherwise it is the member's string. The member under the tag's key agrees with the encoded payload, and a relation's `has_more` with its encoding. A non-object fails at the root and a missing `type` is a shape mismatch at `type`. An unknown-variant error at `type` is returned exactly when `type` is present but is not one of the 22 literals (a non-string included), and it carries the value found. |
| PageProperties.DecodeFields | pydantic_api/notion/models/objects/properties/page_property.py:350-376 | The fields of the variant a tag selects are read from exactly two members: the one named by the tag, and `has_more` for a relation only. The result has exactly that tag, carries the given `id`, is valid, and agrees with both members. A missing payload fails at the tag's key, except for the phone number. Errors are located under one of those two members, never under `type`. |
| PageProperties.DecodePayload | pydantic_api/notion/models/objects/properties/page_property.py:36-346 | Every variant's payload decodes to a property of that variant with the given `id`, valid, agreeing with the member it was read from, and with a relation's `has_more` left absent. A missing payload is a shape mismatch for every variant except the phone number; a missing or null phone number decodes to an absent number. |
| PageProperties.DecodeScalarPayload | pydantic_api/notion/models/objects/properties/page_property.py:36-40 | For the variants with a scalar payload (checkbox, created_time, email, last_edited_time, number, phone_number, url): the same tag, `id`, validity, agreement and missing-payload guarantees. |
| PageProperties.DecodeListPayload | pydantic_api/notion/models/objects/properties/page_property.py:92-96 | For the variants with a list payload (files, multi_select, people, relation, rich_text, title): the same guarantees, with `has_more` absent. A missing list is a shape mismatch. |
| PageProperties.DecodeRecordPayload | pydantic_api/notion/models/objects/properties/page_property.py:44-46 | For the variants with a record or union payload (created_by, date, formula, last_edited_by, rollup, select, status, unique_id, verification): the same guarantees, and a missing payload is a shape mismatch. |
| PageProperties.DecodeDateValue | pydantic_api/notion/models/objects/properties/page_property.py:56-63 | `start` is required and must be an ISO-8601 timestamp: the decoded start is the member's string, and without it decoding fails at `start`. `end` and `time_zone` are absent exactly when their members are missing or null; when present they are the members' strings, and an absent `end` means a single point in time. Decoding succeeds exactly when `start` is a timestamp, `end` is missing, null or a timestamp, and `time_zone` is missing, null or a string, each independently of the others. The decoded value agrees with the object, and a non-object is a shape mismatch. |
| PageProperties.DecodePageReference | pydantic_api/notion/models/objects/properties/page_property.py:176-177 | A page reference decodes exactly when its `id` is a UUID string, keeps that string, and agrees with the object. |
| PageProperties.DecodeUniqueId | pydantic_api/notion/models/objects/properties/page_property.py:315-319 | `number` is required and is the member's integer; without it decoding fails at `number`. `prefix` is absent exactly when missing or null, and otherwise is the member's string. Decoding succeeds exactly when `number` is an integer and `prefix` is missing, null or a string, so an object without `prefix` is accepted. The record agrees with the object, and a non-object is a shape mismatch. |
| PageProperties.DecodeVerification | pydantic_api/notion/models/objects/properties/page_property.py:332-341 | `state` is required and is the member's verification-state literal; without it decoding fails at `state`. `verified_by` is absent exactly when missing or null, and is otherwise the member as read. `date` is likewise optional, and when present is what the date decoder reads from the member. Decoding succeeds exactly when `state` is a verification-state literal and each of `verified_by` and `date` is missing, null or readable, so an object without them is accepted. The record is valid, agrees with the object, and a non-object is a shape mismatch. |
| PageProperties.DecodeFormula | pydantic_api/notion/models/objects/properties/page_property.py:100-127 | A decoded formula is valid and its inner `type` is the literal of its case. Its value is the member that tag names: the boolean, number or string found there, or the date the date decoder reads. Decoding succeeds exactly when the inner `type` is one of the four literals and the member it names is present with that case's shape, a date being anything the date decoder accepts. It agrees with the object. A missing inner `type` is a shape mismatch at `type`; a present one outside the four literals, a non-string included, is an unknown-variant error carrying that value. |
| PageProperties.DecodeRollup | pydantic_api/notion/models/objects/properties/page_property.py:194-233 | A decoded rollup is valid, its inner `type` is the literal of its case, and its `function` member is present and is the function it keeps. A date or number case holds what its member decodes to. Decoding succeeds exactly when the inner `type` is one of the five literals, `function` is a rollup function, and a date or number case has its member in that case's shape. It agrees with the object. A missing inner `type` is a shape mismatch at `type`; an unknown one, a non-string included, is an unknown-variant error carrying that value. |
| PageProperties.DecodeRollupCase | pydantic_api/notion/models/objects/properties/page_property.py:199-221 | Once tag and function are read, the case keeps both. A date case holds the valid date decoded from `date`, and a number case holds the number found under `number`. It succeeds exactly when a date case has a readable `date` and a number case a number under `number`, so the other three cases always succeed and read nothing more. A failure is located under the case's own key. |
| PageProperties.DecodeReferenceList | pydantic_api/notion/models/objects/properties/page_property.py:180-182 | A relation's list is required. It decodes exactly when the member is an array every element of which is a page reference, whatever other members the elements carry; the decoded list has one reference per element, in order. Every decoded reference carries a UUID, and the list agrees with the member element by element. |
| PageProperties.DecodeOpaqueListPayload | pydantic_api/notion/models/objects/properties/page_property.py:92-96 | For files, multi_select, people, rich_text and title: the tag, `id`, validity and agreement guarantees, and a missing list is a shape mismatch. |
| PageProperties.DecodeFileList | pydantic_api/notion/models/objects/properties/page_property.py:92-96 | A required list of file objects, each accepted by the file schema, agreeing with the member element by element. |
| PageProperties.DecodeSelectOptionList | pydantic_api/notion/models/objects/properties/page_property.py:148-150 | A required list of select options, each accepted by the option schema, agreeing with the member element by element. |
| PageProperties.DecodeUserList | pydantic_api/notion/models/objects/properties/page_property.py:160-162 | A required list of users, each accepted by the user schema, agreeing with the member element by element. |
| PageProperties.DecodeRichTextList | pydantic_api/notion/models/objects/properties/page_property.py:249-251 | A required list of rich-text spans, each accepted by the rich-text schema, agreeing with the member element by element; title uses it too. |
| PageProperties.Valid | pydantic_api/notion/models/objects/properties/page_property.py:36-346 | Definition: the field constraints of each variant, as its field types demand: a schema-accepted user, option, file or span; an ISO-8601 date-time; an email address; an HTTP URL; a UUID per relation reference; a valid date, formula, rollup or verification record. Every round trip is stated for values that satisfy it. |
| PageProperties.ValidDate | pydantic_api/notion/models/objects/properties/page_property.py:56-63 | Definition: `start`, and `end` when present, are ISO-8601 date-times. |
| PageProperties.ValidFormula | pydantic_api/notion/models/objects/properties/page_property.py:100-127 | Definition: a date formula holds a valid date; the other cases carry no constraint. |
| PageProperties.ValidRollup | pydantic_api/notion/models/objects/properties/page_property.py:194-233 | Definition: `function` is a rollup-function literal, and a date rollup holds a valid date. |
| PageProperties.ValidVerification | pydantic_api/notion/models/objects/properties/page_property.py:332-341 | Definition: `state` is a verification-state literal, a present `verified_by` is an accepted user, and a present `date` is valid. |
| PageProperties.Encode | pydantic_api/notion/models/objects/properties/page_property.py:36-40 | An encoded property is an object whose keys are exactly `id`, `type` and the key named by the tag (plus `has_more` for relations). `type` is the tag's literal, `id` is the id or null, and the payload sits under the tag's key. |
| PageProperties.Tagged | pydantic_api/notion/models/objects/properties/page_property.py:27-32 | The envelope of every variant: exactly `id` and `type` plus the payload members, each as given. |
| PageProperties.EncodeFormula | pydantic_api/notion/models/objects/properties/page_property.py:100-127 | A formula payload is written as exactly its inner `type` and the member that tag names. |
| PageProperties.EncodeRollup | pydantic_api/notion/models/objects/properties/page_property.py:194-233 | A rollup payload always has `type` and `function`. Only the date and number cases add a member under their tag. |
| PageProperties.EncodeDateValue | pydantic_api/notion/models/objects/properties/page_property.py:56-63 | A date value is written with exactly `start`, `end` and `time_zone`. `start` is its string; `end` and `time_zone` are null exactly when absent. |
| PageProperties.EncodePageReference | pydantic_api/notion/models/objects/properties/page_property.py:176-177 | A page reference is written as exactly its `id` string. |
| PageProperties.EncodeUniqueId | pydantic_api/notion/models/objects/properties/page_property.py:315-319 | A unique-id record is written with exactly `number` and `prefix`. `number` is its integer, and `prefix` is null exactly when absent. |
| PageProperties.EncodeVerification | pydantic_api/notion/models/objects/properties/page_property.py:332-341 | A verification record is written with exactly `state`, `verified_by` and `date`. `state` is its literal, `verified_by` is null or the user as read, and `date` is null exactly when absent. |
| PageProperties.EncodePayload | pydantic_api/notion/models/objects/properties/page_property.py:36-346 | A list payload is written as an array and a structured payload as an object. A phone number is null exactly when absent. |
| PageProperties.DateNew | pydantic_api/notion/models/objects/properties/page_property.py:75-82 | `DateProperty.new` yields a date property with no `id` whose start, end and time zone are exactly the arguments. |
| PageProperties.RelationCreate | pydantic_api/notion/models/objects/properties/page_property.py:188-190 | `RelationProperty.create` yields one reference per identifier, of equal length and in order, with no `has_more` and no `id`. |
| PageProperties.SelectCreate | pydantic_api/notion/models/objects/properties/page_property.py:259-265 | `SelectProperty.create` holds the option built from the name and colour; the colour defaults to absent. |
| PageProperties.StatusCreate | pydantic_api/notion/models/objects/properties/page_property.py:273-279 | `StatusProperty.create` holds the option built from the name and colour; the colour defaults to "default". |
| PageProperties.StatusRefer | pydantic_api/notion/models/objects/properties/page_property.py:281-286 | `StatusProperty.refer` holds the option that refers to the named status. |
| PageProperties.TitleNew | pydantic_api/notion/models/objects/properties/page_property.py:294-305 | `TitleProperty.new` holds a title of exactly one plain-text span of the given text. |
| PagePropertyLaws.DateValueRoundTrip | pydantic_api/notion/models/objects/properties/page_property.py:56-63 | A valid date value decodes from its encoding to itself. |
| PagePropertyLaws.UniqueIdRoundTrip | pydantic_api/notion/models/objects/properties/page_property.py:315-319 | A unique-id record decodes from its encoding to itself. |
| PagePropertyLaws.VerificationRoundTrip | pydantic_api/notion/models/objects/properties/page_property.py:332-341 | A valid verification record decodes from its encoding to itself. |
| PagePropertyLaws.FormulaRoundTrip | pydantic_api/notion/models/objects/properties/page_property.py:100-127 | A valid formula payload decodes from its encoding to itself. |
| PagePropertyLaws.RollupRoundTrip | pydantic_api/notion/models/objects/properties/page_property.py:194-233 | A valid rollup payload decodes from its encoding to itself. |
| PagePropertyLaws.ScalarPayloadRoundTrip | pydantic_api/notion/models/objects/properties/page_property.py:36-40 | Every valid scalar payload, an absent phone number included, is read back from its encoding. |
| PagePropertyLaws.ListPayloadRoundTrip | pydantic_api/notion/models/objects/properties/page_property.py:92-96 | Every valid list payload is read back from its encoding, element by element and in order. |
| PagePropertyLaws.OpaqueListPayloadRoundTrip | pydantic_api/notion/models/objects/properties/page_property.py:92-96 | The same for the lists of files, options, users and rich-text spans. |
| PagePropertyLaws.RecordPayloadRoundTrip | pydantic_api/notion/models/objects/properties/page_property.py:44-46 | Every valid record or union payload is read back from its encoding. |
| PagePropertyLaws.StructuredPayloadRoundTrip | pydantic_api/notion/models/objects/properties/page_property.py:56-63 | The same for the payloads with a structure of their own: date, formula, rollup, unique_id, verification. |
| PagePropertyLaws.DatePayloadRoundTrip | pydantic_api/notion/models/objects/properties/page_property.py:66-73 | A date property's payload is read back from its encoding. |
| PagePropertyLaws.FormulaPayloadRoundTrip | pydantic_api/notion/models/objects/properties/page_property.py:130-132 | A formula property's payload is read back from its encoding. |
| PagePropertyLaws.RollupPayloadRoundTrip | pydantic_api/notion/models/objects/properties/page_property.py:236-245 | A rollup property's payload is read back from its encoding. |
| PagePropertyLaws.UniqueIdPayloadRoundTrip | pydantic_api/notion/models/objects/properties/page_property.py:322-328 | A unique_id property's payload is read back from its encoding. |
| PagePropertyLaws.VerificationPayloadRoundTrip | pydantic_api/notion/models/objects/properties/page_property.py:344-346 | A verification property's payload is read back from its encoding. |
| PagePropertyLaws.PayloadRoundTrip | pydantic_api/notion/models/objects/properties/page_property.py:350-376 | Every valid property's payload is read back from the member its tag names. |
| PagePropertyLaws.FieldsRoundTrip | pydantic_api/notion/models/objects/properties/page_property.py:350-376 | For every valid property, the field decoder of its own tag reads back what `Encode` wrote. |
| PagePropertyLaws.RoundTrip | pydantic_api/notion/models/objects/properties/page_property.py:350-376 | Decoding inverts encoding: every valid property decodes from its encoding to itself, tag and `id` included. |
| PagePropertyLaws.DecodeIsCanonical | pydantic_api/notion/models/objects/properties/page_property.py:350-376 | A corollary of `RoundTrip`: re-encoding a decoded property and decoding again gives the same result. |
| PagePropertyLaws.DecodeAgreesWithRaw | pydantic_api/notion/models/objects/properties/page_property.py:350-376 | The converse of the round trip: a successfully decoded property, encoded again, agrees with the raw object on every member its variant declares. Undeclared members are dropped, and a missing optional member comes back as null. |
| PagePropertyLaws.PropertyAgrees | pydantic_api/notion/models/objects/properties/page_property.py:27-32 | A property whose `type`, `id`, payload and (for a relation) `has_more` agree with the members of an object agrees with that object as a whole. |
| PagePropertyLaws.HasMoreOnlyForRelations | pydantic_api/notion/models/objects/properties/page_property.py:180-186 | Only a relation reads `has_more`; every other variant decodes the same whatever that member holds. |
| PagePropertyLaws.NonRelationFields | pydantic_api/notion/models/objects/properties/page_property.py:180-186 | Every variant other than relation is exactly its payload, located under its tag; `has_more` plays no part. |
| PagePropertyLaws.DecodeIgnoresExtraKeys | pydantic_api/notion/models/objects/properties/page_property.py:350-376 | Adding members the selected variant does not declare changes neither a successful result nor the error. |
| PagePropertyLaws.DateValueIgnoresExtraKeys | pydantic_api/notion/models/objects/properties/page_property.py:56-63 | A date value's decoding, result or error, is unchanged by members other than `start`, `end` and `time_zone`. |
| PagePropertyLaws.UniqueIdIgnoresExtraKeys | pydantic_api/notion/models/objects/properties/page_property.py:315-319 | A unique id's decoding is unchanged by members other than `number` and `prefix`. |
| PagePropertyLaws.VerificationIgnoresExtraKeys | pydantic_api/notion/models/objects/properties/page_property.py:332-341 | A verification record's decoding is unchanged by members other than `state`, `verified_by` and `date`. |
| PagePropertyLaws.FormulaIgnoresExtraKeys | pydantic_api/notion/models/objects/properties/page_property.py:100-127 | Once the inner tag names a case, a formula's decoding is unchanged by members other than `type` and the member that tag names. |
| PagePropertyLaws.RollupIgnoresExtraKeys | pydantic_api/notion/models/objects/properties/page_property.py:194-233 | Once the inner tag names a case, a rollup's decoding is unchanged by members other than `type`, `function` and, for date and number, the member that tag names. |
| PagePropertyLaws.DecodeOfKnownTag | pydantic_api/notion/models/objects/properties/page_property.py:350-376 | An object whose `type` is a known tag and whose `id` is absent, null or a string decodes to exactly that tag's fields. |
| PagePropertyLaws.FormulaSelectedByInnerTag | pydantic_api/notion/models/objects/properties/page_property.py:124-132 | A formula property is selected by the outer tag alone. Its payload is what the formula union decodes by the inner tag, and an inner failure is reported under `formula`. |
| PagePropertyLaws.DateReadFromDateMember | pydantic_api/notion/models/objects/properties/page_property.py:66-73 | A date property's payload is exactly what the date record decodes from the `date` member, and a failure there is reported under `date`. |
| PagePropertyLaws.UniqueIdReadFromMember | pydantic_api/notion/models/objects/properties/page_property.py:315-328 | A unique_id property's payload is exactly what the unique-id record decodes from the `unique_id` member, so the record's acceptance (missing `prefix`, extra members) carries over to the property; a failure there is reported under `unique_id`. |
| PagePropertyLaws.VerificationReadFromMember | pydantic_api/notion/models/objects/properties/page_property.py:332-346 | A verification property's payload is exactly what the verification record decodes from the `verification` member, so a record without `verified_by` or `date`, or with extra members, is accepted at the property level too; a failure there is reported under `verification`. |
| PagePropertyLaws.RollupSelectedByInnerTag | pydantic_api/notion/models/objects/properties/page_property.py:224-245 | The same for rollups, with failures reported under `rollup`. |
| PagePropertyLaws.RollupRequiresFunction | pydantic_api/notion/models/objects/properties/page_property.py:194-196 | Whatever its known inner tag, a rollup without `function` fails at `function`. |
| PagePropertyLaws.TagOnlyRollups | pydantic_api/notion/models/objects/properties/page_property.py:209-221 | The array, incomplete and unsupported cases decode from `type` and `function` alone. |
| PagePropertyLaws.DateNewValid | pydantic_api/notion/models/objects/properties/page_property.py:75-82 | What `DateProperty.new` builds is valid exactly when its start and its end, if any, are ISO-8601 date-times: the case in which the library's constructor does not raise. |
| PagePropertyLaws.RelationCreateValid | pydantic_api/notion/models/objects/properties/page_property.py:188-190 | What `RelationProperty.create` builds is valid exactly when every identifier is a UUID: the case in which the library does not raise. |
| PagePropertyLaws.DateNewMatchesWire | pydantic_api/notion/models/objects/properties/page_property.py:75-82 | The date document with its absent members omitted decodes to exactly what `DateProperty.new` builds. |
| PagePropertyLaws.DateWireValue | pydantic_api/notion/models/objects/properties/page_property.py:56-63 | A date object with its absent members left out decodes to the date value with those members absent. |
| PagePropertyLaws.RelationCreateMatchesWire | pydantic_api/notion/models/objects/properties/page_property.py:188-190 | The relation document with one `{"id": …}` per identifier decodes to exactly what `RelationProperty.create` builds. |
| PagePropertyLaws.RelationWireRefs | pydantic_api/notion/models/objects/properties/page_property.py:188-190 | The list of reference objects decodes, as a relation list, to the factory's references, in order. |
| PagePropertyLaws.RelationReadFromMembers | pydantic_api/notion/models/objects/properties/page_property.py:180-186 | A relation is read from `relation` and then from its optional `has_more`, nothing else; a failure of either is reported under that member. |
| PagePropertyLaws.SelectCreateMatchesWire | pydantic_api/notion/models/objects/properties/page_property.py:259-265 | The select document holding the built option decodes to exactly what `SelectProperty.create` builds. |
| PagePropertyLaws.StatusCreateMatchesWire | pydantic_api/notion/models/objects/properties/page_property.py:273-279 | The same for `StatusProperty.create`. |
| PagePropertyLaws.StatusReferMatchesWire | pydantic_api/notion/models/objects/properties/page_property.py:281-286 | The same for `StatusProperty.refer`. |
| PagePropertyLaws.TitleNewMatchesWire | pydantic_api/notion/models/objects/properties/page_property.py:294-305 | The title document holding one built span decodes to exactly what `TitleProperty.new` builds. |
| PagePropertyScenarios.CheckboxRejectsString | pydantic_api/notion/models/objects/properties/page_property.py:36-40 | A checkbox whose payload is a string fails at `checkbox`. |
| PagePropertyScenarios.CheckboxWithoutId | pydantic_api/notion/models/objects/properties/page_property.py:27-32 | A checkbox without `id` decodes with the id absent. |
| PagePropertyScenarios.UnknownKindRejected | pydantic_api/notion/models/objects/properties/page_property.py:350-376 | The tag "mystery_kind" is an unknown variant that carries that tag. |
| PagePropertyScenarios.NonStringKindRejected | pydantic_api/notion/models/objects/properties/page_property.py:350-376 | A numeric `type` names no variant: it is an unknown variant that carries the number, not a shape mismatch. |
| PagePropertyScenarios.MissingKindRejected | pydantic_api/notion/models/objects/properties/page_property.py:350-376 | An object without `type` is a shape mismatch at `type`. |
| PagePropertyScenarios.DateEndMustBeTimestamp | pydantic_api/notion/models/objects/properties/page_property.py:59-62 | A date whose `end` is a boolean, which is no date-time, fails at `date`, `end`. |
| PagePropertyScenarios.RollupNumberDecodes | pydantic_api/notion/models/objects/properties/page_property.py:204-206 | A number rollup keeps its value 3.5 and its function "sum". |
| PagePropertyScenarios.ArrayRollupIgnoresArrayMember | pydantic_api/notion/models/objects/properties/page_property.py:209-211 | An array rollup sent with its `array` member decodes to the array case with its function; the member is ignored. |
| PagePropertyScenarios.RollupDateWithNullEnd | pydantic_api/notion/models/objects/properties/page_property.py:199-201 | A date rollup whose date has `end: null` and no `time_zone` decodes to a single point in time. |
| PagePropertyScenarios.ReferenceWithExtraMember | pydantic_api/notion/models/objects/properties/page_property.py:176-182 | A page reference carrying `object` besides `id` is read by its `id` alone. |
| PagePropertyScenarios.UniqueIdPropertyWithoutPrefix | pydantic_api/notion/models/objects/properties/page_property.py:315-328 | `{"type": "unique_id", "unique_id": {"number": 3}}` decodes to a unique_id property with number 3 and no prefix. |
| PagePropertyScenarios.VerificationWithStateOnly | pydantic_api/notion/models/objects/properties/page_property.py:332-346 | A verification property whose record holds only `state` decodes, with no verifier and no date. |
| PagePropertyScenarios.UniqueIdWithoutPrefix | pydantic_api/notion/models/objects/properties/page_property.py:315-319 | `{"number": 3}` decodes to the unique id 3 with no prefix. |
| PagePropertyScenarios.RollupDateWithoutPayload | pydantic_api/notion/models/objects/properties/page_property.py:199-201 | A date rollup without `date` fails at `rollup`, `date`. |
| PagePropertyScenarios.FormulaOfDateStaysFormula | pydantic_api/notion/models/objects/properties/page_property.py:109-132 | A formula whose result is a date decodes as a formula property holding a date result. |
| Wire.Within | pydantic_api/notion/models/objects/properties/page_property.py:69-73 | Model infrastructure for the location of an error inside a nested model such as `date: DateValue`. Relocating an error prefixes its path with one segment and keeps the rest, the error's kind and an unknown variant's tag. |
| Wire.At | pydantic_api/notion/models/objects/properties/page_property.py:36-40 | Model infrastructure for a field such as `checkbox: bool`. Reading a member keeps its success unchanged, and its failure is exactly the member's error relocated under the member's key. |
| Wire.AsInt | pydantic_api/notion/models/objects/properties/page_property.py:315-316 | An integer member accepts exactly the integral numbers. |
| Wire.DecodeItems | pydantic_api/notion/models/api/base.py:32 | A list decodes exactly when every element does. The results keep length and order, element by element. A failure is the first failing element's error at its index. |
| Wire.ReadTag | pydantic_api/notion/models/objects/properties/page_property.py:350-376 | A discriminator decodes exactly when `type` is a string in the table. A missing `type` is a shape mismatch at `type`. A present value outside the table, a non-string included, is an unknown-variant error at `type` carrying that value. |
| Wire.EncodeList | pydantic_api/notion/models/api/base.py:32 | An encoded list has one item per element, in order. |
| Wire.ListRoundTrip | pydantic_api/notion/models/api/base.py:32 | A list whose elements round-trip decodes from its encoding to itself. |
| Wire.ListAgrees | pydantic_api/notion/models/api/base.py:32 | An array agrees with a list's encoding when it has one agreeing item per element, in order. |
| Wire.RequiredListAgrees | pydantic_api/notion/models/api/base.py:32 | A required list read with an element decoder whose results agree with their encodings agrees with the list's encoding. |
| Wire.AgreementIsReflexive | pydantic_api/notion/models/objects/properties/page_property.py:44-46 | Model infrastructure for an opaque member such as `created_by: UserObject`. Every JSON value agrees with itself: the opaque values are kept as read. |
| Wire.OptionalRoundTrip | pydantic_api/notion/models/objects/properties/page_property.py:60-63 | An optional member, written as its value or null, reads back as itself. |
| Pagination.ParseResultType | pydantic_api/notion/models/api/base.py:11-19 | The seven element kinds: a string parses to the kind whose literal it is, and to none otherwise. |
| Pagination.ReadListMarker | pydantic_api/notion/models/api/base.py:31 | `object` may be left out, since it defaults to "list"; when present it must be exactly "list". The envelope is always a list. |
| Pagination.DecodeEnvelope | pydantic_api/notion/models/api/base.py:23-43 | A decoded envelope's `object` is absent or "list". Its results correspond to the `results` items one for one, in order; one element that fails fails the whole page, and a missing `results` is a shape mismatch at `results`. `has_more` is the member's bool and `type` is the literal of its kind. `request_id` is a UUID and is the member's string. `next_cursor` and `next_url` are absent exactly when missing or null, and otherwise are the members' strings. Decoding succeeds exactly when every declared member is acceptable: `object`, `next_cursor` and `next_url` may be missing, and undeclared members play no part. |
| Pagination.EncodeEnvelope | pydantic_api/notion/models/api/base.py:31 | An encoded envelope has exactly the seven members, `object` is "list", and `type` is the kind's literal. |
| Pagination.DecodePageSize | pydantic_api/notion/models/api/base.py:53-60 | A page size is absent exactly when missing or null; a present one is an integer with 0 < n <= 100. |
| Pagination.DecodeStartCursor | pydantic_api/notion/models/api/base.py:46-51 | A start cursor is absent (first page) exactly when missing or null; it is present exactly when the member is a string. |
| PaginationLaws.ParseResultTypeName | pydantic_api/notion/models/api/base.py:11-19 | Parsing an element kind's literal gives back that kind. |
| PaginationLaws.EnvelopeRoundTrip | pydantic_api/notion/models/api/base.py:23-43 | An envelope whose elements round-trip and whose request id is a UUID decodes from its encoding to itself. This includes `has_more` with no cursor. |
| PaginationLaws.EnvelopeFailsAtFirstBadElement | pydantic_api/notion/models/api/base.py:32 | The first element of `results` that fails is the error of the whole page, at `results` and its index. |
| PaginationLaws.EnvelopeIgnoresExtraKeys | pydantic_api/notion/models/api/base.py:23-43 | Members the envelope does not declare change neither the decoded page nor the error. |
| PaginationLaws.EnvelopeRejectsUnknownType | pydantic_api/notion/models/api/base.py:11-19 | A `type` outside the seven kinds is rejected. |
| PaginationLaws.PageSizeBounds | pydantic_api/notion/models/api/base.py:53-60 | A page size of n is accepted exactly when 0 < n <= 100, and then it is n. |

## Left out

- Validation of string formats and enum literals is not reimplemented. The validators are parameters (`Schemas`): ISO-8601 date-times, email addresses, HTTP URLs, UUIDs, rollup functions and verification states.
- The user, file, rich-text and option types are opaque. Only their validity schemas, their factories (`new_text`, `SelectOption.create`, `StatusOption.create`, `StatusOption.refer`) and their JSON are modelled.
- Values are not normalised. A date-time, email, URL or UUID keeps the text it was read from; the library would parse it into a `datetime`, a normalised URL or a `UUID`. For the same reason, timestamps given as numbers are not accepted.
- Floating-point numbers (the number property, number formula and number rollup) are mathematical reals; rounding is not modelled.
- Decoding is strictly typed. The lax coercions of the validation library are not modelled; for example, the string "true" is not read as a bool.
- Decoding reports the first failing member (the discriminator first, then the other members in declaration order); the library collects every error of one object.
- Error messages are not modelled. An error keeps its kind, its location and, for an unknown variant, the JSON value of the tag it found; the library's message text and its stringified tag are left out.
- Error locations follow the model's own convention, not the library's. A failure inside a chosen variant is located by member keys alone, without the tag segment the library inserts (`[checkbox]` where the library reports `checkbox → checkbox`). A missing or unknown discriminator is located at `type`, where the library reports it at the union itself.
- Requests to the API, the comment endpoints and their type aliases are not part of this model. The request shapes that reuse `start_cursor` and `page_size` are covered by `DecodeStartCursor` and `DecodePageSize`.
- No factory rejects a date range whose end precedes its start. `DateProperty.new` performs no such check, so neither does `DateNew`.
- DateNew: does not re-validate its timestamps. The library's constructor raises on a malformed date-time; the model builds the value, which `Valid` then rejects. `DateNewValid` states exactly when the built value is valid, that is, when the library would not raise.
- RelationCreate: does not re-validate its identifiers. The library raises on an identifier that is not a UUID; the model builds the value, which `Valid` then rejects. `RelationCreateValid` states exactly when the built value is valid.
