/**
 * Types the page-property catalog uses but does not define: users, files,
 * rich-text spans and select/status options, the enum literals of the
 * shared vocabulary, and the library's string formats. Their internals are
 * not part of this model: each opaque value keeps the JSON it was read
 * from, and what counts as a valid one is decided by the predicates of a
 * `Schemas` value that the caller supplies.
 */
module Collaborators {
  import opened Wrappers
  import opened Wire

  datatype UserObject = UserObject(raw: Json)
  datatype FileObject = FileObject(raw: Json)
  datatype RichTextObject = RichTextObject(raw: Json)
  datatype SelectOption = SelectOption(raw: Json)
  datatype StatusOption = StatusOption(raw: Json)

  /**
   * The validators the library delegates to: string formats (ISO-8601
   * timestamps, email addresses, HTTP URLs, UUIDs), membership of the
   * rollup-function and verification-state enums, and the schemas of the
   * opaque objects.
   */
  datatype Schemas = Schemas(
    isDateTime: string -> bool,
    isEmail: string -> bool,
    isUrl: string -> bool,
    isUuid: string -> bool,
    isRollupFunction: string -> bool,
    isVerificationState: string -> bool,
    isUser: Json -> bool,
    isFile: Json -> bool,
    isRichText: Json -> bool,
    isSelectOption: Json -> bool,
    isStatusOption: Json -> bool)

  /**
   * The factories of the opaque types that the property factories call:
   * a plain-text rich-text span, and an option built from a name and a
   * colour, or one that refers to an existing status by name.
   */
  datatype Builders = Builders(
    newText: string -> RichTextObject,
    createSelect: (string, Option<string>) -> SelectOption,
    createStatus: (string, Option<string>) -> StatusOption,
    referStatus: string -> StatusOption)

  /** Every opaque type is a model class: its JSON must be an object that its schema accepts. */
  predicate Accepts(schema: Json -> bool, j: Json) {
    j.JObject? && schema(j)
  }

  /** Decoders for the opaque objects: accepted exactly when the schema accepts the JSON. */
  function UserDecoder(s: Schemas): Json -> Result<UserObject, Error> {
    (j: Json) => if Accepts(s.isUser, j) then Success(UserObject(j)) else Failure(ShapeMismatch([]))
  }

  function FileDecoder(s: Schemas): Json -> Result<FileObject, Error> {
    (j: Json) => if Accepts(s.isFile, j) then Success(FileObject(j)) else Failure(ShapeMismatch([]))
  }

  function RichTextDecoder(s: Schemas): Json -> Result<RichTextObject, Error> {
    (j: Json) => if Accepts(s.isRichText, j) then Success(RichTextObject(j)) else Failure(ShapeMismatch([]))
  }

  function SelectOptionDecoder(s: Schemas): Json -> Result<SelectOption, Error> {
    (j: Json) => if Accepts(s.isSelectOption, j) then Success(SelectOption(j)) else Failure(ShapeMismatch([]))
  }

  function StatusOptionDecoder(s: Schemas): Json -> Result<StatusOption, Error> {
    (j: Json) => if Accepts(s.isStatusOption, j) then Success(StatusOption(j)) else Failure(ShapeMismatch([]))
  }

  function EncodeUser(u: UserObject): Json { u.raw }
  function EncodeFile(f: FileObject): Json { f.raw }
  function EncodeRichText(t: RichTextObject): Json { t.raw }
  function EncodeSelectOption(o: SelectOption): Json { o.raw }
  function EncodeStatusOption(o: StatusOption): Json { o.raw }

  /** Each opaque decoder keeps the JSON it accepted, so what it decodes agrees with its encoding. */
  lemma OpaqueDecodersAgree(s: Schemas)
    ensures AgreeingDecoder(UserDecoder(s), EncodeUser)
    ensures AgreeingDecoder(FileDecoder(s), EncodeFile)
    ensures AgreeingDecoder(RichTextDecoder(s), EncodeRichText)
    ensures AgreeingDecoder(SelectOptionDecoder(s), EncodeSelectOption)
    ensures AgreeingDecoder(StatusOptionDecoder(s), EncodeStatusOption)
  {
    AgreementIsReflexive();
  }
}
