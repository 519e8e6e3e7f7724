/** domain/src/model/field_meta.rs: the field-type enum and the validating
    constructor of FieldMeta. */
module ModelFieldMeta {
  import opened Wrappers
  import opened Utf8

  const NameTooLong := "The maximum allowed length is 50 characters."
  const FieldIdTooLong := "The maximum allowed length is 64 characters."

  datatype FieldType = ShortText | LongText | RichText | Number | Boolean | DateTime | Media

  /** The seven field types, each once. */
  const AllFieldTypes: seq<FieldType> := [ShortText, LongText, RichText, Number, Boolean, DateTime, Media]

  datatype FieldMeta = FieldMeta(name: string, fieldId: string, fieldType: FieldType, isRequired: bool)

  /** A name of at most 50 bytes and a field id of at most 64 bytes. */
  predicate Valid(m: FieldMeta)
  {
    ByteLen(m.name) <= 50 && ByteLen(m.fieldId) <= 64
  }

  /** `FieldMeta::try_new`: accepts exactly the valid metas, checks the name
      before the field id, and never looks at the type or the flag. */
  function TryNew(name: string, fieldId: string, fieldType: FieldType, isRequired: bool): (r: Result<FieldMeta>)
    ensures r.Ok? <==> Valid(FieldMeta(name, fieldId, fieldType, isRequired))
    ensures r.Ok? ==> r.value == FieldMeta(name, fieldId, fieldType, isRequired)
    ensures ByteLen(name) > 50 ==> r == Err(NameTooLong)
    ensures (ByteLen(name) <= 50 && ByteLen(fieldId) > 64) ==> r == Err(FieldIdTooLong)
  {
    if ByteLen(name) > 50 then Err(NameTooLong)
    else if ByteLen(fieldId) > 64 then Err(FieldIdTooLong)
    else Ok(FieldMeta(name, fieldId, fieldType, isRequired))
  }

  /** The type and the required flag never decide acceptance. */
  lemma TypeAndFlagIrrelevant(name: string, fieldId: string, t1: FieldType, t2: FieldType, b1: bool, b2: bool)
    ensures TryNew(name, fieldId, t1, b1).Ok? == TryNew(name, fieldId, t2, b2).Ok?
    ensures TryNew(name, fieldId, t1, b1).Err? ==> TryNew(name, fieldId, t1, b1) == TryNew(name, fieldId, t2, b2)
  {
  }

  /** `FieldType` has exactly the seven variants of `AllFieldTypes`. */
  lemma FieldTypesEnumerated(t: FieldType)
    ensures t in AllFieldTypes
    ensures |AllFieldTypes| == 7
    ensures forall i, j :: 0 <= i < j < |AllFieldTypes| ==> AllFieldTypes[i] != AllFieldTypes[j]
  {
  }
}
