/** domain/src/field.rs: the older Field draft. */
module DomainField {
  import opened Wrappers
  import opened Utf8

  const NameTooLong := "The maximum allowed length is 50 characters."
  const FieldIdTooLong := "The maximum allowed length is 64 characters."

  datatype Field = Field(name: string, fieldId: string, isRequired: bool)

  predicate Valid(f: Field)
  {
    ByteLen(f.name) <= 50 && ByteLen(f.fieldId) <= 64
  }

  /** `Field::try_new`: accepts exactly the valid fields, stores the three
      arguments unchanged, and checks the name before the field id. */
  function TryNew(name: string, fieldId: string, isRequired: bool): (r: Result<Field>)
    ensures r.Ok? <==> Valid(Field(name, fieldId, isRequired))
    ensures r.Ok? ==> r.value == Field(name, fieldId, isRequired)
    ensures ByteLen(name) > 50 ==> r == Err(NameTooLong)
    ensures (ByteLen(name) <= 50 && ByteLen(fieldId) > 64) ==> r == Err(FieldIdTooLong)
  {
    if ByteLen(name) > 50 then Err(NameTooLong)
    else if ByteLen(fieldId) > 64 then Err(FieldIdTooLong)
    else Ok(Field(name, fieldId, isRequired))
  }

  /** When both are too long, the name's error wins. */
  lemma NameReportedFirst(isRequired: bool, c: char)
    requires (c as int) < 0x80
    ensures TryNew(Repeat(c, 51), Repeat(c, 65), isRequired) == Err(NameTooLong)
    ensures TryNew(Repeat(c, 50), Repeat(c, 65), isRequired) == Err(FieldIdTooLong)
  {
    RepeatByteLen(c, 50);
    RepeatByteLen(c, 51);
    RepeatByteLen(c, 65);
  }
}
