/** domain/src/model/category.rs: the validating constructor of Category. */
module ModelCategory {
  import opened Wrappers
  import opened Utf8

  const NameTooShort := "Name must be at least 1 character long"
  const NameTooLong := "Name exceeds maximum length(50 characters)"
  const ApiIdentifierTooShort := "Api identifier must be at least 1 character long"
  const ApiIdentifierTooLong := "Api identifier exceeds maximum length(64 characters)"
  const DescriptionTooLong := "Description exceeds maximum length(500 characters)"

  datatype Category = Category(
    id: string,
    name: string,
    apiIdentifier: string,
    description: Option<string>)

  /** The invariant of a category: name of 1 to 50 bytes, api identifier of
      1 to 64 bytes, and a description, when there is one, of at most 500. */
  predicate Valid(c: Category)
  {
    && 1 <= ByteLen(c.name) <= 50
    && 1 <= ByteLen(c.apiIdentifier) <= 64
    && (c.description.Some? ==> ByteLen(c.description.value) <= 500)
  }

  /** `Category::try_new`: accepts exactly the valid categories, stores the
      arguments unchanged, and reports the first violated bound in the order
      name, api identifier, description. */
  function TryNew(id: string, name: string, apiIdentifier: string, description: Option<string>): (r: Result<Category>)
    ensures r.Ok? <==> Valid(Category(id, name, apiIdentifier, description))
    ensures r.Ok? ==> r.value == Category(id, name, apiIdentifier, description)
    ensures ByteLen(name) < 1 ==> r == Err(NameTooShort)
    ensures ByteLen(name) > 50 ==> r == Err(NameTooLong)
    ensures 1 <= ByteLen(name) <= 50 && ByteLen(apiIdentifier) < 1 ==> r == Err(ApiIdentifierTooShort)
    ensures 1 <= ByteLen(name) <= 50 && ByteLen(apiIdentifier) > 64 ==> r == Err(ApiIdentifierTooLong)
    ensures (1 <= ByteLen(name) <= 50 && 1 <= ByteLen(apiIdentifier) <= 64
             && description.Some? && ByteLen(description.value) > 500) ==> r == Err(DescriptionTooLong)
  {
    if ByteLen(name) < 1 then Err(NameTooShort)
    else if ByteLen(name) > 50 then Err(NameTooLong)
    else if ByteLen(apiIdentifier) < 1 then Err(ApiIdentifierTooShort)
    else if ByteLen(apiIdentifier) > 64 then Err(ApiIdentifierTooLong)
    else if description.Some? && ByteLen(description.value) > 500 then Err(DescriptionTooLong)
    else Ok(Category(id, name, apiIdentifier, description))
  }

  /** The upper bounds are inclusive, with or without a description. */
  lemma AcceptsBoundaryLengths(c: char)
    requires (c as int) < 0x80
    ensures TryNew("id", Repeat(c, 50), Repeat(c, 64), Some(Repeat(c, 500))).Ok?
    ensures TryNew("id", Repeat(c, 50), Repeat(c, 64), None).Ok?
  {
    RepeatByteLen(c, 50);
    RepeatByteLen(c, 64);
    RepeatByteLen(c, 500);
  }

  /** One byte over any bound is rejected, with that bound's message. */
  lemma RejectsOneOverBounds(c: char)
    requires (c as int) < 0x80
    ensures TryNew("id", Repeat(c, 51), Repeat(c, 64), Some(Repeat(c, 500))) == Err(NameTooLong)
    ensures TryNew("id", Repeat(c, 50), Repeat(c, 65), Some(Repeat(c, 500))) == Err(ApiIdentifierTooLong)
    ensures TryNew("id", Repeat(c, 50), Repeat(c, 64), Some(Repeat(c, 501))) == Err(DescriptionTooLong)
  {
    RepeatByteLen(c, 50);
    RepeatByteLen(c, 51);
    RepeatByteLen(c, 64);
    RepeatByteLen(c, 65);
    RepeatByteLen(c, 500);
    RepeatByteLen(c, 501);
  }

  /** The bounds count bytes: 26 copies of a two-byte character such as
      U+00E9 are 26 characters but 52 bytes, so the name is too long. */
  lemma CountsBytesNotCharacters(c: char)
    requires 0x80 <= (c as int) < 0x800
    ensures TryNew("id", Repeat(c, 26), "a", None) == Err(NameTooLong)
  {
    RepeatByteLen(c, 26);
  }
}
