/** domain/src/model/tag.rs: the validating constructor of Tag. */
module ModelTag {
  import opened Wrappers
  import opened Utf8

  const NameTooShort := "Name must be at least 1 character long"
  const NameTooLong := "Name exceeds maximum length(50 characters)"
  /** The source's message says 50 although the bound is 500. */
  const DescriptionTooLong := "Description exceeds maximum length(50 characters)"

  datatype Tag = Tag(id: string, name: string, description: string)

  /** A name of 1 to 50 bytes and a description of at most 500 (possibly empty). */
  predicate Valid(t: Tag)
  {
    1 <= ByteLen(t.name) <= 50 && ByteLen(t.description) <= 500
  }

  /** `Tag::try_new`: accepts exactly the valid tags, stores the arguments
      unchanged, and checks the name before the description. */
  function TryNew(id: string, name: string, description: string): (r: Result<Tag>)
    ensures r.Ok? <==> Valid(Tag(id, name, description))
    ensures r.Ok? ==> r.value == Tag(id, name, description)
    ensures ByteLen(name) < 1 ==> r == Err(NameTooShort)
    ensures ByteLen(name) > 50 ==> r == Err(NameTooLong)
    ensures (1 <= ByteLen(name) <= 50 && ByteLen(description) > 500) ==> r == Err(DescriptionTooLong)
  {
    if ByteLen(name) < 1 then Err(NameTooShort)
    else if ByteLen(name) > 50 then Err(NameTooLong)
    else if ByteLen(description) > 500 then Err(DescriptionTooLong)
    else Ok(Tag(id, name, description))
  }

  /** The description has no lower bound, the name has one. */
  lemma EmptyDescriptionAccepted(id: string)
    ensures TryNew(id, "Rust", "").Ok?
    ensures TryNew(id, "", "") == Err(NameTooShort)
  {
  }

  /** 500 description bytes are accepted, 501 are rejected. */
  lemma DescriptionBoundary(id: string, c: char)
    requires (c as int) < 0x80
    ensures TryNew(id, "Rust", Repeat(c, 500)).Ok?
    ensures TryNew(id, "Rust", Repeat(c, 501)) == Err(DescriptionTooLong)
  {
    RepeatByteLen(c, 500);
    RepeatByteLen(c, 501);
  }
}
