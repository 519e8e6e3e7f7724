/** domain/src/model/role.rs: the validating constructor of Role. Unlike
    Category, Tag and User, the name has no lower bound. */
module ModelRole {
  import opened Wrappers
  import opened Utf8

  /** The source uses this one message for both checks. */
  const TooLong := "The maximum allowed length is 50 characters."

  datatype Role = Role(id: string, name: string, description: Option<string>, isSuperAdministrator: bool)

  /** A name of at most 50 bytes (empty allowed) and, when present, a
      description of at most 500 bytes. */
  predicate Valid(r: Role)
  {
    ByteLen(r.name) <= 50 && (r.description.Some? ==> ByteLen(r.description.value) <= 500)
  }

  /** `Role::try_new`: accepts exactly the valid roles and stores the
      arguments unchanged; both failures carry the same message. */
  function TryNew(id: string, name: string, description: Option<string>, isSuperAdministrator: bool): (r: Result<Role>)
    ensures r.Ok? <==> Valid(Role(id, name, description, isSuperAdministrator))
    ensures r.Ok? ==> r.value == Role(id, name, description, isSuperAdministrator)
    ensures r.Err? ==> r.error == TooLong
  {
    if ByteLen(name) > 50 then Err(TooLong)
    else if description.Some? && ByteLen(description.value) > 500 then Err(TooLong)
    else Ok(Role(id, name, description, isSuperAdministrator))
  }

  /** An empty name is accepted, and an absent description is never checked. */
  lemma NoLowerBound(id: string, isSuperAdministrator: bool)
    ensures TryNew(id, "", None, isSuperAdministrator).Ok?
  {
  }

  /** A present description over 500 bytes is rejected even with an empty name. */
  lemma LongDescriptionRejected(id: string, isSuperAdministrator: bool, c: char)
    requires (c as int) < 0x80
    ensures TryNew(id, "", Some(Repeat(c, 501)), isSuperAdministrator) == Err(TooLong)
    ensures TryNew(id, "", Some(Repeat(c, 500)), isSuperAdministrator).Ok?
  {
    RepeatByteLen(c, 500);
    RepeatByteLen(c, 501);
  }
}
