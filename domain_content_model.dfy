/** domain/src/content_model.rs: the older ContentModel draft, without id
    and fields. */
module DomainContentModel {
  import opened Wrappers
  import opened Utf8

  const NameTooLong := "The maximum allowed length is 50 characters."
  const ApiIdentifierTooLong := "The maximum allowed length is 64 characters."
  const DescriptionTooLong := "The maximum allowed length is 50 characters."

  datatype ContentModel = ContentModel(name: string, apiIdentifier: string, description: Option<string>)

  predicate Valid(m: ContentModel)
  {
    && ByteLen(m.name) <= 50
    && ByteLen(m.apiIdentifier) <= 64
    && (m.description.Some? ==> ByteLen(m.description.value) <= 500)
  }

  /** `ContentModel::try_new` (older draft): accepts exactly the valid models,
      stores the three arguments unchanged, checks in the order name, api
      identifier, description. */
  function TryNew(name: string, apiIdentifier: string, description: Option<string>): (r: Result<ContentModel>)
    ensures r.Ok? <==> Valid(ContentModel(name, apiIdentifier, description))
    ensures r.Ok? ==> r.value == ContentModel(name, apiIdentifier, description)
    ensures ByteLen(name) > 50 ==> r == Err(NameTooLong)
    ensures (ByteLen(name) <= 50 && ByteLen(apiIdentifier) > 64) ==> r == Err(ApiIdentifierTooLong)
    ensures (ByteLen(name) <= 50 && ByteLen(apiIdentifier) <= 64
             && description.Some? && ByteLen(description.value) > 500) ==> r == Err(DescriptionTooLong)
  {
    if ByteLen(name) > 50 then Err(NameTooLong)
    else if ByteLen(apiIdentifier) > 64 then Err(ApiIdentifierTooLong)
    else if description.Some? && ByteLen(description.value) > 500 then Err(DescriptionTooLong)
    else Ok(ContentModel(name, apiIdentifier, description))
  }

  /** Empty strings are allowed everywhere. */
  lemma EmptyStringsAccepted()
    ensures TryNew("", "", Some("")) == Ok(ContentModel("", "", Some("")))
  {
  }
}
