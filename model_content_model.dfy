/** domain/src/model/content_model.rs: the validating constructor of
    ContentModel (the draft with an id and a list of field metas). Only
    upper bounds are checked. */
module ModelContentModel {
  import opened Wrappers
  import opened Utf8
  import opened ModelFieldMeta

  const NameTooLong := "The maximum allowed length is 50 characters."
  const ApiIdentifierTooLong := "The maximum allowed length is 64 characters."
  /** The source's message says 50 although the bound is 500. */
  const DescriptionTooLong := "The maximum allowed length is 50 characters."

  datatype ContentModel = ContentModel(
    id: string,
    name: string,
    apiIdentifier: string,
    description: Option<string>,
    fields: seq<FieldMeta>)

  /** A name of at most 50 bytes, an api identifier of at most 64, and a
      description, when present, of at most 500. */
  predicate Valid(m: ContentModel)
  {
    && ByteLen(m.name) <= 50
    && ByteLen(m.apiIdentifier) <= 64
    && (m.description.Some? ==> ByteLen(m.description.value) <= 500)
  }

  /** `ContentModel::try_new`: accepts exactly the valid models, stores the
      arguments (the field metas in their order) unchanged, and checks name,
      api identifier and description in that order. */
  function TryNew(id: string, name: string, apiIdentifier: string, description: Option<string>,
                  fields: seq<FieldMeta>): (r: Result<ContentModel>)
    ensures r.Ok? <==> Valid(ContentModel(id, name, apiIdentifier, description, fields))
    ensures r.Ok? ==> r.value == ContentModel(id, name, apiIdentifier, description, fields)
    ensures ByteLen(name) > 50 ==> r == Err(NameTooLong)
    ensures (ByteLen(name) <= 50 && ByteLen(apiIdentifier) > 64) ==> r == Err(ApiIdentifierTooLong)
    ensures (ByteLen(name) <= 50 && ByteLen(apiIdentifier) <= 64
             && description.Some? && ByteLen(description.value) > 500) ==> r == Err(DescriptionTooLong)
  {
    if ByteLen(name) > 50 then Err(NameTooLong)
    else if ByteLen(apiIdentifier) > 64 then Err(ApiIdentifierTooLong)
    else if description.Some? && ByteLen(description.value) > 500 then Err(DescriptionTooLong)
    else Ok(ContentModel(id, name, apiIdentifier, description, fields))
  }

  /** Empty name and api identifier are accepted, and the field metas are
      never inspected: even invalid ones are stored as given. */
  lemma NoLowerBoundsNoFieldChecks(id: string, fields: seq<FieldMeta>)
    ensures TryNew(id, "", "", None, fields).Ok?
    ensures TryNew(id, "", "", None, fields).value.fields == fields
  {
  }
}
