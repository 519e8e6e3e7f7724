/** infrastructure/src/database/repository/contents.rs, the second draft of
    the contents repository. Its status enum and conversions are the same
    code as infrastructure/src/database/contents_repository.rs and are the
    members of `ContentsRepository`; its row, its row mapping (which
    validates the joined category), the parameters of `create` and the
    `update` builder (which has no `updated_by`) are its own. */
module RepositoryContents {
  import opened Wrappers
  import opened Foreign
  import opened Sql
  import opened Store
  import ModelCategory
  import ModelContent
  import opened Utf8
  import Shared = ContentsRepository

  /** The row joined with its category. */
  datatype ContentRow = ContentRow(
    id: Uuid,
    fields: Json,
    status: Shared.ContentRowStatus,
    publishedAt: Option<Timestamp>,
    createdAt: Timestamp,
    updatedAt: Timestamp,
    categoryId: Uuid,
    categoryName: string,
    categoryApiIdentifier: string,
    categoryDescription: Option<string>)

  /** The Content this draft builds: the category is a validated domain
      Category, and there is no creator or updater. */
  datatype Content<F> = Content(
    id: string,
    category: ModelCategory.Category,
    status: ModelContent.ContentStatus,
    fields: seq<F>,
    publishedAt: Option<string>,
    createdAt: string,
    updatedAt: string)

  datatype CreateContent = CreateContent(
    categoryId: string,
    fields: Json,
    status: ModelContent.ContentStatus)

  datatype UpdateContent = UpdateContent(
    id: string,
    fields: Option<Json>,
    status: Option<ModelContent.ContentStatus>)

  const UpdateFrom := " FROM category WHERE contents.category_id = category.id AND"
  const UpdateWhereId := " contents.id = "
  const UpdateReturning :=
    " RETURNING contents.*, category.name AS category_name, category.api_identifier AS category_api_identifier,"
    + " category.description AS category_description"

  /** `TryFrom<ContentRow> for Content`: the joined category is validated
      first and its error wins; then the `fields` JSON must decode; then
      the status is converted, ids and timestamps rendered, and whether the
      content was published is kept. */
  function TryFrom<F>(row: ContentRow, decode: Json -> Result<seq<F>>, renderId: UuidRenderer, renderTime: TimeRenderer)
    : (r: Result<Content<F>>)
    ensures
      var category := ModelCategory.TryNew(renderId(row.categoryId), row.categoryName,
                                           row.categoryApiIdentifier, row.categoryDescription);
      && (r.Ok? <==> category.Ok? && decode(row.fields).Ok?)
      && (category.Err? ==> r == Err(category.error))
      && (category.Ok? && decode(row.fields).Err? ==> r == Err(decode(row.fields).error))
      && (r.Ok? ==>
            && r.value.category == category.value
            && r.value.fields == decode(row.fields).value
            && r.value.status == Shared.ToDomain(row.status)
            && r.value.id == renderId(row.id)
            && (r.value.publishedAt.Some? <==> row.publishedAt.Some?)
            && (row.publishedAt.Some? ==> r.value.publishedAt.value == renderTime(row.publishedAt.value))
            && r.value.createdAt == renderTime(row.createdAt)
            && r.value.updatedAt == renderTime(row.updatedAt))
  {
    var category :- ModelCategory.TryNew(renderId(row.categoryId), row.categoryName,
                                         row.categoryApiIdentifier, row.categoryDescription);
    var fields :- decode(row.fields);
    var publishedAt := match row.publishedAt
      case Some(t) => Some(renderTime(t))
      case None => None;
    Ok(Content(renderId(row.id), category, Shared.ToDomain(row.status), fields, publishedAt,
               renderTime(row.createdAt), renderTime(row.updatedAt)))
  }

  /** A joined category whose name is empty fails the row mapping with the
      domain's error, even when the fields decode. */
  lemma EmptyCategoryNameRejected<F>(row: ContentRow, decode: Json -> Result<seq<F>>, renderId: UuidRenderer, renderTime: TimeRenderer)
    requires row.categoryName == ""
    ensures TryFrom(row, decode, renderId, renderTime) == Err(ModelCategory.NameTooShort)
  {
    assert ByteLen(row.categoryName) == 0;
  }

  /** The arguments of `create`'s INSERT: the parsed category id, the JSON
      and the status; a malformed category id fails first. */
  function CreateBinds(data: CreateContent, parse: UuidParser): (r: Result<seq<Value>>)
    ensures parse(data.categoryId).Err? ==> r == Err(parse(data.categoryId).error)
    ensures parse(data.categoryId).Ok? ==>
              r == Ok([UuidValue(parse(data.categoryId).value), JsonValue(data.fields), Shared.StatusValue(Shared.FromDomain(data.status))])
  {
    var categoryId :- parse(data.categoryId);
    var status := Shared.FromDomain(data.status);
    Ok([UuidValue(categoryId), JsonValue(data.fields), Shared.StatusValue(status)])
  }

  /** The statement `update` sends, or the id's parse error. */
  function UpdateStatement(data: UpdateContent, parse: UuidParser): Result<Statement>
  {
    var assigns := Shared.OptionalAssignments(data.fields, data.status);
    var id :- parse(data.id);
    Ok(UpdateById(Shared.UpdatePrefix, assigns, UpdateFrom + UpdateWhereId, UuidValue(id), UpdateReturning))
  }

  /** A malformed id fails `update` with the parser's error; otherwise the
      arguments are the present fields' values, in the order fields, status,
      then the id, which the last placeholder refers to. */
  lemma UpdateStatementSpec(data: UpdateContent, parse: UuidParser)
    ensures parse(data.id).Err? <==> UpdateStatement(data, parse).Err?
    ensures parse(data.id).Err? ==> UpdateStatement(data, parse).error == parse(data.id).error
    ensures parse(data.id).Ok? ==>
              var st := UpdateStatement(data, parse).value;
              var assigns := Shared.OptionalAssignments(data.fields, data.status);
              && |st.binds| == |assigns| + 1
              && st.binds[..|assigns|] == Values(assigns)
              && st.binds[|assigns|] == UuidValue(parse(data.id).value)
              && Shared.UpdatePrefix <= st.sql
  {
    if parse(data.id).Ok? {
      UpdateByIdText(Shared.UpdatePrefix, Shared.OptionalAssignments(data.fields, data.status), UpdateFrom + UpdateWhereId,
                     UuidValue(parse(data.id).value), UpdateReturning);
    }
  }

  /** With neither field present nothing guards the SET list: the statement
      goes out with nothing between SET and FROM, and the id as `$1`. */
  lemma EmptyUpdateUnguarded(id: string, parse: UuidParser)
    requires parse(id).Ok?
    ensures Shared.OptionalAssignments(None, None) == []
    ensures UpdateStatement(UpdateContent(id, None, None), parse)
            == Ok(Statement(Shared.UpdatePrefix + (UpdateFrom + UpdateWhereId) + "$1" + UpdateReturning,
                            [UuidValue(parse(id).value)]))
  {
    Shared.OptionalAssignments2(None, None);
    EmptyUpdateById(Shared.UpdatePrefix, UpdateFrom + UpdateWhereId, UuidValue(parse(id).value), UpdateReturning);
  }

  /** `update`: pushes the present fields, then the FROM/WHERE text, then
      parses the id and binds it. */
  method BuildUpdate(data: UpdateContent, parse: UuidParser) returns (r: Result<Statement>)
    ensures r == UpdateStatement(data, parse)
  {
    var qb := new QueryBuilder(Shared.UpdatePrefix);
    var sep := new Separated(qb, ",");
    ghost var done := Shared.PushOptionalColumns(sep, data.fields, data.status);
    qb.Push(UpdateFrom);
    var parsed := parse(data.id);
    if parsed.Err? {
      return Err(parsed.error);
    }
    qb.Push(UpdateWhereId);
    qb.PushBind(UuidValue(parsed.value));
    qb.Push(UpdateReturning);
    PushTwice(Shared.UpdatePrefix + SetList(done), UpdateFrom, UpdateWhereId);
    UpdateByIdUnfold(Shared.UpdatePrefix, done, UpdateFrom + UpdateWhereId, UuidValue(parsed.value), UpdateReturning);
    r := Ok(qb.Build());
  }
}
