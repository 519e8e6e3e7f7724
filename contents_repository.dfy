/** infrastructure/src/database/contents_repository.rs: the `content_status`
    enum of the store and its bijection with the domain status, the joined
    content row and its mapping to this file's Content shape, the
    parameters of `create`, the partial-update statement of `update`, and id
    parsing, with `update` and `delete` run against an abstract `contents`
    table. */
module ContentsRepository {
  import opened Wrappers
  import opened Foreign
  import opened Sql
  import opened Store
  import ModelContent

  /** The Postgres enum `content_status`. */
  datatype ContentRowStatus = Draft | Published | Reserved | Unpublished

  const StatusTypeName := "content_status"

  /** `From<ContentRowStatus> for ContentStatus`. */
  function ToDomain(s: ContentRowStatus): (r: ModelContent.ContentStatus)
    ensures FromDomain(r) == s
  {
    match s
    case Draft => ModelContent.Draft
    case Published => ModelContent.Published
    case Reserved => ModelContent.Reserved
    case Unpublished => ModelContent.Unpublished
  }

  /** `From<ContentStatus> for ContentRowStatus`. */
  function FromDomain(s: ModelContent.ContentStatus): (r: ContentRowStatus)
    ensures r.Draft? <==> s.Draft?
    ensures r.Published? <==> s.Published?
    ensures r.Reserved? <==> s.Reserved?
    ensures r.Unpublished? <==> s.Unpublished?
  {
    match s
    case Draft => Draft
    case Published => Published
    case Reserved => Reserved
    case Unpublished => Unpublished
  }

  /** The labels of `content_status`, one per variant. */
  const Labels: seq<string> := ["Draft", "Published", "Reserved", "Unpublished"]

  /** The label sqlx sends for a variant: its name, which reads back as
      that variant. */
  function VariantName(s: ContentRowStatus): (name: string)
    ensures ParseVariant(name) == Some(s)
  {
    match s
    case Draft => "Draft"
    case Published => "Published"
    case Reserved => "Reserved"
    case Unpublished => "Unpublished"
  }

  /** The variant of a label, as Postgres reads an enum value back: only
      the enum's own labels are accepted. */
  function ParseVariant(text: string): (r: Option<ContentRowStatus>)
    ensures r.Some? <==> text in Labels
  {
    if text == "Draft" then Some(Draft)
    else if text == "Published" then Some(Published)
    else if text == "Reserved" then Some(Reserved)
    else if text == "Unpublished" then Some(Unpublished)
    else None
  }

  /** A status bound to a placeholder. */
  function StatusValue(s: ContentRowStatus): Value
  {
    EnumValue(StatusTypeName, VariantName(s))
  }

  /** The joined row `get`, `create` and `update` read back. */
  datatype ContentRow = ContentRow(
    id: Uuid,
    fields: Json,
    status: ContentRowStatus,
    publishedAt: Option<Timestamp>,
    createdById: Uuid,
    createdByName: string,
    updatedById: Uuid,
    updatedByName: string,
    createdAt: Timestamp,
    updatedAt: Timestamp,
    categoryId: Uuid,
    categoryName: string)

  /** The Content this file builds: string id and timestamps, and the
      `fields` JSON decoded to a list of `F`. */
  datatype Content<F> = Content(
    id: string,
    category: ModelContent.ContentCategory,
    status: ModelContent.ContentStatus,
    fields: seq<F>,
    publishedAt: Option<string>,
    createdAt: string,
    updatedAt: string,
    createdBy: ModelContent.CreatedBy,
    updatedBy: ModelContent.UpdatedBy)

  datatype CreateContent = CreateContent(
    categoryId: string,
    fields: Json,
    status: ModelContent.ContentStatus,
    createdById: string,
    updatedById: string)

  datatype UpdateContent = UpdateContent(
    id: string,
    fields: Option<Json>,
    status: Option<ModelContent.ContentStatus>,
    updatedById: string)

  /** One row of the `contents` table itself. */
  datatype StoredContent = StoredContent(
    id: Uuid,
    categoryId: Uuid,
    fields: Json,
    status: ContentRowStatus,
    publishedAt: Option<Timestamp>,
    createdBy: Uuid,
    updatedBy: Uuid,
    createdAt: Timestamp,
    updatedAt: Timestamp)

  const UpdatePrefix := "UPDATE contents SET "
  const UpdateFrom :=
    " FROM\n"
    + "                category,\n"
    + "                users AS created_by,\n"
    + "                users AS updated_by\n"
    + "            WHERE\n"
    + "                contents.category_id = category.id \n"
    + "            AND \n"
    + "                created_by.id = contents.created_by\n"
    + "            AND\n"
    + "                updated_by.id = contents.updated_by\n"
    + "            AND"
  const UpdateWhereId := " contents.id = "
  const UpdateReturning :=
    " RETURNING\n"
    + "                contents.*,\n"
    + "                category.name AS category_name,\n"
    + "                category.api_identifier AS category_api_identifier,\n"
    + "                category.description AS category_description,\n"
    + "                created_by.id AS created_by_id,\n"
    + "                created_by.name AS created_by_name,\n"
    + "                updated_by.id AS updated_by_id,\n"
    + "                updated_by.name AS updated_by_name\n"
    + "            "
  const DeleteSql := "DELETE FROM contents WHERE id = $1"

  /** The order of the optional columns of `update`. */
  const OptionalColumns: seq<string> := ["fields", "status"]
  /** The order of all columns `update` can assign. */
  const ColumnOrder: seq<string> := ["fields", "status", "updated_by"]

  /** The status conversions are mutual inverses, so the two enums are in
      bijection and no status is lost on the way to the store or back. */
  lemma StatusRoundTrip()
    ensures forall s :: ToDomain(FromDomain(s)) == s
    ensures forall r :: FromDomain(ToDomain(r)) == r
  {
    forall s ensures ToDomain(FromDomain(s)) == s {
      match s
      case Draft =>
      case Published =>
      case Reserved =>
      case Unpublished =>
    }
  }

  /** A label reads back as a variant exactly when it is that variant's
      label, so distinct variants have distinct labels. */
  lemma VariantRoundTrip(s: ContentRowStatus, text: string)
    ensures ParseVariant(text) == Some(s) <==> text == VariantName(s)
  {
  }

  /** A JSON value bound as such, when present. */
  function JsonOf(o: Option<Json>): (v: Option<Value>)
    ensures v.Some? <==> o.Some?
    ensures o.Some? ==> v.value == JsonValue(o.value)
  {
    if o.Some? then Some(JsonValue(o.value)) else None
  }

  /** A domain status bound as its store variant, when present. */
  function StatusOf(o: Option<ModelContent.ContentStatus>): (v: Option<Value>)
    ensures v.Some? <==> o.Some?
    ensures o.Some? ==> v.value == StatusValue(FromDomain(o.value))
  {
    if o.Some? then Some(StatusValue(FromDomain(o.value))) else None
  }

  /** `TryFrom<ContentRow> for Content`: fails exactly when the `fields`
      JSON does not decode, and then with the decoder's error; otherwise
      converts the status, renders ids and timestamps, and keeps whether
      the content was published. */
  function TryFrom<F>(row: ContentRow, decode: Json -> Result<seq<F>>, renderId: UuidRenderer, renderTime: TimeRenderer)
    : (r: Result<Content<F>>)
    ensures r.Err? <==> decode(row.fields).Err?
    ensures r.Err? ==> r.error == decode(row.fields).error
    ensures r.Ok? ==>
              && r.value.fields == decode(row.fields).value
              && r.value.status == ToDomain(row.status)
              && (r.value.publishedAt.Some? <==> row.publishedAt.Some?)
              && (row.publishedAt.Some? ==> r.value.publishedAt.value == renderTime(row.publishedAt.value))
              && r.value.createdAt == renderTime(row.createdAt)
              && r.value.updatedAt == renderTime(row.updatedAt)
              && r.value.id == renderId(row.id)
              && r.value.category == ModelContent.ContentCategory(renderId(row.categoryId), row.categoryName)
              && r.value.createdBy == ModelContent.CreatedBy(renderId(row.createdById), row.createdByName)
              && r.value.updatedBy == ModelContent.UpdatedBy(renderId(row.updatedById), row.updatedByName)
  {
    var category := ModelContent.ContentCategory(renderId(row.categoryId), row.categoryName);
    var fields :- decode(row.fields);
    var publishedAt := match row.publishedAt
      case Some(t) => Some(renderTime(t))
      case None => None;
    Ok(Content(renderId(row.id), category, ToDomain(row.status), fields, publishedAt,
               renderTime(row.createdAt), renderTime(row.updatedAt),
               ModelContent.CreatedBy(renderId(row.createdById), row.createdByName),
               ModelContent.UpdatedBy(renderId(row.updatedById), row.updatedByName)))
  }

  /** The arguments of `create`'s INSERT: the category id, the created_by
      id and the updated_by id are parsed in that order, and the first
      that fails decides the error. */
  function CreateBinds(data: CreateContent, parse: UuidParser): (r: Result<seq<Value>>)
    ensures r.Ok? <==> parse(data.categoryId).Ok? && parse(data.createdById).Ok? && parse(data.updatedById).Ok?
    ensures parse(data.categoryId).Err? ==> r == Err(parse(data.categoryId).error)
    ensures (parse(data.categoryId).Ok? && parse(data.createdById).Err?) ==> r == Err(parse(data.createdById).error)
    ensures (parse(data.categoryId).Ok? && parse(data.createdById).Ok? && parse(data.updatedById).Err?)
            ==> r == Err(parse(data.updatedById).error)
    ensures r.Ok? ==>
              r.value == [UuidValue(parse(data.categoryId).value), JsonValue(data.fields),
                          StatusValue(FromDomain(data.status)),
                          UuidValue(parse(data.createdById).value), UuidValue(parse(data.updatedById).value)]
  {
    var categoryId :- parse(data.categoryId);
    var status := FromDomain(data.status);
    var createdBy :- parse(data.createdById);
    var updatedBy :- parse(data.updatedById);
    Ok([UuidValue(categoryId), JsonValue(data.fields), StatusValue(status), UuidValue(createdBy), UuidValue(updatedBy)])
  }

  /** The optional part of the SET list: fields, then status. */
  function OptionalAssignments(fields: Option<Json>, status: Option<ModelContent.ContentStatus>): seq<Assignment>
  {
    Present(OptionalColumns, [JsonOf(fields), StatusOf(status)])
  }

  /** The SET list of `update`: the present optional columns, then always
      `updated_by`. */
  function Assignments(data: UpdateContent, updatedBy: Uuid): seq<Assignment>
  {
    Present(ColumnOrder, [JsonOf(data.fields), StatusOf(data.status), Some(UuidValue(updatedBy))])
  }

  /** The statement `update` sends, or the first parse error: updated_by
      is parsed before the content id. */
  function UpdateStatement(data: UpdateContent, parse: UuidParser): Result<Statement>
  {
    var updatedBy :- parse(data.updatedById);
    var id :- parse(data.id);
    var assigns := Assignments(data, updatedBy);
    Ok(UpdateById(UpdatePrefix, assigns, UpdateFrom + UpdateWhereId, UuidValue(id), UpdateReturning))
  }

  /** The statement `delete` sends, or the id's parse error. The code is
      `CategoryRepository.DeleteStatement`'s, on the `contents` table. */
  function DeleteStatement(id: string, parse: UuidParser): (r: Result<Statement>)
    ensures parse(id).Err? ==> r == Err(parse(id).error)
    ensures parse(id).Ok? ==> r == Ok(Statement(DeleteSql, [UuidValue(parse(id).value)]))
  {
    var u :- parse(id);
    Ok(Statement(DeleteSql, [UuidValue(u)]))
  }

  /** What one SET item does to a stored row. */
  function ApplyColumn(row: StoredContent, a: Assignment): StoredContent
  {
    match a.value
    case JsonValue(j) => if a.column == "fields" then row.(fields := j) else row
    case EnumValue(t, text) =>
      if a.column == "status" && t == StatusTypeName && ParseVariant(text).Some?
      then row.(status := ParseVariant(text).value) else row
    case UuidValue(u) => if a.column == "updated_by" then row.(updatedBy := u) else row
    case Text(_) => row
  }

  /** The intended effect of `update` on the stored row: present fields
      replace the stored ones, and the updater is always recorded. */
  function Merge(row: StoredContent, data: UpdateContent, updatedBy: Uuid): StoredContent
  {
    row.(fields := if data.fields.Some? then data.fields.value else row.fields,
         status := if data.status.Some? then FromDomain(data.status.value) else row.status,
         updatedBy := updatedBy)
  }

  lemma OptionalAssignments2(fields: Option<Json>, status: Option<ModelContent.ContentStatus>)
    ensures OptionalAssignments(fields, status) == Optional("fields", JsonOf(fields)) + Optional("status", StatusOf(status))
  {
    Present2("fields", "status", JsonOf(fields), StatusOf(status));
  }

  /** The optional part holds exactly the present fields, fields before status. */
  lemma OptionalAssignmentsSpec(fields: Option<Json>, status: Option<ModelContent.ContentStatus>)
    ensures FollowsOrder(OptionalAssignments(fields, status), OptionalColumns)
    ensures forall v :: (Assignment("fields", v) in OptionalAssignments(fields, status))
                          <==> fields.Some? && v == JsonValue(fields.value)
    ensures forall v :: (Assignment("status", v) in OptionalAssignments(fields, status))
                          <==> status.Some? && v == StatusValue(FromDomain(status.value))
  {
    var opts := [JsonOf(fields), StatusOf(status)];
    assert Distinct(OptionalColumns);
    PresentSpec(OptionalColumns, opts);
    forall v ensures Assignment("fields", v) in OptionalAssignments(fields, status) <==> opts[0] == Some(v) {
      assert Assignment(OptionalColumns[0], v) in OptionalAssignments(fields, status) <==> opts[0] == Some(v);
    }
    forall v ensures Assignment("status", v) in OptionalAssignments(fields, status) <==> opts[1] == Some(v) {
      assert Assignment(OptionalColumns[1], v) in OptionalAssignments(fields, status) <==> opts[1] == Some(v);
    }
  }

  lemma Assignments3(data: UpdateContent, updatedBy: Uuid)
    ensures Assignments(data, updatedBy)
            == OptionalAssignments(data.fields, data.status) + [Assignment("updated_by", UuidValue(updatedBy))]
  {
    Present3("fields", "status", "updated_by", JsonOf(data.fields), StatusOf(data.status), Some(UuidValue(updatedBy)));
    OptionalAssignments2(data.fields, data.status);
  }

  /** `update`'s SET list is never empty: it holds the present fields in the
      order fields, status, and ends with `updated_by`, each column once. */
  lemma AssignmentsSpec(data: UpdateContent, updatedBy: Uuid)
    ensures Assignments(data, updatedBy) != []
    ensures Assignments(data, updatedBy)[|Assignments(data, updatedBy)| - 1] == Assignment("updated_by", UuidValue(updatedBy))
    ensures FollowsOrder(Assignments(data, updatedBy), ColumnOrder)
    ensures forall v :: (Assignment("fields", v) in Assignments(data, updatedBy))
                          <==> data.fields.Some? && v == JsonValue(data.fields.value)
    ensures forall v :: (Assignment("status", v) in Assignments(data, updatedBy))
                          <==> data.status.Some? && v == StatusValue(FromDomain(data.status.value))
    ensures forall v :: (Assignment("updated_by", v) in Assignments(data, updatedBy)) <==> v == UuidValue(updatedBy)
  {
    var opts := [JsonOf(data.fields), StatusOf(data.status), Some(UuidValue(updatedBy))];
    var all := Assignments(data, updatedBy);
    Assignments3(data, updatedBy);
    assert Distinct(ColumnOrder);
    PresentSpec(ColumnOrder, opts);
    forall v ensures Assignment("fields", v) in all <==> opts[0] == Some(v) {
      assert Assignment(ColumnOrder[0], v) in all <==> opts[0] == Some(v);
    }
    forall v ensures Assignment("status", v) in all <==> opts[1] == Some(v) {
      assert Assignment(ColumnOrder[1], v) in all <==> opts[1] == Some(v);
    }
    forall v ensures Assignment("updated_by", v) in all <==> opts[2] == Some(v) {
      assert Assignment(ColumnOrder[2], v) in all <==> opts[2] == Some(v);
    }
  }

  /** Parse order and argument layout of `update`: a malformed updated_by
      fails first whatever the content id; otherwise a malformed content id
      fails; both happen before any statement exists. On success the
      arguments are the SET values, then updated_by, then the content id,
      which the WHERE placeholder refers to. */
  lemma UpdateStatementSpec(data: UpdateContent, parse: UuidParser)
    ensures parse(data.updatedById).Err? ==> UpdateStatement(data, parse) == Err(parse(data.updatedById).error)
    ensures parse(data.updatedById).Ok? && parse(data.id).Err? ==> UpdateStatement(data, parse) == Err(parse(data.id).error)
    ensures parse(data.updatedById).Ok? && parse(data.id).Ok? ==>
              var st := UpdateStatement(data, parse).value;
              var n := |OptionalAssignments(data.fields, data.status)|;
              && |st.binds| == n + 2
              && st.binds[..n] == Values(OptionalAssignments(data.fields, data.status))
              && st.binds[n] == UuidValue(parse(data.updatedById).value)
              && st.binds[n + 1] == UuidValue(parse(data.id).value)
              && UpdatePrefix <= st.sql
  {
    if parse(data.updatedById).Ok? && parse(data.id).Ok? {
      UpdateStatementOk(data, parse);
      UpdateLayout(data, parse(data.updatedById).value, UpdateFrom + UpdateWhereId, parse(data.id).value, UpdateReturning);
    }
  }

  /** The argument layout and start of the statement once both ids are
      parsed, whatever text follows the SET list. */
  lemma UpdateLayout(data: UpdateContent, updatedBy: Uuid, middle: string, id: Uuid, suffix: string)
    ensures var st := UpdateById(UpdatePrefix, Assignments(data, updatedBy), middle, UuidValue(id), suffix);
            var n := |OptionalAssignments(data.fields, data.status)|;
            && |st.binds| == n + 2
            && st.binds[..n] == Values(OptionalAssignments(data.fields, data.status))
            && st.binds[n] == UuidValue(updatedBy)
            && st.binds[n + 1] == UuidValue(id)
            && UpdatePrefix <= st.sql
  {
    Assignments3(data, updatedBy);
    UpdateByIdLastBinds(UpdatePrefix, OptionalAssignments(data.fields, data.status), Assignment("updated_by", UuidValue(updatedBy)),
                        middle, UuidValue(id), suffix);
    UpdateByIdText(UpdatePrefix, Assignments(data, updatedBy), middle, UuidValue(id), suffix);
  }

  /** `UpdateStatement` when both ids parse, spelled out. */
  lemma UpdateStatementOk(data: UpdateContent, parse: UuidParser)
    requires parse(data.updatedById).Ok? && parse(data.id).Ok?
    ensures UpdateStatement(data, parse)
            == Ok(UpdateById(UpdatePrefix, Assignments(data, parse(data.updatedById).value), UpdateFrom + UpdateWhereId,
                             UuidValue(parse(data.id).value), UpdateReturning))
  {
  }


  /** Running the SET list on a stored row records the updater and replaces
      exactly the present fields; every other column keeps its value. */
  lemma ApplyIsMerge(row: StoredContent, data: UpdateContent, updatedBy: Uuid)
    ensures ApplyAll(row, Assignments(data, updatedBy), ApplyColumn) == Merge(row, data, updatedBy)
  {
    var f := Optional("fields", JsonOf(data.fields));
    var s := Optional("status", StatusOf(data.status));
    var last := [Assignment("updated_by", UuidValue(updatedBy))];
    Assignments3(data, updatedBy);
    OptionalAssignments2(data.fields, data.status);
    if data.status.Some? {
      StatusRoundTrip();
    }
    ApplyAllAppend(row, f + s, last, ApplyColumn);
    ApplyAllAppend(row, f, s, ApplyColumn);
  }

  /** The two `if let Some(..)` pushes of `update`, fields before status. */
  method PushOptionalColumns(sep: Separated, fields: Option<Json>, status: Option<ModelContent.ContentStatus>)
    returns (ghost done: seq<Assignment>)
    requires Emitted(sep, UpdatePrefix, [])
    modifies sep, sep.builder
    ensures done == OptionalAssignments(fields, status)
    ensures Emitted(sep, UpdatePrefix, done)
  {
    done := PushOptional(sep, "fields", JsonOf(fields), UpdatePrefix, []);
    done := PushOptional(sep, "status", StatusOf(status), UpdatePrefix, done);
    OptionalAssignments2(fields, status);
    assert [] + Optional("fields", JsonOf(fields)) == Optional("fields", JsonOf(fields));
  }

  /** The first half of `update`: pushes the present fields, parses
      updated_by and, when it parses, pushes it as the last SET item. */
  method StartUpdate(data: UpdateContent, parse: UuidParser) returns (qb: QueryBuilder, parsedUpdatedBy: Result<Uuid>)
    ensures fresh(qb)
    ensures parsedUpdatedBy == parse(data.updatedById)
    ensures parsedUpdatedBy.Ok? ==>
              var assigns := Assignments(data, parsedUpdatedBy.value);
              qb.sql == UpdatePrefix + SetList(assigns) && qb.arguments == Values(assigns)
  {
    qb := new QueryBuilder(UpdatePrefix);
    var sep := new Separated(qb, ",");
    ghost var done := PushOptionalColumns(sep, data.fields, data.status);
    parsedUpdatedBy := parse(data.updatedById);
    if parsedUpdatedBy.Err? {
      return;
    }
    var last := Assignment("updated_by", UuidValue(parsedUpdatedBy.value));
    PushAssignment(sep, last, UpdatePrefix, done);
    done := done + [last];
    Assignments3(data, parsedUpdatedBy.value);
    assert done == Assignments(data, parsedUpdatedBy.value);
  }

  /** `update`: builds the SET list from the present fields and the parsed
      updated_by, then the joined FROM/WHERE text, then parses the content
      id and binds it. */
  method BuildUpdate(data: UpdateContent, parse: UuidParser) returns (r: Result<Statement>)
    ensures r == UpdateStatement(data, parse)
  {
    var qb, parsedUpdatedBy := StartUpdate(data, parse);
    if parsedUpdatedBy.Err? {
      return Err(parsedUpdatedBy.error);
    }
    qb.Push(UpdateFrom);
    var parsedId := parse(data.id);
    if parsedId.Err? {
      return Err(parsedId.error);
    }
    qb.Push(UpdateWhereId);
    qb.PushBind(UuidValue(parsedId.value));
    qb.Push(UpdateReturning);
    PushTwice(UpdatePrefix + SetList(Assignments(data, parsedUpdatedBy.value)), UpdateFrom, UpdateWhereId);
    UpdateByIdUnfold(UpdatePrefix, Assignments(data, parsedUpdatedBy.value), UpdateFrom + UpdateWhereId,
                     UuidValue(parsedId.value), UpdateReturning);
    r := Ok(qb.Build());
  }

  /** `update` on the `contents` table: either parse failing leaves the
      table as it was; otherwise the stored row, if any, is merged. The
      joined columns of the returned row are not modelled. */
  method Update(table: Table<StoredContent>, data: UpdateContent, parse: UuidParser) returns (r: Result<StoredContent>)
    modifies table
    ensures parse(data.updatedById).Err? ==> r == Err(parse(data.updatedById).error) && table.rows == old(table.rows)
    ensures parse(data.updatedById).Ok? && parse(data.id).Err? ==> r == Err(parse(data.id).error) && table.rows == old(table.rows)
    ensures parse(data.updatedById).Ok? && parse(data.id).Ok? && parse(data.id).value !in old(table.rows) ==>
              r == Err(NoRows) && table.rows == old(table.rows)
    ensures parse(data.updatedById).Ok? && parse(data.id).Ok? && parse(data.id).value in old(table.rows) ==>
              var id := parse(data.id).value;
              var merged := Merge(old(table.rows)[id], data, parse(data.updatedById).value);
              table.rows == old(table.rows)[id := merged] && r == Ok(merged)
  {
    var st := BuildUpdate(data, parse);
    if st.Err? {
      return Err(st.error);
    }
    // `Run` applies `Assignments(data, updatedBy)`, the SET list that `BuildUpdate`
    // rendered into `st`; the statement text itself is not executed.
    r := Run(table, data, parse(data.updatedById).value, parse(data.id).value);
  }

  /** Running a built `update` on the table: the row, if any, is merged. */
  method Run(table: Table<StoredContent>, data: UpdateContent, updatedBy: Uuid, id: Uuid) returns (r: Result<StoredContent>)
    modifies table
    ensures id !in old(table.rows) ==> r == Err(NoRows) && table.rows == old(table.rows)
    ensures id in old(table.rows) ==>
              var merged := Merge(old(table.rows)[id], data, updatedBy);
              table.rows == old(table.rows)[id := merged] && r == Ok(merged)
  {
    Assignments3(data, updatedBy);
    if id in table.rows {
      ApplyIsMerge(table.rows[id], data, updatedBy);
    }
    r := table.UpdateRow(id, Assignments(data, updatedBy), ApplyColumn);
  }

  /** `delete`: a malformed id fails and leaves the table as it was;
      otherwise the row, if any, is removed. */
  method Delete(table: Table<StoredContent>, id: string, parse: UuidParser) returns (r: Result<()>)
    modifies table
    ensures parse(id).Err? ==> r == Err(parse(id).error) && table.rows == old(table.rows)
    ensures parse(id).Ok? ==> r == Ok(()) && table.rows == old(table.rows) - {parse(id).value}
  {
    var st := DeleteStatement(id, parse);
    if st.Err? {
      return Err(st.error);
    }
    table.Delete(parse(id).value);
    r := Ok(());
  }
}
