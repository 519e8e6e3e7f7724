/** infrastructure/src/database/tag_repository.rs: the `tags` table row, its
    mapping to the domain Tag, the description default of `create`, the
    partial-update statement, id parsing, and the paged `get`, run against
    an abstract table. */
module TagRepository {
  import opened Wrappers
  import opened Foreign
  import opened Sql
  import opened Store
  import ModelTag

  /** The columns read back (`created_at`/`updated_at` are skipped). */
  datatype TagRow = TagRow(id: Uuid, name: string, description: string)

  /** `GetTagQuery`. */
  datatype GetTagQuery = GetTagQuery(limit: i32, offset: i32)

  /** `GetTagQuery::default()`: the first 100 tags. */
  const DefaultGetTagQuery := GetTagQuery(100, 0)

  datatype CreateTag = CreateTag(name: string, description: Option<string>)

  datatype UpdateTag = UpdateTag(id: string, name: Option<string>, description: Option<string>)

  const UpdatePrefix := "UPDATE tags SET "
  const UpdateWhere := " WHERE id = "
  const UpdateReturning := " RETURNING *"

  /** The order in which `update` considers the optional columns. */
  const ColumnOrder: seq<string> := ["name", "description"]

  /** `From<TagRow> for Tag`: copies the columns, without validation. */
  function FromRow(row: TagRow, render: UuidRenderer): (t: ModelTag.Tag)
    ensures t.id == render(row.id) && t.name == row.name && t.description == row.description
  {
    ModelTag.Tag(render(row.id), row.name, row.description)
  }

  /** The description `create` stores: the given one, or "" when absent.
      The code is `CategoryRepository.StoredDescription`'s. */
  function StoredDescription(description: Option<string>): (s: string)
    ensures description.Some? ==> s == description.value
    ensures description.None? ==> s == ""
  {
    match description
    case Some(d) => d
    case None => ""
  }

  /** The row `create` inserts under the fresh id (`Uuid::now_v7`). */
  function NewRow(id: Uuid, data: CreateTag): TagRow
  {
    TagRow(id, data.name, StoredDescription(data.description))
  }

  /** The SET list of `update`: one assignment per present field. */
  function Assignments(data: UpdateTag): seq<Assignment>
  {
    Present(ColumnOrder, [TextOf(data.name), TextOf(data.description)])
  }

  /** The statement `update` sends, or the id's parse error. */
  function UpdateStatement(data: UpdateTag, parse: UuidParser): Result<Statement>
  {
    var assigns := Assignments(data);
    var id :- parse(data.id);
    Ok(UpdateById(UpdatePrefix, assigns, UpdateWhere, UuidValue(id), UpdateReturning))
  }

  /** What one SET item does to a stored row. */
  function ApplyColumn(row: TagRow, a: Assignment): TagRow
  {
    match a.value
    case Text(s) =>
      if a.column == "name" then row.(name := s)
      else if a.column == "description" then row.(description := s)
      else row
    case _ => row
  }

  /** A present field replaces the stored value, an absent one keeps it. */
  function Merge(row: TagRow, data: UpdateTag): TagRow
  {
    TagRow(
      row.id,
      if data.name.Some? then data.name.value else row.name,
      if data.description.Some? then data.description.value else row.description)
  }

  /** `update`'s SET list holds exactly the present fields with their new
      values, each column once, name before description. */
  lemma AssignmentsSpec(data: UpdateTag)
    ensures FollowsOrder(Assignments(data), ColumnOrder)
    ensures forall v :: (Assignment("name", v) in Assignments(data))
                          <==> data.name.Some? && v == Text(data.name.value)
    ensures forall v :: (Assignment("description", v) in Assignments(data))
                          <==> data.description.Some? && v == Text(data.description.value)
  {
    var opts := [TextOf(data.name), TextOf(data.description)];
    assert Distinct(ColumnOrder);
    PresentSpec(ColumnOrder, opts);
    forall v ensures Assignment("name", v) in Assignments(data) <==> opts[0] == Some(v) {
      assert Assignment(ColumnOrder[0], v) in Assignments(data) <==> opts[0] == Some(v);
    }
    forall v ensures Assignment("description", v) in Assignments(data) <==> opts[1] == Some(v) {
      assert Assignment(ColumnOrder[1], v) in Assignments(data) <==> opts[1] == Some(v);
    }
  }

  /** A malformed id fails `update` with the parser's error; a well-formed
      one is the last argument, and the WHERE placeholder refers to it. */
  lemma UpdateStatementSpec(data: UpdateTag, parse: UuidParser)
    ensures parse(data.id).Err? <==> UpdateStatement(data, parse).Err?
    ensures parse(data.id).Err? ==> UpdateStatement(data, parse).error == parse(data.id).error
    ensures parse(data.id).Ok? ==>
              var st := UpdateStatement(data, parse).value;
              && |st.binds| == |Assignments(data)| + 1
              && st.binds[|st.binds| - 1] == UuidValue(parse(data.id).value)
              && st.binds[..|st.binds| - 1] == Values(Assignments(data))
              && UpdatePrefix <= st.sql
              && EndsWith(st.sql, UpdateWhere + Placeholder(|st.binds|) + UpdateReturning)
  {
    if parse(data.id).Ok? {
      UpdateByIdText(UpdatePrefix, Assignments(data), UpdateWhere, UuidValue(parse(data.id).value), UpdateReturning);
    }
  }

  /** The code does not guard the empty SET list: with no field present the
      statement is still sent, and the table rejects it. */
  lemma EmptyUpdateUnguarded(id: string, parse: UuidParser)
    requires parse(id).Ok?
    ensures Assignments(UpdateTag(id, None, None)) == []
    ensures UpdateStatement(UpdateTag(id, None, None), parse)
            == Ok(Statement(UpdatePrefix + UpdateWhere + "$1" + UpdateReturning, [UuidValue(parse(id).value)]))
    ensures UpdatePrefix + UpdateWhere + "$1" + UpdateReturning == "UPDATE tags SET  WHERE id = $1 RETURNING *"
  {
    Present2("name", "description", None, None);
    EmptyUpdateById(UpdatePrefix, UpdateWhere, UuidValue(parse(id).value), UpdateReturning);
    EmptyUpdateText();
  }

  lemma EmptyUpdateText()
    ensures UpdatePrefix + UpdateWhere + "$1" + UpdateReturning == "UPDATE tags SET  WHERE id = $1 RETURNING *"
  {
    assert UpdatePrefix + UpdateWhere == "UPDATE tags SET  WHERE id = ";
    assert "UPDATE tags SET  WHERE id = " + "$1" == "UPDATE tags SET  WHERE id = $1";
  }

  /** Running the SET list on a stored row replaces exactly the present fields. */
  lemma ApplyIsMerge(row: TagRow, data: UpdateTag)
    ensures ApplyAll(row, Assignments(data), ApplyColumn) == Merge(row, data)
  {
    var n := Optional("name", TextOf(data.name));
    var d := Optional("description", TextOf(data.description));
    Present2("name", "description", TextOf(data.name), TextOf(data.description));
    ApplyAllAppend(row, n, d, ApplyColumn);
  }

  /** A tag created without a description reads back with an empty one. */
  lemma CreatedWithoutDescription(id: Uuid, name: string, render: UuidRenderer)
    ensures FromRow(NewRow(id, CreateTag(name, None)), render).description == ""
  {
  }

  /** Row mapping does not validate: a stored row with an empty name maps to
      a tag `Tag::try_new` would refuse. */
  lemma MappingDoesNotValidate(id: Uuid, render: UuidRenderer)
    ensures FromRow(TagRow(id, "", ""), render).name == ""
    ensures ModelTag.TryNew(render(id), "", "") == Err(ModelTag.NameTooShort)
  {
  }

  /** The two `if let Some(..)` pushes of `update`, name before description. */
  method PushOptionalColumns(sep: Separated, data: UpdateTag) returns (ghost done: seq<Assignment>)
    requires Emitted(sep, UpdatePrefix, [])
    modifies sep, sep.builder
    ensures done == Assignments(data)
    ensures Emitted(sep, UpdatePrefix, done)
  {
    done := PushOptional(sep, "name", TextOf(data.name), UpdatePrefix, []);
    done := PushOptional(sep, "description", TextOf(data.description), UpdatePrefix, done);
    Present2("name", "description", TextOf(data.name), TextOf(data.description));
    assert [] + Optional("name", TextOf(data.name)) == Optional("name", TextOf(data.name));
  }

  /** `update`: builds `UPDATE tags SET <assignments> WHERE id = $k RETURNING *`,
      pushing one assignment per present field, then parses the id. The code
      is `CategoryRepository.BuildUpdate`'s, on the `tags` table with two columns. */
  method BuildUpdate(data: UpdateTag, parse: UuidParser) returns (r: Result<Statement>)
    ensures r == UpdateStatement(data, parse)
  {
    var qb := new QueryBuilder(UpdatePrefix);
    var sep := new Separated(qb, ",");
    ghost var done := PushOptionalColumns(sep, data);
    var parsed := parse(data.id);
    if parsed.Err? {
      return Err(parsed.error);
    }
    qb.Push(UpdateWhere);
    qb.PushBind(UuidValue(parsed.value));
    qb.Push(UpdateReturning);
    UpdateByIdUnfold(UpdatePrefix, done, UpdateWhere, UuidValue(parsed.value), UpdateReturning);
    r := Ok(qb.Build());
  }

  /** `get`: `SELECT * FROM tags ORDER BY id LIMIT $1 OFFSET $2`, mapped to
      tags; the page is in id order and holds at most `limit` tags. */
  method Get(table: Table<TagRow>, query: GetTagQuery, render: UuidRenderer) returns (r: Result<seq<ModelTag.Tag>>)
    ensures query.offset < 0 ==> r == Err(NegativeOffset)
    ensures query.offset >= 0 && query.limit < 0 ==> r == Err(NegativeLimit)
    ensures query.offset >= 0 && query.limit >= 0 ==>
              && r.Ok?
              && var ids := PageIds(table.rows.Keys, query.limit as nat, query.offset as nat);
              && StrictlyIncreasing(ids)
              && |r.value| <= query.limit as int
              && |r.value| == |ids|
              && forall i :: 0 <= i < |ids| ==> ids[i] in table.rows && r.value[i] == FromRow(table.rows[ids[i]], render)
  {
    var rows := table.Page(query.limit, query.offset);
    if rows.Err? {
      return Err(rows.error);
    }
    PageIdsSpec(table.rows.Keys, query.limit as nat, query.offset as nat);
    var page := rows.value;
    r := Ok(seq(|page|, i requires 0 <= i < |page| => FromRow(page[i], render)));
  }

  /** `create`: inserts the row with the default description and maps it back. */
  method Create(table: Table<TagRow>, data: CreateTag, newId: Uuid, render: UuidRenderer)
    returns (r: Result<ModelTag.Tag>)
    modifies table
    ensures newId in old(table.rows) ==> r == Err(DuplicateKey) && table.rows == old(table.rows)
    ensures newId !in old(table.rows) ==>
              && table.rows == old(table.rows)[newId := NewRow(newId, data)]
              && r == Ok(FromRow(NewRow(newId, data), render))
  {
    var inserted := table.Insert(newId, NewRow(newId, data));
    if inserted.Err? {
      return Err(inserted.error);
    }
    r := Ok(FromRow(inserted.value, render));
  }

  /** `update`: a malformed id or an empty SET list fails and leaves the
      table as it was; otherwise the stored row is merged with the data. */
  method Update(table: Table<TagRow>, data: UpdateTag, parse: UuidParser, render: UuidRenderer)
    returns (r: Result<ModelTag.Tag>)
    modifies table
    ensures parse(data.id).Err? ==> r == Err(parse(data.id).error) && table.rows == old(table.rows)
    ensures parse(data.id).Ok? && Assignments(data) == [] ==>
              r == Err(EmptySetList) && table.rows == old(table.rows)
    ensures parse(data.id).Ok? && Assignments(data) != [] && parse(data.id).value !in old(table.rows) ==>
              r == Err(NoRows) && table.rows == old(table.rows)
    ensures parse(data.id).Ok? && Assignments(data) != [] && parse(data.id).value in old(table.rows) ==>
              var id := parse(data.id).value;
              && table.rows == old(table.rows)[id := Merge(old(table.rows)[id], data)]
              && r == Ok(FromRow(Merge(old(table.rows)[id], data), render))
  {
    var st := BuildUpdate(data, parse);
    if st.Err? {
      return Err(st.error);
    }
    var id := parse(data.id).value;
    if id in table.rows {
      ApplyIsMerge(table.rows[id], data);
    }
    // The table runs the SET list of `UpdateStatement`, the same `Assignments(data)`
    // that `BuildUpdate` rendered into `st`; the statement text itself is not executed.
    var row := table.UpdateRow(id, Assignments(data), ApplyColumn);
    if row.Err? {
      return Err(row.error);
    }
    r := Ok(FromRow(row.value, render));
  }

  /** `delete`: a malformed id fails and leaves the table as it was;
      otherwise the row, if any, is removed. */
  method Delete(table: Table<TagRow>, id: string, parse: UuidParser) returns (r: Result<()>)
    modifies table
    ensures parse(id).Err? ==> r == Err(parse(id).error) && table.rows == old(table.rows)
    ensures parse(id).Ok? ==> r == Ok(()) && table.rows == old(table.rows) - {parse(id).value}
  {
    var parsed := parse(id);
    if parsed.Err? {
      return Err(parsed.error);
    }
    table.Delete(parsed.value);
    r := Ok(());
  }
}
