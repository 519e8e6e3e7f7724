/** infrastructure/src/database/category_repository.rs: the `category` table
    row, its mapping to the domain Category, the description default of
    `create`, the partial-update statement and id parsing of `update` and
    `delete`, run against an abstract table. */
module CategoryRepository {
  import opened Wrappers
  import opened Foreign
  import opened Sql
  import opened Store
  import ModelCategory

  /** The columns the builder reads back (`created_at`/`updated_at` are skipped). */
  datatype CategoryRow = CategoryRow(id: Uuid, name: string, apiIdentifier: string, description: string)

  datatype CreateCategory = CreateCategory(name: string, apiIdentifier: string, description: Option<string>)

  datatype UpdateCategory = UpdateCategory(
    id: string,
    name: Option<string>,
    apiIdentifier: Option<string>,
    description: Option<string>)

  const UpdatePrefix := "UPDATE category SET "
  const UpdateWhere := " WHERE id = "
  const UpdateReturning := " RETURNING *"
  const DeleteSql := "DELETE FROM category WHERE id = $1"

  /** The order in which `update` considers the optional columns. */
  const ColumnOrder: seq<string> := ["name", "api_identifier", "description"]

  /** `TryFrom<CategoryRow> for Category`: never fails, copies the columns
      without re-running validation, and always reports a description. */
  function TryFrom(row: CategoryRow, render: UuidRenderer): (r: Result<ModelCategory.Category>)
    ensures r.Ok?
    ensures r.value.id == render(row.id) && r.value.name == row.name
    ensures r.value.apiIdentifier == row.apiIdentifier
    ensures r.value.description == Some(row.description)
  {
    Ok(ModelCategory.Category(render(row.id), row.name, row.apiIdentifier, Some(row.description)))
  }

  /** The description `create` stores: the given one, or "" when absent. */
  function StoredDescription(description: Option<string>): (s: string)
    ensures description.Some? ==> s == description.value
    ensures description.None? ==> s == ""
  {
    match description
    case Some(d) => d
    case None => ""
  }

  /** The row `create` inserts under the id the database assigns. */
  function NewRow(id: Uuid, data: CreateCategory): CategoryRow
  {
    CategoryRow(id, data.name, data.apiIdentifier, StoredDescription(data.description))
  }

  /** The SET list of `update`: one assignment per present field. */
  function Assignments(data: UpdateCategory): seq<Assignment>
  {
    Present(ColumnOrder, [TextOf(data.name), TextOf(data.apiIdentifier), TextOf(data.description)])
  }

  /** The statement `update` sends, or the id's parse error. */
  function UpdateStatement(data: UpdateCategory, parse: UuidParser): Result<Statement>
  {
    var assigns := Assignments(data);
    var id :- parse(data.id);
    Ok(UpdateById(UpdatePrefix, assigns, UpdateWhere, UuidValue(id), UpdateReturning))
  }

  /** The statement `delete` sends, or the id's parse error. */
  function DeleteStatement(id: string, parse: UuidParser): (r: Result<Statement>)
    ensures parse(id).Err? ==> r == Err(parse(id).error)
    ensures parse(id).Ok? ==> r == Ok(Statement(DeleteSql, [UuidValue(parse(id).value)]))
  {
    var u :- parse(id);
    Ok(Statement(DeleteSql, [UuidValue(u)]))
  }

  /** What one SET item does to a stored row. */
  function ApplyColumn(row: CategoryRow, a: Assignment): CategoryRow
  {
    match a.value
    case Text(s) =>
      if a.column == "name" then row.(name := s)
      else if a.column == "api_identifier" then row.(apiIdentifier := s)
      else if a.column == "description" then row.(description := s)
      else row
    case _ => row
  }

  /** The partial update as the use-case test's mock spells it out: a present
      field replaces the stored value, an absent one keeps it. */
  function Merge(row: CategoryRow, data: UpdateCategory): CategoryRow
  {
    CategoryRow(
      row.id,
      if data.name.Some? then data.name.value else row.name,
      if data.apiIdentifier.Some? then data.apiIdentifier.value else row.apiIdentifier,
      if data.description.Some? then data.description.value else row.description)
  }

  /** The mock repository of the use-case test: merges into the domain
      category and re-validates with `Category::try_new`. */
  function MockUpdate(c: ModelCategory.Category, data: UpdateCategory): Result<ModelCategory.Category>
  {
    ModelCategory.TryNew(
      c.id,
      if data.name.Some? then data.name.value else c.name,
      if data.apiIdentifier.Some? then data.apiIdentifier.value else c.apiIdentifier,
      if data.description.Some? then Some(data.description.value) else c.description)
  }

  /** `update`'s SET list holds exactly the present fields with their new
      values, each column once, in the order name, api_identifier, description. */
  lemma AssignmentsSpec(data: UpdateCategory)
    ensures FollowsOrder(Assignments(data), ColumnOrder)
    ensures forall v :: Assignment("name", v) in Assignments(data) <==> data.name.Some? && v == Text(data.name.value)
    ensures forall v :: (Assignment("api_identifier", v) in Assignments(data))
                          <==> data.apiIdentifier.Some? && v == Text(data.apiIdentifier.value)
    ensures forall v :: (Assignment("description", v) in Assignments(data))
                          <==> data.description.Some? && v == Text(data.description.value)
  {
    var opts := [TextOf(data.name), TextOf(data.apiIdentifier), TextOf(data.description)];
    assert Distinct(ColumnOrder);
    PresentSpec(ColumnOrder, opts);
    forall v ensures Assignment("name", v) in Assignments(data) <==> opts[0] == Some(v) {
      assert Assignment(ColumnOrder[0], v) in Assignments(data) <==> opts[0] == Some(v);
    }
    forall v ensures Assignment("api_identifier", v) in Assignments(data) <==> opts[1] == Some(v) {
      assert Assignment(ColumnOrder[1], v) in Assignments(data) <==> opts[1] == Some(v);
    }
    forall v ensures Assignment("description", v) in Assignments(data) <==> opts[2] == Some(v) {
      assert Assignment(ColumnOrder[2], v) in Assignments(data) <==> opts[2] == Some(v);
    }
  }

  /** A malformed id fails `update` with the parser's error, before any
      statement exists; a well-formed one is bound as the last argument, and
      the WHERE placeholder refers to it. */
  lemma UpdateStatementSpec(data: UpdateCategory, parse: UuidParser)
    ensures parse(data.id).Err? <==> UpdateStatement(data, parse).Err?
    ensures parse(data.id).Err? ==> UpdateStatement(data, parse).error == parse(data.id).error
    ensures parse(data.id).Ok? ==>
              var st := UpdateStatement(data, parse).value;
              && |st.binds| == |Assignments(data)| + 1
              && st.binds[|st.binds| - 1] == UuidValue(parse(data.id).value)
              && st.binds[..|st.binds| - 1] == Values(Assignments(data))
              && UpdatePrefix <= st.sql
              && EndsWith(st.sql, UpdateWhere + Placeholder(|st.binds|) + UpdateReturning)
  {
    if parse(data.id).Ok? {
      UpdateByIdText(UpdatePrefix, Assignments(data), UpdateWhere, UuidValue(parse(data.id).value), UpdateReturning);
    }
  }

  /** The code does not guard the empty SET list: with no field present the
      statement is still sent, and the table rejects it. */
  lemma EmptyUpdateUnguarded(id: string, parse: UuidParser)
    requires parse(id).Ok?
    ensures Assignments(UpdateCategory(id, None, None, None)) == []
    ensures UpdateStatement(UpdateCategory(id, None, None, None), parse)
            == Ok(Statement(UpdatePrefix + UpdateWhere + "$1" + UpdateReturning, [UuidValue(parse(id).value)]))
    ensures UpdatePrefix + UpdateWhere + "$1" + UpdateReturning == "UPDATE category SET  WHERE id = $1 RETURNING *"
  {
    Present3("name", "api_identifier", "description", None, None, None);
    EmptyUpdateById(UpdatePrefix, UpdateWhere, UuidValue(parse(id).value), UpdateReturning);
    EmptyUpdateText();
  }

  lemma EmptyUpdateText()
    ensures UpdatePrefix + UpdateWhere + "$1" + UpdateReturning == "UPDATE category SET  WHERE id = $1 RETURNING *"
  {
    assert UpdatePrefix + UpdateWhere == "UPDATE category SET  WHERE id = ";
    assert "UPDATE category SET  WHERE id = " + "$1" == "UPDATE category SET  WHERE id = $1";
  }

  /** Running the SET list on a stored row is the mock's merge. */
  lemma ApplyIsMerge(row: CategoryRow, data: UpdateCategory)
    ensures ApplyAll(row, Assignments(data), ApplyColumn) == Merge(row, data)
  {
    var n := Optional("name", TextOf(data.name));
    var a := Optional("api_identifier", TextOf(data.apiIdentifier));
    var d := Optional("description", TextOf(data.description));
    Present3("name", "api_identifier", "description",
             TextOf(data.name), TextOf(data.apiIdentifier), TextOf(data.description));
    ApplyAllAppend(row, n + a, d, ApplyColumn);
    ApplyAllAppend(row, n, a, ApplyColumn);
  }

  /** Updating twice with the same data is updating once. */
  lemma MergeIdempotent(row: CategoryRow, data: UpdateCategory)
    ensures Merge(Merge(row, data), data) == Merge(row, data)
  {
  }

  /** The mapped result of `update` agrees with the mock whenever the mock's
      re-validation accepts the merged category. */
  lemma MergeMatchesMock(row: CategoryRow, data: UpdateCategory, render: UuidRenderer)
    ensures var mock := MockUpdate(TryFrom(row, render).value, data);
            mock.Ok? ==> mock.value == TryFrom(Merge(row, data), render).value
  {
  }

  /** A category created without a description reads back with Some("") rather than None. */
  lemma CreatedWithoutDescription(id: Uuid, name: string, apiIdentifier: string, render: UuidRenderer)
    ensures TryFrom(NewRow(id, CreateCategory(name, apiIdentifier, None)), render).value.description == Some("")
  {
  }

  /** Row mapping does not validate: a stored row with an empty name maps to
      a category `Category::try_new` would refuse. */
  lemma MappingDoesNotValidate(id: Uuid, render: UuidRenderer)
    ensures TryFrom(CategoryRow(id, "", "api", ""), render).Ok?
    ensures ModelCategory.TryNew(render(id), "", "api", Some("")) == Err(ModelCategory.NameTooShort)
  {
  }

  /** The three `if let Some(..)` pushes of `update`, in column order. */
  method PushOptionalColumns(sep: Separated, data: UpdateCategory) returns (ghost done: seq<Assignment>)
    requires Emitted(sep, UpdatePrefix, [])
    modifies sep, sep.builder
    ensures done == Assignments(data)
    ensures Emitted(sep, UpdatePrefix, done)
  {
    done := PushOptional(sep, "name", TextOf(data.name), UpdatePrefix, []);
    done := PushOptional(sep, "api_identifier", TextOf(data.apiIdentifier), UpdatePrefix, done);
    done := PushOptional(sep, "description", TextOf(data.description), UpdatePrefix, done);
    Present3("name", "api_identifier", "description",
             TextOf(data.name), TextOf(data.apiIdentifier), TextOf(data.description));
    assert [] + Optional("name", TextOf(data.name)) == Optional("name", TextOf(data.name));
  }

  /** `update`: builds `UPDATE category SET <assignments> WHERE id = $k RETURNING *`,
      pushing one assignment per present field, then parses the id. */
  method BuildUpdate(data: UpdateCategory, parse: UuidParser) returns (r: Result<Statement>)
    ensures r == UpdateStatement(data, parse)
  {
    var qb := new QueryBuilder(UpdatePrefix);
    var sep := new Separated(qb, ",");
    ghost var done := PushOptionalColumns(sep, data);
    var parsed := parse(data.id);
    if parsed.Err? {
      return Err(parsed.error);
    }
    qb.Push(UpdateWhere);
    qb.PushBind(UuidValue(parsed.value));
    qb.Push(UpdateReturning);
    UpdateByIdUnfold(UpdatePrefix, done, UpdateWhere, UuidValue(parsed.value), UpdateReturning);
    r := Ok(qb.Build());
  }

  /** `create`: inserts the row with the default description and maps it back. */
  method Create(table: Table<CategoryRow>, data: CreateCategory, newId: Uuid, render: UuidRenderer)
    returns (r: Result<ModelCategory.Category>)
    modifies table
    ensures newId in old(table.rows) ==> r == Err(DuplicateKey) && table.rows == old(table.rows)
    ensures newId !in old(table.rows) ==>
              && table.rows == old(table.rows)[newId := NewRow(newId, data)]
              && r == TryFrom(NewRow(newId, data), render)
  {
    var inserted := table.Insert(newId, NewRow(newId, data));
    if inserted.Err? {
      return Err(inserted.error);
    }
    r := TryFrom(inserted.value, render);
  }

  /** `update`: a malformed id or an empty SET list fails and leaves the
      table as it was; otherwise the stored row is merged with the data. */
  method Update(table: Table<CategoryRow>, data: UpdateCategory, parse: UuidParser, render: UuidRenderer)
    returns (r: Result<ModelCategory.Category>)
    modifies table
    ensures parse(data.id).Err? ==> r == Err(parse(data.id).error) && table.rows == old(table.rows)
    ensures parse(data.id).Ok? && Assignments(data) == [] ==>
              r == Err(EmptySetList) && table.rows == old(table.rows)
    ensures parse(data.id).Ok? && Assignments(data) != [] && parse(data.id).value !in old(table.rows) ==>
              r == Err(NoRows) && table.rows == old(table.rows)
    ensures parse(data.id).Ok? && Assignments(data) != [] && parse(data.id).value in old(table.rows) ==>
              var id := parse(data.id).value;
              && table.rows == old(table.rows)[id := Merge(old(table.rows)[id], data)]
              && r == TryFrom(Merge(old(table.rows)[id], data), render)
  {
    var st := BuildUpdate(data, parse);
    if st.Err? {
      return Err(st.error);
    }
    var id := parse(data.id).value;
    if id in table.rows {
      ApplyIsMerge(table.rows[id], data);
    }
    // The table runs the SET list of `UpdateStatement`, the same `Assignments(data)`
    // that `BuildUpdate` rendered into `st`; the statement text itself is not executed.
    var row := table.UpdateRow(id, Assignments(data), ApplyColumn);
    if row.Err? {
      return Err(row.error);
    }
    r := TryFrom(row.value, render);
  }

  /** `delete`: a malformed id fails and leaves the table as it was;
      otherwise the row, if any, is removed. */
  method Delete(table: Table<CategoryRow>, id: string, parse: UuidParser) returns (r: Result<()>)
    modifies table
    ensures parse(id).Err? ==> r == Err(parse(id).error) && table.rows == old(table.rows)
    ensures parse(id).Ok? ==> r == Ok(()) && table.rows == old(table.rows) - {parse(id).value}
  {
    var st := DeleteStatement(id, parse);
    if st.Err? {
      return Err(st.error);
    }
    table.Delete(parse(id).value);
    r := Ok(());
  }
}
