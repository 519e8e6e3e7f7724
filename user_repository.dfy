/** infrastructure/src/database/user_repository.rs: the `users` row, its
    mapping to the domain User, and the partial-update statement of
    `update`. The rest of that file is not part of this model. */
module UserRepository {
  import opened Wrappers
  import opened Foreign
  import opened Sql
  import ModelUser

  /** The row's own role enum, spelled as in the source. */
  datatype RowRole = Admin | Memeber

  /** The columns read back (`deleted_at`, `created_at`, `updated_at` are skipped). */
  datatype UserRow = UserRow(id: Uuid, name: string, iconUrl: string, role: RowRole)

  /** `GetUserQuery`. */
  datatype GetUserQuery = GetUserQuery(offset: i32, limit: i32)

  /** `GetUserQuery::default()`: the first 100 users. */
  const DefaultGetUserQuery := GetUserQuery(0, 100)

  datatype UpdateUser = UpdateUser(
    id: string,
    name: Option<string>,
    iconUrl: Option<string>,
    roleId: Option<string>)

  /** The text `update` starts from, as written: no space after SET. */
  const AsWrittenPrefix := "UPDATE users SET"
  /** The text every other update builder starts from: SET and a space. */
  const UpdatePrefix := "UPDATE users SET "
  const UpdateWhere := " WHERE users.id = "
  const UpdateReturning := " RETURNING *"

  /** The order in which `update` considers the optional columns. */
  const ColumnOrder: seq<string> := ["name", "icon_url", "role"]

  /** `TryFrom<UserRow> for User`: never fails, renders the id, copies name
      and icon URL, and takes the role from the caller's `User<T>` type,
      not from the row. */
  function TryFrom(row: UserRow, kind: ModelUser.RoleKind, render: UuidRenderer): (r: Result<ModelUser.User>)
    ensures r.Ok?
    ensures r.value.id == render(row.id) && r.value.name == row.name && r.value.iconUrl == row.iconUrl
    ensures r.value.role == kind
  {
    Ok(ModelUser.User(render(row.id), row.name, row.iconUrl, kind))
  }

  /** The SET list of `update`: one assignment per present field; the role
      id is bound as the raw string. */
  function Assignments(data: UpdateUser): seq<Assignment>
  {
    Present(ColumnOrder, [TextOf(data.name), TextOf(data.iconUrl), TextOf(data.roleId)])
  }

  /** The statement text and arguments after `prefix`, or the id's parse error. */
  function StatementAfter(prefix: string, data: UpdateUser, parse: UuidParser): Result<Statement>
  {
    var assigns := Assignments(data);
    var id :- parse(data.id);
    Ok(UpdateById(prefix, assigns, UpdateWhere, UuidValue(id), UpdateReturning))
  }

  /** The statement `update` sends as written. */
  function UpdateStatementAsWritten(data: UpdateUser, parse: UuidParser): Result<Statement>
  {
    StatementAfter(AsWrittenPrefix, data, parse)
  }

  /** The statement `update` evidently means to send. */
  function UpdateStatement(data: UpdateUser, parse: UuidParser): Result<Statement>
  {
    StatementAfter(UpdatePrefix, data, parse)
  }

  /** The row mapping ignores the stored role. */
  lemma RowRoleIgnored(row: UserRow, kind: ModelUser.RoleKind, render: UuidRenderer)
    ensures TryFrom(row.(role := Admin), kind, render) == TryFrom(row.(role := Memeber), kind, render)
  {
  }

  /** `update`'s SET list holds exactly the present fields with their new
      values, each column once, in the order name, icon_url, role. */
  lemma AssignmentsSpec(data: UpdateUser)
    ensures FollowsOrder(Assignments(data), ColumnOrder)
    ensures forall v :: (Assignment("name", v) in Assignments(data))
                          <==> data.name.Some? && v == Text(data.name.value)
    ensures forall v :: (Assignment("icon_url", v) in Assignments(data))
                          <==> data.iconUrl.Some? && v == Text(data.iconUrl.value)
    ensures forall v :: (Assignment("role", v) in Assignments(data))
                          <==> data.roleId.Some? && v == Text(data.roleId.value)
  {
    var opts := [TextOf(data.name), TextOf(data.iconUrl), TextOf(data.roleId)];
    assert Distinct(ColumnOrder);
    PresentSpec(ColumnOrder, opts);
    forall v ensures Assignment("name", v) in Assignments(data) <==> opts[0] == Some(v) {
      assert Assignment(ColumnOrder[0], v) in Assignments(data) <==> opts[0] == Some(v);
    }
    forall v ensures Assignment("icon_url", v) in Assignments(data) <==> opts[1] == Some(v) {
      assert Assignment(ColumnOrder[1], v) in Assignments(data) <==> opts[1] == Some(v);
    }
    forall v ensures Assignment("role", v) in Assignments(data) <==> opts[2] == Some(v) {
      assert Assignment(ColumnOrder[2], v) in Assignments(data) <==> opts[2] == Some(v);
    }
  }

  /** A malformed user id fails `update` with the parser's error; a
      well-formed one is bound as a UUID in the last argument, after the
      role id's raw text. */
  lemma UpdateStatementSpec(data: UpdateUser, parse: UuidParser)
    ensures parse(data.id).Err? <==> UpdateStatementAsWritten(data, parse).Err?
    ensures parse(data.id).Err? ==> UpdateStatementAsWritten(data, parse).error == parse(data.id).error
    ensures parse(data.id).Ok? ==>
              var st := UpdateStatementAsWritten(data, parse).value;
              && |st.binds| == |Assignments(data)| + 1
              && st.binds[|st.binds| - 1] == UuidValue(parse(data.id).value)
              && st.binds[..|st.binds| - 1] == Values(Assignments(data))
              && (data.roleId.Some? ==> Text(data.roleId.value) in st.binds)
  {
    if parse(data.id).Ok? {
      var st := UpdateStatementAsWritten(data, parse).value;
      var assigns := Assignments(data);
      assert st.binds[..|st.binds| - 1] == Values(assigns);
      AssignmentsSpec(data);
      if data.roleId.Some? {
        var i :| 0 <= i < |assigns| && assigns[i] == Assignment("role", Text(data.roleId.value));
        assert st.binds[i] == Text(data.roleId.value);
      }
    }
  }

  lemma RenameText()
    ensures AsWrittenPrefix + ("name" + " = $1") + UpdateWhere + "$2" + UpdateReturning
            == "UPDATE users SETname = $1 WHERE users.id = $2 RETURNING *"
  {
    assert "name" + " = $1" == "name = $1";
    assert AsWrittenPrefix + "name = $1" == "UPDATE users SETname = $1";
    assert "UPDATE users SETname = $1" + UpdateWhere == "UPDATE users SETname = $1 WHERE users.id = ";
    assert "UPDATE users SETname = $1 WHERE users.id = " + "$2" == "UPDATE users SETname = $1 WHERE users.id = $2";
  }

  lemma GluedText()
    ensures !(UpdatePrefix <= "UPDATE users SETname = $1 WHERE users.id = $2 RETURNING *")
  {
    var s := "UPDATE users SETname = $1 WHERE users.id = $2 RETURNING *";
    assert s[16] == 'n' && UpdatePrefix[16] == ' ';
  }

  lemma RenameAssignments(id: string, name: string)
    ensures Assignments(UpdateUser(id, Some(name), None, None)) == [Assignment("name", Text(name))]
  {
    Present3("name", "icon_url", "role", Some(Text(name)), None, None);
  }

  /** As written, the first assignment is glued to SET: renaming a user
      sends `UPDATE users SETname = $1 ...`, which Postgres does not parse. */
  lemma MissingSpaceAfterSet(id: string, name: string, parse: UuidParser)
    requires parse(id).Ok?
    ensures UpdateStatementAsWritten(UpdateUser(id, Some(name), None, None), parse)
            == Ok(Statement("UPDATE users SETname = $1 WHERE users.id = $2 RETURNING *",
                            [Text(name), UuidValue(parse(id).value)]))
    ensures !(UpdatePrefix <= UpdateStatementAsWritten(UpdateUser(id, Some(name), None, None), parse).value.sql)
  {
    RenameAssignments(id, name);
    SingleUpdateById(AsWrittenPrefix, Assignment("name", Text(name)), UpdateWhere, UuidValue(parse(id).value), UpdateReturning);
    RenameText();
    GluedText();
  }

  /** Corrected, a non-empty SET list starts one space after SET with its
      first column, bound to `$1`; the arguments are as written. */
  lemma CorrectedSeparatesSet(data: UpdateUser, parse: UuidParser)
    requires parse(data.id).Ok? && Assignments(data) != []
    ensures UpdatePrefix + (Assignments(data)[0].column + " = $1") <= UpdateStatement(data, parse).value.sql
    ensures UpdateStatement(data, parse).value.binds == UpdateStatementAsWritten(data, parse).value.binds
  {
    FirstUpdateById(UpdatePrefix, Assignments(data), UpdateWhere, UuidValue(parse(data.id).value), UpdateReturning);
  }

  /** The three `if let Some(..)` pushes of `update`, in column order, after `prefix`. */
  method PushOptionalColumns(sep: Separated, data: UpdateUser, ghost prefix: string) returns (ghost done: seq<Assignment>)
    requires Emitted(sep, prefix, [])
    modifies sep, sep.builder
    ensures done == Assignments(data)
    ensures Emitted(sep, prefix, done)
  {
    done := PushOptional(sep, "name", TextOf(data.name), prefix, []);
    done := PushOptional(sep, "icon_url", TextOf(data.iconUrl), prefix, done);
    done := PushOptional(sep, "role", TextOf(data.roleId), prefix, done);
    Present3("name", "icon_url", "role", TextOf(data.name), TextOf(data.iconUrl), TextOf(data.roleId));
    assert [] + Optional("name", TextOf(data.name)) == Optional("name", TextOf(data.name));
  }

  /** `update` as written: builds `UPDATE users SET<assignments> WHERE users.id = $k RETURNING *`,
      pushing one assignment per present field, then parses the id. */
  method BuildUpdate(data: UpdateUser, parse: UuidParser) returns (r: Result<Statement>)
    ensures r == UpdateStatementAsWritten(data, parse)
  {
    var qb := new QueryBuilder(AsWrittenPrefix);
    var sep := new Separated(qb, ",");
    ghost var done := PushOptionalColumns(sep, data, AsWrittenPrefix);
    var parsed := parse(data.id);
    if parsed.Err? {
      return Err(parsed.error);
    }
    qb.Push(UpdateWhere);
    qb.PushBind(UuidValue(parsed.value));
    qb.Push(UpdateReturning);
    UpdateByIdUnfold(AsWrittenPrefix, done, UpdateWhere, UuidValue(parsed.value), UpdateReturning);
    r := Ok(qb.Build());
  }
}
