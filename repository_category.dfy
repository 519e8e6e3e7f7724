/** infrastructure/src/database/repository/category.rs, the second draft of
    the category repository. Its row type, row mapping, description default,
    update builder and id parsing are the same code as
    infrastructure/src/database/category_repository.rs, so they are the
    members of `CategoryRepository`; this module proves what the second
    draft's own tests rely on. */
module RepositoryCategory {
  import opened Wrappers
  import opened Foreign
  import opened Sql
  import opened Store
  import opened CategoryRepository

  lemma RenameText()
    ensures UpdatePrefix + ("name" + " = $1") + UpdateWhere + "$2" + UpdateReturning
            == "UPDATE category SET name = $1 WHERE id = $2 RETURNING *"
  {
    assert "name" + " = $1" == "name = $1";
    assert UpdatePrefix + "name = $1" == "UPDATE category SET name = $1";
    assert "UPDATE category SET name = $1" + UpdateWhere == "UPDATE category SET name = $1 WHERE id = ";
    assert "UPDATE category SET name = $1 WHERE id = " + "$2" == "UPDATE category SET name = $1 WHERE id = $2";
  }

  lemma RenameAssignments(id: string, name: string)
    ensures Assignments(UpdateCategory(id, Some(name), None, None)) == [Assignment("name", Text(name))]
  {
    Present3("name", "api_identifier", "description", Some(Text(name)), None, None);
  }

  /** An update that only renames sends one assignment, bound to `$1`, puts
      the id in `$2`, and changes the name column alone. */
  lemma OnlyNameChangesOnlyName(row: CategoryRow, id: string, name: string, parse: UuidParser)
    requires parse(id).Ok?
    ensures Assignments(UpdateCategory(id, Some(name), None, None)) == [Assignment("name", Text(name))]
    ensures UpdateStatement(UpdateCategory(id, Some(name), None, None), parse)
            == Ok(Statement("UPDATE category SET name = $1 WHERE id = $2 RETURNING *",
                            [Text(name), UuidValue(parse(id).value)]))
    ensures Merge(row, UpdateCategory(id, Some(name), None, None)) == row.(name := name)
  {
    RenameAssignments(id, name);
    SingleUpdateById(UpdatePrefix, Assignment("name", Text(name)), UpdateWhere, UuidValue(parse(id).value), UpdateReturning);
    RenameText();
  }

  /** The SET list has no leading separator: a non-empty update starts with
      its first column right after `SET `, bound to `$1`. */
  lemma NoLeadingSeparator(data: UpdateCategory, parse: UuidParser)
    requires parse(data.id).Ok? && Assignments(data) != []
    ensures UpdatePrefix + (Assignments(data)[0].column + " = $1") <= UpdateStatement(data, parse).value.sql
  {
    FirstUpdateById(UpdatePrefix, Assignments(data), UpdateWhere, UuidValue(parse(data.id).value), UpdateReturning);
  }

  /** Columns an update leaves out keep their stored values. */
  lemma AbsentColumnsKept(row: CategoryRow, data: UpdateCategory)
    ensures data.name.None? ==> Merge(row, data).name == row.name
    ensures data.apiIdentifier.None? ==> Merge(row, data).apiIdentifier == row.apiIdentifier
    ensures data.description.None? ==> Merge(row, data).description == row.description
    ensures Merge(row, data).id == row.id
  {
  }
}
