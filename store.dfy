/** An abstract stand-in for one database table: rows keyed by their UUID.
    It gives meaning to the statements the repositories build: an UPDATE
    applies its SET list to the row with the given id, and a paged SELECT
    returns rows in id order. Joins, RETURNING lists of other tables,
    transactions and the wire protocol are not modelled. */
module Store {
  import opened Wrappers
  import opened Foreign
  import opened Sql

  /** How the database reports an UPDATE whose SET list is empty
      (`UPDATE t SET  WHERE ...` is not valid SQL). */
  const EmptySetList := "syntax error: empty SET list"
  /** `sqlx::Error::RowNotFound`, raised by `fetch_one` on no rows. */
  const NoRows := "no rows returned by a query that expected to return at least one row"
  const DuplicateKey := "duplicate key value violates unique constraint"
  const NegativeOffset := "OFFSET must not be negative"
  const NegativeLimit := "LIMIT must not be negative"

  /** The row after the assignments, applied left to right. */
  function ApplyAll<R>(row: R, assigns: seq<Assignment>, apply: (R, Assignment) -> R): R
  {
    if assigns == [] then row else ApplyAll(apply(row, assigns[0]), assigns[1..], apply)
  }

  /** Applying a concatenation is applying one list after the other. */
  lemma {:induction false} ApplyAllAppend<R>(row: R, a: seq<Assignment>, b: seq<Assignment>, apply: (R, Assignment) -> R)
    ensures ApplyAll(row, a + b, apply) == ApplyAll(ApplyAll(row, a, apply), b, apply)
  {
    if a == [] {
      assert a + b == b;
    } else {
      assert (a + b)[1..] == a[1..] + b;
      ApplyAllAppend(apply(row, a[0]), a[1..], b, apply);
    }
  }

  predicate IsLeast(m: Uuid, keys: set<Uuid>)
  {
    m in keys && forall x :: x in keys ==> m <= x
  }

  /** Every non-empty finite set of ids has a least element. */
  lemma {:induction false} MinExists(keys: set<Uuid>)
    requires keys != {}
    ensures exists m :: IsLeast(m, keys)
    decreases keys
  {
    var y :| y in keys;
    var rest := keys - {y};
    if rest == {} {
      forall x | x in keys ensures y <= x {
        assert x !in rest;
      }
      assert IsLeast(y, keys);
    } else {
      MinExists(rest);
      var m :| IsLeast(m, rest);
      if y < m {
        forall x | x in keys ensures y <= x {
          if x != y { assert x in rest; }
        }
        assert IsLeast(y, keys);
      } else {
        forall x | x in keys ensures m <= x {
          if x != y { assert x in rest; }
        }
        assert IsLeast(m, keys);
      }
    }
  }

  predicate StrictlyIncreasing(s: seq<Uuid>)
  {
    forall i, j :: 0 <= i < j < |s| ==> s[i] < s[j]
  }

  /** The ids in ascending order (`ORDER BY id`). */
  ghost function SortedIds(keys: set<Uuid>): seq<Uuid>
    decreases keys
  {
    if keys == {} then []
    else
      MinExists(keys);
      var m :| IsLeast(m, keys);
      [m] + SortedIds(keys - {m})
  }

  /** Sorting starts with the least id. */
  lemma SortedIdsUnfold(keys: set<Uuid>, m: Uuid)
    requires IsLeast(m, keys)
    ensures SortedIds(keys) == [m] + SortedIds(keys - {m})
  {
  }

  /** `SortedIds` lists exactly the given ids. */
  lemma {:induction false} SortedIdsMembers(keys: set<Uuid>)
    ensures forall x :: x in SortedIds(keys) <==> x in keys
    decreases keys
  {
    if keys != {} {
      MinExists(keys);
      var m :| IsLeast(m, keys);
      SortedIdsUnfold(keys, m);
      SortedIdsMembers(keys - {m});
    }
  }

  /** `SortedIds` has one entry per id. */
  lemma {:induction false} SortedIdsLength(keys: set<Uuid>)
    ensures |SortedIds(keys)| == |keys|
    decreases keys
  {
    if keys != {} {
      MinExists(keys);
      var m :| IsLeast(m, keys);
      SortedIdsUnfold(keys, m);
      SortedIdsLength(keys - {m});
      assert keys == (keys - {m}) + {m};
    }
  }

  /** `SortedIds` is in ascending order. */
  lemma {:induction false} SortedIdsIncreasing(keys: set<Uuid>)
    ensures StrictlyIncreasing(SortedIds(keys))
    decreases keys
  {
    if keys != {} {
      MinExists(keys);
      var m :| IsLeast(m, keys);
      var rest := keys - {m};
      SortedIdsUnfold(keys, m);
      SortedIdsIncreasing(rest);
      SortedIdsMembers(rest);
      var s := SortedIds(keys);
      var t := SortedIds(rest);
      assert s == [m] + t;
      forall i, j | 0 <= i < j < |s| ensures s[i] < s[j] {
        assert s[j] == t[j - 1];
        if i == 0 {
          assert t[j - 1] in rest;
        } else {
          assert s[i] == t[i - 1];
        }
      }
    }
  }

  /** `SortedIds` lists every id exactly once, in ascending order. */
  lemma SortedIdsSpec(keys: set<Uuid>)
    ensures StrictlyIncreasing(SortedIds(keys))
    ensures forall x :: x in SortedIds(keys) <==> x in keys
    ensures |SortedIds(keys)| == |keys|
  {
    SortedIdsMembers(keys);
    SortedIdsLength(keys);
    SortedIdsIncreasing(keys);
  }

  function Min(a: int, b: int): int
  {
    if a <= b then a else b
  }

  /** The ids `LIMIT limit OFFSET offset` selects from `keys` in id order. */
  ghost function PageIds(keys: set<Uuid>, limit: nat, offset: nat): seq<Uuid>
  {
    var all := SortedIds(keys);
    all[Min(offset, |all|)..Min(offset + limit, |all|)]
  }

  /** A page is ascending, holds stored ids only, and has `limit` ids unless
      fewer than `limit` remain after skipping `offset`. */
  lemma PageIdsSpec(keys: set<Uuid>, limit: nat, offset: nat)
    ensures StrictlyIncreasing(PageIds(keys, limit, offset))
    ensures forall x :: x in PageIds(keys, limit, offset) ==> x in keys
    ensures |PageIds(keys, limit, offset)| == Min(limit, if offset <= |keys| then |keys| - offset else 0)
  {
    SortedIdsSpec(keys);
    var all := SortedIds(keys);
    var page := PageIds(keys, limit, offset);
    forall x | x in page ensures x in keys {
      var i :| 0 <= i < |page| && page[i] == x;
      assert all[Min(offset, |all|) + i] == x;
    }
  }

  /** Sorts a set of ids by repeatedly taking the least remaining one. */
  method SortIds(keys: set<Uuid>) returns (ids: seq<Uuid>)
    ensures ids == SortedIds(keys)
  {
    var remaining := keys;
    ids := [];
    while remaining != {}
      invariant ids + SortedIds(remaining) == SortedIds(keys)
      decreases remaining
    {
      MinExists(remaining);
      var m :| IsLeast(m, remaining);
      SortedIdsUnfold(remaining, m);
      assert ids + SortedIds(remaining) == (ids + [m]) + SortedIds(remaining - {m});
      ids := ids + [m];
      remaining := remaining - {m};
    }
    assert SortedIds(remaining) == [];
    assert ids + [] == ids;
  }

  class Table<R> {
    var rows: map<Uuid, R>

    constructor()
      ensures rows == map[]
    {
      rows := map[];
    }

    /** `INSERT ... RETURNING *` of a row under a fresh id. */
    method Insert(id: Uuid, row: R) returns (r: Result<R>)
      modifies this
      ensures id in old(rows) ==> r == Err(DuplicateKey) && rows == old(rows)
      ensures id !in old(rows) ==> r == Ok(row) && rows == old(rows)[id := row]
    {
      if id in rows {
        r := Err(DuplicateKey);
      } else {
        rows := rows[id := row];
        r := Ok(row);
      }
    }

    /** `UPDATE ... SET <assigns> WHERE id = <id> RETURNING *` followed by
        `fetch_one`. */
    method UpdateRow(id: Uuid, assigns: seq<Assignment>, apply: (R, Assignment) -> R) returns (r: Result<R>)
      modifies this
      ensures assigns == [] ==> r == Err(EmptySetList) && rows == old(rows)
      ensures assigns != [] && id !in old(rows) ==> r == Err(NoRows) && rows == old(rows)
      ensures assigns != [] && id in old(rows) ==>
                r == Ok(ApplyAll(old(rows)[id], assigns, apply)) && rows == old(rows)[id := r.value]
    {
      if assigns == [] {
        r := Err(EmptySetList);
      } else if id !in rows {
        r := Err(NoRows);
      } else {
        var updated := ApplyAll(rows[id], assigns, apply);
        rows := rows[id := updated];
        r := Ok(updated);
      }
    }

    /** `DELETE ... WHERE id = <id>`: succeeds whether or not the row exists. */
    method Delete(id: Uuid)
      modifies this
      ensures rows == old(rows) - {id}
    {
      rows := rows - {id};
    }

    /** `SELECT * ... ORDER BY id LIMIT <limit> OFFSET <offset>`. */
    method Page(limit: i32, offset: i32) returns (r: Result<seq<R>>)
      ensures offset < 0 ==> r == Err(NegativeOffset)
      ensures offset >= 0 && limit < 0 ==> r == Err(NegativeLimit)
      ensures offset >= 0 && limit >= 0 ==>
                r.Ok? && var ids := PageIds(rows.Keys, limit as nat, offset as nat);
                |r.value| == |ids| && forall i :: 0 <= i < |ids| ==> ids[i] in rows && r.value[i] == rows[ids[i]]
    {
      if offset < 0 {
        return Err(NegativeOffset);
      }
      if limit < 0 {
        return Err(NegativeLimit);
      }
      var all := SortIds(rows.Keys);
      var table := rows;
      var lo := Min(offset as int, |all|);
      var hi := Min(offset as int + limit as int, |all|);
      var page := all[lo..hi];
      PageIdsSpec(rows.Keys, limit as nat, offset as nat);
      assert page == PageIds(rows.Keys, limit as nat, offset as nat);
      r := Ok(seq(|page|, i requires 0 <= i < |page| => table[page[i]]));
    }
  }
}
