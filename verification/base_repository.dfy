/** The generic data-access layer shared by every repository: a table of
    rows with an auto-increment key, its pure reads (`find`, `findWhere`)
    and its writes (`create`, `update`, `delete`, plus the query builder's
    mass `where(...)->update(...)`). */
module BaseRepository {
  import opened Wrappers
  import opened Seqs
  import opened Entities

  predicate HasId<F>(rows: seq<Row<F>>, id: Id) {
    exists i :: 0 <= i < |rows| && rows[i].id == id
  }

  /** Primary keys are unique and in insertion order. */
  ghost predicate IdsIncreasing<F>(rows: seq<Row<F>>) {
    forall i, j :: 0 <= i < j < |rows| ==> rows[i].id < rows[j].id
  }

  /** `find($id)`: the row with that key, or null. */
  function Find<F>(rows: seq<Row<F>>, id: Id): (r: Option<Row<F>>)
    ensures r.None? <==> !HasId(rows, id)
    ensures r.Some? ==> r.value in rows && r.value.id == id
    ensures r.Some? && IdsIncreasing(rows) ==>
              forall i :: 0 <= i < |rows| && rows[i].id == id ==> rows[i] == r.value
    decreases |rows|
  {
    if |rows| == 0 then None
    else if rows[0].id == id then Some(rows[0])
    else
      assert forall i :: 1 <= i < |rows| ==> rows[i] == rows[1..][i - 1];
      Find(rows[1..], id)
  }

  /** `r` holds exactly the rows of `rows` that satisfy `p`: the meaning of
      a query made of `where` clauses and scopes. */
  ghost predicate Selects<F>(r: seq<Row<F>>, rows: seq<Row<F>>, p: Row<F> -> bool) {
    && (forall i :: 0 <= i < |r| ==> r[i] in rows && p(r[i]))
    && (forall i :: 0 <= i < |rows| && p(rows[i]) ==> rows[i] in r)
  }

  /** A filter selects exactly the rows satisfying its predicate. */
  lemma FilterSelects<F>(rows: seq<Row<F>>, p: Row<F> -> bool)
    ensures Selects(Filter(rows, p), rows, p)
  {
    FilterMembers(rows, p);
  }

  /** All conditions of a `where` array hold. */
  predicate AllHold<F>(conds: seq<F -> bool>, x: F) {
    forall i :: 0 <= i < |conds| ==> conds[i](x)
  }

  /** `findWhere($conditions)`: the rows satisfying the conjunction of the
      conditions, in table order. */
  function FindWhere<F>(rows: seq<Row<F>>, conds: seq<F -> bool>): (r: seq<Row<F>>)
    ensures Selects(r, rows, (row: Row<F>) => AllHold(conds, row.data))
  {
    FilterSelects(rows, (row: Row<F>) => AllHold(conds, row.data));
    Filter(rows, (row: Row<F>) => AllHold(conds, row.data))
  }

  /** The table after `update($data, $id)`. */
  function Patched<F>(rows: seq<Row<F>>, id: Id, patch: F -> F): seq<Row<F>> {
    seq(|rows|, i requires 0 <= i < |rows| =>
      if rows[i].id == id then Row(id, patch(rows[i].data)) else rows[i])
  }

  /** The table after a mass `where(cond)->update(patch)`. */
  function PatchedWhere<F>(rows: seq<Row<F>>, cond: F -> bool, patch: F -> F): seq<Row<F>> {
    seq(|rows|, i requires 0 <= i < |rows| =>
      if cond(rows[i].data) then Row(rows[i].id, patch(rows[i].data)) else rows[i])
  }

  /** The table after `delete($id)`. */
  function Without<F>(rows: seq<Row<F>>, id: Id): seq<Row<F>> {
    Filter(rows, (row: Row<F>) => row.id != id)
  }

  /** Removing rows keeps the keys in order. */
  lemma {:induction false} FilterIncreasing<F>(rows: seq<Row<F>>, p: Row<F> -> bool)
    requires IdsIncreasing(rows)
    ensures IdsIncreasing(Filter(rows, p))
    decreases |rows|
  {
    if |rows| > 0 {
      FilterIncreasing(rows[1..], p);
      FilterMembers(rows[1..], p);
      var rest := Filter(rows[1..], p);
      forall j | 0 <= j < |rest| ensures rows[0].id < rest[j].id {
        assert rest[j] in rows[1..];
      }
    }
  }

  /** After filtering a table with unique keys, `find` sees a row exactly
      when it was there before and passes the filter. */
  lemma {:induction false} FindFilter<F>(rows: seq<Row<F>>, p: Row<F> -> bool, id: Id)
    requires IdsIncreasing(rows)
    ensures Find(Filter(rows, p), id) ==
              if Find(rows, id).Some? && p(Find(rows, id).value) then Find(rows, id) else None
    decreases |rows|
  {
    if |rows| > 0 {
      FindFilter(rows[1..], p, id);
      FilterMembers(rows[1..], p);
      var rest := Filter(rows[1..], p);
      if !p(rows[0]) {
        assert Filter(rows, p) == rest;
      } else {
        assert Filter(rows, p) == [rows[0]] + rest;
        assert Filter(rows, p)[1..] == rest;
      }
    }
  }

  /** The row a create appends is found under its new key, and every other
      key finds what it found before. */
  lemma {:induction false} FindAppend<F>(rows: seq<Row<F>>, row: Row<F>, id: Id)
    requires forall i :: 0 <= i < |rows| ==> rows[i].id < row.id
    ensures Find(rows + [row], id) == if id == row.id then Some(row) else Find(rows, id)
    decreases |rows|
  {
    if |rows| == 0 {
      assert rows + [row] == [row];
    } else {
      assert (rows + [row])[1..] == rows[1..] + [row];
      FindAppend(rows[1..], row, id);
    }
  }

  /** After an update the patched row is found with its patched attributes,
      and every other key finds what it found before. */
  lemma {:induction false} FindPatched<F>(rows: seq<Row<F>>, id: Id, patch: F -> F, k: Id)
    ensures Find(Patched(rows, id, patch), k) ==
              if k == id && Find(rows, k).Some? then Some(Row(id, patch(Find(rows, k).value.data)))
              else Find(rows, k)
    decreases |rows|
  {
    if |rows| > 0 {
      assert Patched(rows, id, patch)[1..] == Patched(rows[1..], id, patch);
      FindPatched(rows[1..], id, patch, k);
    }
  }

  /** Mass updates only rewrite rows: keys and their order stay. */
  lemma PatchedKeys<F>(rows: seq<Row<F>>, cond: F -> bool, patch: F -> F, id: Id)
    ensures IdsIncreasing(rows) ==> IdsIncreasing(PatchedWhere(rows, cond, patch))
    ensures IdsIncreasing(rows) ==> IdsIncreasing(Patched(rows, id, patch))
  {
  }

  /** A key that is present occurs exactly once, so deleting it removes one row. */
  lemma {:induction false} WithoutCount<F>(rows: seq<Row<F>>, id: Id)
    requires IdsIncreasing(rows) && HasId(rows, id)
    ensures |Without(rows, id)| == |rows| - 1
    decreases |rows|
  {
    if rows[0].id == id {
      FilterAll(rows[1..], (row: Row<F>) => row.id != id);
    } else {
      var k :| 0 <= k < |rows| && rows[k].id == id;
      assert rows[1..][k - 1].id == id;
      WithoutCount(rows[1..], id);
    }
  }

  /** A table: the rows of one model and its auto-increment counter. */
  class Repository<F> {
    var rows: seq<Row<F>>
    var nextId: Id

    ghost predicate Valid()
      reads this
    {
      IdsIncreasing(rows) && forall i :: 0 <= i < |rows| ==> rows[i].id < nextId
    }

    constructor ()
      ensures Valid() && rows == [] && nextId == 1
    {
      rows := [];
      nextId := 1;
    }

    /** `create($data)`: appends one row under a fresh key. */
    method Create(data: F) returns (row: Row<F>)
      requires Valid()
      modifies this
      ensures Valid()
      ensures row == Row(old(nextId), data) && !HasId(old(rows), row.id)
      ensures rows == old(rows) + [row] && nextId == old(nextId) + 1
      ensures forall k :: Find(rows, k) == if k == row.id then Some(row) else Find(old(rows), k)
    {
      row := Row(nextId, data);
      forall k ensures Find(rows + [row], k) == if k == row.id then Some(row) else Find(rows, k) {
        FindAppend(rows, row, k);
      }
      rows := rows + [row];
      nextId := nextId + 1;
    }

    /** `update($data, $id)`: the source dereferences the result of `find`,
        so the key must exist. Only that row changes, by exactly the patch. */
    method Update(id: Id, patch: F -> F) returns (ok: bool)
      requires Valid() && HasId(rows, id)
      modifies this
      ensures Valid() && ok
      ensures rows == Patched(old(rows), id, patch) && nextId == old(nextId)
      ensures Find(rows, id) == Some(Row(id, patch(Find(old(rows), id).value.data)))
      ensures forall k :: k != id ==> Find(rows, k) == Find(old(rows), k)
    {
      PatchedKeys(rows, (x: F) => true, patch, id);
      forall k ensures Find(Patched(rows, id, patch), k) ==
          if k == id && Find(rows, k).Some? then Some(Row(id, patch(Find(rows, k).value.data)))
          else Find(rows, k) {
        FindPatched(rows, id, patch, k);
      }
      rows := Patched(rows, id, patch);
      ok := true;
    }

    /** `delete($id)`: removes exactly the row with that key, which must exist. */
    method Delete(id: Id) returns (ok: bool)
      requires Valid() && HasId(rows, id)
      modifies this
      ensures Valid() && ok
      ensures rows == Without(old(rows), id) && nextId == old(nextId)
      ensures |rows| == |old(rows)| - 1
      ensures forall k :: Find(rows, k) == if k == id then None else Find(old(rows), k)
    {
      var keep := (row: Row<F>) => row.id != id;
      FilterIncreasing(rows, keep);
      FilterMembers(rows, keep);
      WithoutCount(rows, id);
      forall k ensures Find(Filter(rows, keep), k) == if k == id then None else Find(rows, k) {
        FindFilter(rows, keep, k);
      }
      rows := Without(rows, id);
      ok := true;
    }

    /** `Model::where(cond)->update(patch)`: rewrites every matching row in
        one statement and reports how many matched. */
    method UpdateWhere(cond: F -> bool, patch: F -> F) returns (affected: nat)
      requires Valid()
      modifies this
      ensures Valid()
      ensures rows == PatchedWhere(old(rows), cond, patch) && nextId == old(nextId)
      ensures affected == |Filter(old(rows), (row: Row<F>) => cond(row.data))|
    {
      PatchedKeys(rows, cond, patch, 0);
      affected := |Filter(rows, (row: Row<F>) => cond(row.data))|;
      rows := PatchedWhere(rows, cond, patch);
    }
  }
}
