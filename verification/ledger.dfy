/**
 The `Migration` table: one row per applied migration, in the order of the
 auto-increment `id`. The unique index on `name` means no two rows share a
 name, which the `Rows` type carries.
 */
module Ledger {
  import opened Wrappers

  ghost predicate Unique(s: seq<string>) {
    forall i, j :: 0 <= i < j < |s| ==> s[i] != s[j]
  }

  type Rows = s: seq<string> | Unique(s) witness []

  /** The most recently inserted row: `order_by(Migration.id.desc()).first()`. */
  function LastRow(rows: Rows): (r: Option<string>)
    ensures r.None? <==> |rows| == 0
    ensures r.Some? ==> r.value in rows && forall i :: 0 <= i < |rows| - 1 ==> rows[i] != r.value
  {
    if |rows| == 0 then None else Some(rows[|rows| - 1])
  }

  /** `Migration.create(name=...)`; the unique index admits only a new name. */
  function Create(rows: Rows, name: string): (r: Rows)
    requires name !in rows
    ensures forall n :: n in r <==> n in rows || n == name
    ensures |r| == |rows| + 1 && r[..|rows|] == rows && LastRow(r) == Some(name)
  {
    rows + [name]
  }

  /** `delete_instance()` of the row called `name`, if there is one; the
      other rows keep their order. */
  function Delete(rows: Rows, name: string): (r: Rows)
    ensures forall n :: n in r <==> n in rows && n != name
    ensures |r| == if name in rows then |rows| - 1 else |rows|
    ensures name !in rows ==> r == rows
    ensures forall i :: 0 <= i < |rows| && rows[i] == name ==> r == rows[..i] + rows[i + 1..]
  {
    if |rows| == 0 then []
    else
      var tail: Rows := rows[1..];
      var rest := Delete(tail, name);
      if rows[0] == name then
        assert name !in tail by {
          assert forall j :: 0 <= j < |tail| ==> tail[j] == rows[j + 1];
        }
        assert rows[..0] + rows[1..] == tail;
        rest
      else
        assert rows[0] !in tail;
        assert rows == [rows[0]] + tail;
        DeleteBehind(rows, name, rest);
        [rows[0]] + rest
  }

  /** The step of `Delete` past a head that is not `name`. */
  lemma DeleteBehind(rows: seq<string>, name: string, rest: seq<string>)
    requires |rows| > 0 && rows[0] != name
    requires forall i :: 0 <= i < |rows[1..]| && rows[1..][i] == name ==> rest == rows[1..][..i] + rows[1..][i + 1..]
    ensures forall i :: 0 <= i < |rows| && rows[i] == name ==> [rows[0]] + rest == rows[..i] + rows[i + 1..]
  {
    var tail := rows[1..];
    forall i | 0 <= i < |rows| && rows[i] == name
      ensures [rows[0]] + rest == rows[..i] + rows[i + 1..]
    {
      assert tail[i - 1] == name;
      assert rows[..i] == [rows[0]] + tail[..i - 1];
      assert rows[i + 1..] == tail[i..];
    }
  }

  /** Creating a row and then deleting it leaves the table as it was. */
  lemma {:induction false} DeleteUndoesCreate(rows: Rows, name: string)
    requires name !in rows
    ensures Delete(Create(rows, name), name) == rows
  {
    if |rows| == 0 {
      assert Create(rows, name) == [name];
    } else {
      var tail: Rows := rows[1..];
      assert Create(rows, name)[1..] == Create(tail, name);
      DeleteUndoesCreate(tail, name);
      assert rows == [rows[0]] + tail;
    }
  }
}
