/** The settings table and its flattened `name => value` view. */
module Settings {

  /** One row of the `settings` table. */
  datatype Row = Row(name: string, value: string)

  /** The table flattened row by row in table order; a later row with a name
      already seen overwrites the earlier value. Its names are exactly the
      names of the rows. */
  function Flatten(rows: seq<Row>): (m: map<string, string>)
    ensures m.Keys == set r | r in rows :: r.name
  {
    if rows == [] then map[]
    else
      var init := rows[..|rows| - 1];
      assert rows == init + [rows[|rows| - 1]];
      Flatten(init)[rows[|rows| - 1].name := rows[|rows| - 1].value]
  }

  /** The `foreach` that builds `$data` key by key. */
  method FlattenRows(rows: seq<Row>) returns (data: map<string, string>)
    ensures data == Flatten(rows)
  {
    data := map[];
    var i := 0;
    while i < |rows|
      invariant 0 <= i <= |rows|
      invariant data == Flatten(rows[..i])
    {
      assert rows[..i + 1][..i] == rows[..i];
      data := data[rows[i].name := rows[i].value];
      i := i + 1;
    }
    assert rows[..|rows|] == rows;
  }

  /** The flattened value of a name is the value of the last row carrying it. */
  lemma {:induction false} FlattenLastWins(rows: seq<Row>, i: nat)
    requires i < |rows|
    requires forall j :: i < j < |rows| ==> rows[j].name != rows[i].name
    ensures rows[i].name in Flatten(rows)
    ensures Flatten(rows)[rows[i].name] == rows[i].value
  {
    if i < |rows| - 1 {
      var init := rows[..|rows| - 1];
      assert init[i] == rows[i];
      FlattenLastWins(init, i);
    }
  }

  /** `update ... where name = k`: every row named `k` gets value `v`; no row
      is inserted, removed or renamed. */
  function UpdateRows(rows: seq<Row>, k: string, v: string): (r: seq<Row>)
    ensures |r| == |rows|
    ensures forall i :: 0 <= i < |rows| ==> r[i].name == rows[i].name
    ensures forall i :: 0 <= i < |rows| && rows[i].name == k ==> r[i].value == v
    ensures forall i :: 0 <= i < |rows| && rows[i].name != k ==> r[i] == rows[i]
  {
    seq(|rows|, i requires 0 <= i < |rows| => if rows[i].name == k then Row(k, v) else rows[i])
  }

  /** Updating the rows named `k` changes the flattened map at `k` only, and
      only when `k` was already there. */
  lemma {:induction false} FlattenUpdate(rows: seq<Row>, k: string, v: string)
    ensures Flatten(UpdateRows(rows, k, v))
         == if k in Flatten(rows) then Flatten(rows)[k := v] else Flatten(rows)
  {
    if rows != [] {
      var n := |rows|;
      var init := rows[..n - 1];
      var u := UpdateRows(rows, k, v);
      assert u[..n - 1] == UpdateRows(init, k, v);
      FlattenUpdate(init, k, v);
    }
  }
}
