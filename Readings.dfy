/**
 * One sensor reading as a row of the forecaster's feature matrix
 * (columns tds, temperature, moisture, in that order), and the two
 * numpy reshapes the forecaster performs: a block of rows flattened
 * row-major into one vector, and a vector cut back into rows of three.
 */
module Readings {

  datatype Reading = Reading(tds: real, temperature: real, moisture: real)

  /** Column `c` of a row: 0 is tds, 1 temperature, 2 moisture. */
  function Column(r: Reading, c: nat): real
    requires c < 3
  {
    if c == 0 then r.tds else if c == 1 then r.temperature else r.moisture
  }

  /** `rows.reshape(-1)`: the rows laid out one after another. */
  function Flatten(rows: seq<Reading>): (v: seq<real>)
    ensures |v| == 3 * |rows|
  {
    if rows == [] then []
    else [rows[0].tds, rows[0].temperature, rows[0].moisture] + Flatten(rows[1..])
  }

  /** `v.reshape(-1, 3)`: consecutive triples read back as rows. */
  function Unflatten(v: seq<real>): (rows: seq<Reading>)
    requires |v| % 3 == 0
    ensures 3 * |rows| == |v|
  {
    if v == [] then [] else [Reading(v[0], v[1], v[2])] + Unflatten(v[3..])
  }

  /** Element `3k + c` of a flattened block is column `c` of row `k`. */
  lemma {:induction false} FlattenAt(rows: seq<Reading>, k: nat, c: nat)
    requires k < |rows| && c < 3
    ensures Flatten(rows)[3 * k + c] == Column(rows[k], c)
  {
    if k > 0 {
      FlattenAt(rows[1..], k - 1, c);
    }
  }

  /** Row `k` of a vector cut into triples holds elements `3k`, `3k+1`, `3k+2`. */
  lemma {:induction false} UnflattenAt(v: seq<real>, k: nat)
    requires |v| % 3 == 0 && 3 * k + 2 < |v|
    ensures Unflatten(v)[k] == Reading(v[3 * k], v[3 * k + 1], v[3 * k + 2])
  {
    if k > 0 {
      UnflattenAt(v[3..], k - 1);
    }
  }

  /** Flattening then cutting into triples gives back the rows. */
  lemma {:induction false} UnflattenFlatten(rows: seq<Reading>)
    ensures Unflatten(Flatten(rows)) == rows
  {
    if rows != [] {
      var v := Flatten(rows);
      assert v[3..] == Flatten(rows[1..]);
      UnflattenFlatten(rows[1..]);
    }
  }

  /** Cutting into triples then flattening gives back the vector. */
  lemma {:induction false} FlattenUnflatten(v: seq<real>)
    requires |v| % 3 == 0
    ensures Flatten(Unflatten(v)) == v
  {
    if v != [] {
      var rows := Unflatten(v);
      assert rows[1..] == Unflatten(v[3..]);
      FlattenUnflatten(v[3..]);
    }
  }
}
