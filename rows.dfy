/**
 * Rows as the DB2 driver hands them over: a JavaScript object per row, modelled
 * as its (key, value) pairs in property order.
 */
module Rows {
  import opened Wrappers

  /** A column value; JavaScript's `undefined` is an absent property (`None`), not a value. */
  datatype Value = Null | Text(text: string) | Number(number: int) | Boolean(flag: bool)

  type Row = seq<(string, Value)>

  /** `Object.keys(row)`, in property order. */
  function Keys(row: Row): (ks: seq<string>)
    ensures |ks| == |row| && forall i :: 0 <= i < |row| ==> ks[i] == row[i].0
  {
    if row == [] then [] else [row[0].0] + Keys(row[1..])
  }

  /** A JavaScript object has each property once. */
  predicate WellFormed(row: Row) {
    forall i, j :: 0 <= i < j < |row| ==> row[i].0 != row[j].0
  }

  /** Property access `row.KEY`: the value stored under `key`, or `None` (undefined). */
  function Get(row: Row, key: string): (r: Option<Value>)
    ensures r.Some? ==> (key, r.value) in row
    ensures r.None? ==> forall i :: 0 <= i < |row| ==> row[i].0 != key
  {
    if row == [] then None
    else if row[0].0 == key then Some(row[0].1)
    else Get(row[1..], key)
  }

  /** In a well-formed row, reading a property finds exactly the pair stored under it. */
  lemma {:induction false} GetFindsPair(row: Row, key: string, v: Value)
    requires WellFormed(row)
    ensures Get(row, key) == Some(v) <==> (key, v) in row
  {
    if row != [] {
      assert WellFormed(row[1..]) by {
        forall i, j | 0 <= i < j < |row[1..]| ensures row[1..][i].0 != row[1..][j].0 {
          assert row[1..][i] == row[i + 1] && row[1..][j] == row[j + 1];
        }
      }
      GetFindsPair(row[1..], key, v);
      assert row == [row[0]] + row[1..];
    }
  }
}
