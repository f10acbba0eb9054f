/** Database rows and integer keys: what `SELECT COALESCE(MAX(key), 0) + 1` gives
    and why appending under it is safe. */
module Tables {
  import opened Wrappers

  /** A database value. */
  datatype Value = Null | Number(n: int) | Text(s: string)

  type Row = map<string, Value>

  /** The row with a value in a column the rules may leave unnamed. */
  function Stamped(row: Row, column: Option<string>, value: Value): Row {
    if column.None? then row else row[column.value := value]
  }

  predicate HasKeyIn(row: Row, column: string) {
    column in row && row[column].Number?
  }

  function KeyIn(row: Row, column: string): int
    requires HasKeyIn(row, column)
  {
    row[column].n
  }

  /** `MAX(column)`; rows without a key do not count. */
  function MaxKeyIn(table: seq<Row>, column: string): Option<int> {
    if table == [] then None
    else
      var rest, last := MaxKeyIn(table[..|table| - 1], column), table[|table| - 1];
      if !HasKeyIn(last, column) then rest
      else if rest.None? || KeyIn(last, column) > rest.value then Some(KeyIn(last, column))
      else rest
  }

  function NextKeyIn(table: seq<Row>, column: string): int {
    match MaxKeyIn(table, column)
    case None => 1
    case Some(m) => m + 1
  }

  ghost predicate UniqueKeysIn(table: seq<Row>, column: string) {
    forall i, j :: 0 <= i < j < |table| && HasKeyIn(table[i], column) && HasKeyIn(table[j], column) ==>
      KeyIn(table[i], column) != KeyIn(table[j], column)
  }

  lemma {:induction false} MaxKeyBounds(table: seq<Row>, column: string, i: nat)
    requires i < |table| && HasKeyIn(table[i], column)
    ensures MaxKeyIn(table, column).Some? && KeyIn(table[i], column) <= MaxKeyIn(table, column).value
  {
    if i < |table| - 1 { MaxKeyBounds(table[..|table| - 1], column, i); }
  }

  /** Appending a row under the next key keeps keys unique and moves the next key
      up by one. */
  lemma NextKeyIsFresh(table: seq<Row>, column: string, row: Row)
    requires HasKeyIn(row, column) && KeyIn(row, column) == NextKeyIn(table, column)
    ensures UniqueKeysIn(table, column) ==> UniqueKeysIn(table + [row], column)
    ensures NextKeyIn(table + [row], column) == NextKeyIn(table, column) + 1
  {
    assert (table + [row])[..|table|] == table;
    forall i | 0 <= i < |table| && HasKeyIn(table[i], column) ensures KeyIn(table[i], column) < KeyIn(row, column) {
      MaxKeyBounds(table, column, i);
    }
  }

  /** The column holds this number. */
  ghost predicate HoldsNumber(row: Row, column: string, n: int) {
    column in row && row[column] == Number(n)
  }

  /** In a table without keys the next one is 1; otherwise it is one more than some key
      that is there and than no lesser one. */
  lemma {:induction false} NextKeyIsOneMore(table: seq<Row>, column: string)
    ensures (forall i, n :: 0 <= i < |table| ==> !HoldsNumber(table[i], column, n)) ==> NextKeyIn(table, column) == 1
    ensures forall i, n :: 0 <= i < |table| && HoldsNumber(table[i], column, n) ==> n < NextKeyIn(table, column)
    ensures (exists i, n :: 0 <= i < |table| && HoldsNumber(table[i], column, n)) ==>
              exists i :: 0 <= i < |table| && HoldsNumber(table[i], column, NextKeyIn(table, column) - 1)
  {
    forall i, n | 0 <= i < |table| && HoldsNumber(table[i], column, n) ensures n < NextKeyIn(table, column) {
      MaxKeyBounds(table, column, i);
    }
    if i, n :| 0 <= i < |table| && HoldsNumber(table[i], column, n) {
      MaxKeyBounds(table, column, i);
      var k := MaxKeyIsThere(table, column);
    } else if MaxKeyIn(table, column).Some? {
      var k := MaxKeyIsThere(table, column);
      assert false;
    }
  }

  lemma {:induction false} MaxKeyIsThere(table: seq<Row>, column: string) returns (i: nat)
    requires MaxKeyIn(table, column).Some?
    ensures i < |table| && HoldsNumber(table[i], column, MaxKeyIn(table, column).value)
  {
    var n := |table| - 1;
    if HoldsNumber(table[n], column, MaxKeyIn(table, column).value) { i := n; } else { i := MaxKeyIsThere(table[..n], column); }
  }
}
