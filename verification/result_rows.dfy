/**
 * The result objects the calculators build: an ordered list of
 * key/value entries (a JavaScript object's keys keep insertion order).
 * A cell is either the empty string or a number with its unit; the
 * `toFixed` rendering of the number is not modelled.
 */
module ResultRows {
  import opened JsValues

  datatype Cell = Blank | Amount(x: real, unit: string)

  datatype Row = Row(key: string, cell: Cell)

  /** The pseudo-entry that opens the cost block. */
  const CostsSeparator: string := "--- COSTS ---"

  /** The key of the grand total, always the last entry of a cost block. */
  const TotalCost: string := "TOTAL COST"

  /** Currency the cost cells are shown in. */
  const Currency: string := "ZMW"

  function Keys(rows: seq<Row>): (r: seq<string>)
    ensures |r| == |rows|
    ensures forall k | 0 <= k < |rows| :: r[k] == rows[k].key
  {
    if rows == [] then [] else [rows[0].key] + Keys(rows[1..])
  }

  /** No key occurs twice, as in a JavaScript object. */
  predicate DistinctLabels(rows: seq<Row>) {
    forall i, j | 0 <= i < j < |rows| :: rows[i].key != rows[j].key
  }

  lemma KeysAppend(a: seq<Row>, b: seq<Row>)
    ensures Keys(a + b) == Keys(a) + Keys(b)
  {
    assert forall k | 0 <= k < |a + b| :: Keys(a + b)[k] == (Keys(a) + Keys(b))[k];
  }

  /** Joining two entry lists with distinct keys and no key in common keeps the keys distinct. */
  lemma DistinctConcat(a: seq<Row>, b: seq<Row>)
    requires DistinctLabels(a) && DistinctLabels(b)
    requires forall i, j | 0 <= i < |a| && 0 <= j < |b| :: a[i].key != b[j].key
    ensures DistinctLabels(a + b)
  {
  }

  /** `results[key]`: the cell stored under `key`, if any. */
  function Lookup(rows: seq<Row>, key: string): Option<Cell> {
    if rows == [] then None
    else if rows[0].key == key then Some(rows[0].cell)
    else Lookup(rows[1..], key)
  }

  /**
   * `results[key]` is the cell of the first entry with that key, and is
   * absent exactly when no entry has the key.
   */
  lemma {:induction false} LookupMeaning(rows: seq<Row>, key: string)
    ensures Lookup(rows, key).None? <==> forall k | 0 <= k < |rows| :: rows[k].key != key
    ensures Lookup(rows, key).Some? ==>
              exists i | 0 <= i < |rows| :: rows[i] == Row(key, Lookup(rows, key).value)
                                          && forall j | 0 <= j < i :: rows[j].key != key
  {
    if rows != [] && rows[0].key != key {
      LookupMeaning(rows[1..], key);
      if Lookup(rows, key).Some? {
        var i :| 0 <= i < |rows[1..]| && rows[1..][i] == Row(key, Lookup(rows, key).value)
                 && forall j | 0 <= j < i :: rows[1..][j].key != key;
        assert rows[i + 1] == Row(key, Lookup(rows, key).value);
      }
    } else if rows != [] {
      assert rows[0] == Row(key, Lookup(rows, key).value);
    }
  }

  /** An entry no earlier entry shares its key with is what `results[key]` reads. */
  lemma {:induction false} LookupFirst(rows: seq<Row>, i: nat)
    requires i < |rows|
    requires forall j | 0 <= j < i :: rows[j].key != rows[i].key
    ensures Lookup(rows, rows[i].key) == Some(rows[i].cell)
  {
    if i > 0 {
      assert rows[0].key != rows[i].key;
      assert rows[1..][i - 1] == rows[i];
      forall j | 0 <= j < i - 1 ensures rows[1..][j].key != rows[i].key {
        assert rows[1..][j] == rows[j + 1];
      }
      LookupFirst(rows[1..], i - 1);
    }
  }

  /** The JavaScript truthiness of `results[key]`: present and not the empty string. */
  predicate HasValue(rows: seq<Row>, key: string) {
    var c := Lookup(rows, key);
    c.Some? && c.value.Amount?
  }

  /** Looking a key up in two blocks of entries: the first block wins. */
  lemma {:induction false} LookupAppend(a: seq<Row>, b: seq<Row>, key: string)
    ensures Lookup(a + b, key) == if Lookup(a, key).Some? then Lookup(a, key) else Lookup(b, key)
  {
    if a == [] {
      assert a + b == b;
    } else {
      assert (a + b)[1..] == a[1..] + b;
      if a[0].key != key {
        LookupAppend(a[1..], b, key);
      }
    }
  }
}
