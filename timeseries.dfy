/**
 The outbreak time series one simulation produces: a table with the columns
 time, node, age, state and total, and the keyed view of it that pandas
 builds with `set_index(["time", "node", "age", "state"])` and undoes with
 `reset_index()`.
 */
module TimeSeries {

  type Node = string
  type Age = string
  type Compartment = string

  /** The composite index (time, node, age, state) of one row. */
  type Key = (int, Node, Age, Compartment)

  /** One row of the table. */
  datatype Row = Row(time: int, node: Node, age: Age, state: Compartment, total: real) {
    function IndexKey(): Key {
      (time, node, age, state)
    }
  }

  /** The row with index `k` and the value `total` in the total column. */
  function RowAt(k: Key, total: real): Row {
    Row(k.0, k.1, k.2, k.3, total)
  }

  /** A whole table, rows in order. */
  type Frame = seq<Row>

  function KeySet(f: Frame): set<Key> {
    set j | 0 <= j < |f| :: f[j].IndexKey()
  }

  /** No two rows share an index: the external model yields one row per (time, node, age, state). */
  predicate UniqueKeys(f: Frame) {
    forall i, j :: 0 <= i < j < |f| ==> IndexOf(f)[i] != IndexOf(f)[j]
  }

  /** A table indexed by (time, node, age, state): the index in row order and the total column keyed by it. */
  datatype Indexed = Indexed(index: seq<Key>, total: map<Key, real>)

  /** The rows' keys, in row order. */
  function IndexOf(f: Frame): seq<Key> {
    seq(|f|, j requires 0 <= j < |f| => f[j].IndexKey())
  }

  /** Distinct keys, stated row by row. */
  lemma DistinctRows(f: Frame)
    requires UniqueKeys(f)
    ensures forall i, j :: 0 <= i < |f| && 0 <= j < |f| && i != j ==> f[i].IndexKey() != f[j].IndexKey()
  {
    forall i, j | 0 <= i < |f| && 0 <= j < |f| && i != j
      ensures f[i].IndexKey() != f[j].IndexKey()
    {
      if i < j {
        assert IndexOf(f)[i] != IndexOf(f)[j];
      } else {
        assert IndexOf(f)[j] != IndexOf(f)[i];
      }
    }
  }

  /** Dropping the first row keeps the keys distinct. */
  lemma UniqueKeysTail(f: Frame)
    requires UniqueKeys(f) && |f| > 0
    ensures UniqueKeys(f[1..])
  {
    forall i, j | 0 <= i < j < |f| - 1
      ensures IndexOf(f[1..])[i] != IndexOf(f[1..])[j]
    {
      assert IndexOf(f[1..])[i] == IndexOf(f)[i + 1];
      assert IndexOf(f[1..])[j] == IndexOf(f)[j + 1];
    }
  }

  /** `set_index`: the rows' keys in row order, and the total column keyed by them. */
  function SetIndex(f: Frame): Indexed
    requires UniqueKeys(f)
  {
    DistinctRows(f);
    Indexed(IndexOf(f), map j | 0 <= j < |f| :: f[j].IndexKey() := f[j].total)
  }

  /** What `set_index` keeps: one index entry per row, in row order, each reaching its own row's total. */
  lemma SetIndexAt(f: Frame, j: int)
    requires UniqueKeys(f) && 0 <= j < |f|
    ensures |SetIndex(f).index| == |f| && SetIndex(f).index[j] == f[j].IndexKey()
    ensures f[j].IndexKey() in SetIndex(f).total && SetIndex(f).total[f[j].IndexKey()] == f[j].total
  {
    DistinctRows(f);
    var x := SetIndex(f);
    assert f[j].IndexKey() in x.total;
  }

  /** The keys of the keyed total column are exactly the keys of the table. */
  lemma SetIndexKeys(f: Frame)
    requires UniqueKeys(f)
    ensures SetIndex(f).total.Keys == KeySet(f)
  {
    var x := SetIndex(f);
    forall k | k in KeySet(f) ensures k in x.total {
      var j :| 0 <= j < |f| && f[j].IndexKey() == k;
      SetIndexAt(f, j);
    }
  }

  /** The total of the first row indexed `k`, 0 when no row is: the value the key reaches in a table. */
  function TotalAt(f: Frame, k: Key): real {
    if f == [] then 0.0
    else if f[0].IndexKey() == k then f[0].total
    else TotalAt(f[1..], k)
  }

  /** In a table with distinct keys, a row's key reaches that row's total. */
  lemma {:induction false} TotalAtRow(f: Frame, j: int)
    requires UniqueKeys(f) && 0 <= j < |f|
    ensures TotalAt(f, f[j].IndexKey()) == f[j].total
  {
    if j > 0 {
      DistinctRows(f);
      assert f[0].IndexKey() != f[j].IndexKey();
      assert f[1..][j - 1] == f[j];
      UniqueKeysTail(f);
      TotalAtRow(f[1..], j - 1);
    }
  }

  /** `set_index` then a lookup by key finds the same total as the row with that key. */
  lemma SetIndexTotal(f: Frame, k: Key)
    requires UniqueKeys(f) && k in KeySet(f)
    ensures k in SetIndex(f).total && SetIndex(f).total[k] == TotalAt(f, k)
  {
    var j :| 0 <= j < |f| && f[j].IndexKey() == k;
    SetIndexAt(f, j);
    TotalAtRow(f, j);
  }

  /** Every index entry has a total. */
  predicate WellIndexed(x: Indexed) {
    forall j :: 0 <= j < |x.index| ==> x.index[j] in x.total
  }

  /** `reset_index`: turns the index back into columns, one row per index entry, in index order. */
  function ResetIndex(x: Indexed): Frame
    requires WellIndexed(x)
  {
    seq(|x.index|, j requires 0 <= j < |x.index| => RowAt(x.index[j], x.total[x.index[j]]))
  }

  /** `reset_index` undoes `set_index`. */
  lemma ResetSetIndex(f: Frame)
    requires UniqueKeys(f)
    ensures WellIndexed(SetIndex(f))
    ensures ResetIndex(SetIndex(f)) == f
  {
    var x := SetIndex(f);
    forall j | 0 <= j < |f|
      ensures x.index[j] in x.total && ResetIndex(x)[j] == f[j]
    {
      SetIndexAt(f, j);
    }
  }
}
