/**
  * The little of a pandas DataFrame that the tables use: a named index
  * column, the names of the other columns, and rows in file order. A CSV row
  * with fewer fields than the header leaves its last columns blank (NaN),
  * which is a `None` cell here.
  */
module Frames {
  import opened Wrappers
  import opened Errors

  datatype Row<K, V> = Row(key: K, fields: seq<V>)

  datatype Frame<K, V> = Frame(indexName: string, columns: seq<string>, rows: seq<Row<K, V>>)

  /** The cell of a row in column `j`: blank past the end of a short row. */
  function Cell<K, V>(row: Row<K, V>, j: nat): Option<V> {
    if j < |row.fields| then Some(row.fields[j]) else None
  }

  /** The index keys in file order. */
  function Keys<K, V>(f: Frame<K, V>): (ks: seq<K>)
    ensures |ks| == |f.rows|
    ensures forall i :: 0 <= i < |f.rows| ==> ks[i] == f.rows[i].key
  {
    seq(|f.rows|, i requires 0 <= i < |f.rows| => f.rows[i].key)
  }

  /** One entry of a column (a pandas Series): the row's key and its cell. */
  datatype Entry<K, V> = Entry(key: K, cell: Option<V>)

  /** Column `j` as a Series: one entry per row, in file order. */
  function Column<K, V>(f: Frame<K, V>, j: nat): (c: seq<Entry<K, V>>)
    ensures |c| == |f.rows|
    ensures forall i :: 0 <= i < |f.rows| ==> c[i] == Entry(f.rows[i].key, Cell(f.rows[i], j))
  {
    seq(|f.rows|, i requires 0 <= i < |f.rows| => Entry(f.rows[i].key, Cell(f.rows[i], j)))
  }

  /**
    * Selecting a column by name (`frame[name]`): the position of the first
    * column with exactly that name, or None where pandas raises KeyError.
    */
  function ColumnIndex<L(==)>(columns: seq<L>, name: L): (r: Option<nat>)
    ensures r.None? ==> name !in columns
    ensures r.Some? ==> r.value < |columns| && columns[r.value] == name
    ensures r.Some? ==> forall k :: 0 <= k < r.value ==> columns[k] != name
  {
    if columns == [] then None
    else if columns[0] == name then Some(0)
    else match ColumnIndex(columns[1..], name)
      case None => None
      case Some(k) => Some(k + 1)
  }

  /** A column holding the name, with no column before it holding it, is the one selected. */
  lemma {:induction false} ColumnIndexAt<L>(columns: seq<L>, name: L, j: nat)
    requires j < |columns| && columns[j] == name
    requires forall i :: 0 <= i < j ==> columns[i] != name
    ensures ColumnIndex(columns, name) == Some(j)
  {
    if j > 0 {
      ColumnIndexAt(columns[1..], name, j - 1);
    }
  }

  /** `frame[name]`: the column with that name, or MissingColumn where pandas raises KeyError. */
  function SelectColumn<K, V>(f: Frame<K, V>, name: string): (r: Result<seq<Entry<K, V>>, Error>)
    ensures r.Err? ==> name !in f.columns
    ensures r.Err? ==> r.error == MissingColumn(name)
    ensures r.Ok? ==> exists j :: 0 <= j < |f.columns| && f.columns[j] == name && r.value == Column(f, j)
  {
    match ColumnIndex(f.columns, name)
    case None => Err(MissingColumn(name))
    case Some(j) => Ok(Column(f, j))
  }
}
