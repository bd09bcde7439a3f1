/** The tabular data the core passes around (a pandas DataFrame): named
    columns in order and rows in order. A cell holds an integer, a text or
    nothing (NaN / None). A cell read past the end of a short row is
    nothing, so every accessor is total. */
module Tables {
  import opened Wrappers

  datatype Cell = Num(n: int) | Text(s: string) | Null

  type Row = seq<Cell>

  datatype Table = Table(cols: seq<string>, rows: seq<Row>)

  /** `pd.DataFrame()`: no columns and no rows. */
  const EmptyTable: Table := Table([], [])

  function CellAt(row: Row, i: nat): Cell {
    if i < |row| then row[i] else Null
  }

  /** `DataFrame.empty`: no rows or no columns. */
  predicate IsEmpty(t: Table) {
    |t.rows| == 0 || |t.cols| == 0
  }

  /** Position of the first column called `name`. */
  function ColumnIndex(cols: seq<string>, name: string): (r: Option<nat>)
    ensures r.Some? <==> name in cols
    ensures r.Some? ==> r.value < |cols| && cols[r.value] == name
  {
    if cols == [] then None
    else if cols[0] == name then Some(0)
    else
      match ColumnIndex(cols[1..], name)
      case Some(i) => Some(i + 1)
      case None => None
  }

  /** The cells at position `i` of every row, in row order. */
  function Cells(rows: seq<Row>, i: nat): (c: seq<Cell>)
    ensures |c| == |rows|
    ensures forall k :: 0 <= k < |rows| ==> c[k] == CellAt(rows[k], i)
  {
    if rows == [] then [] else Cells(rows[..|rows| - 1], i) + [CellAt(rows[|rows| - 1], i)]
  }

  /** `df[name]` for a column that exists. */
  function ColumnOf(t: Table, name: string): seq<Cell>
    requires name in t.cols
  {
    Cells(t.rows, ColumnIndex(t.cols, name).value)
  }

  /** The rows whose cell at position `i` is the integer `id`, in order
      (`df[df[col] == id]`). */
  function MatchRows(rows: seq<Row>, i: nat, id: int): (r: seq<Row>)
    ensures |r| <= |rows|
    ensures forall row :: row in r ==> CellAt(row, i) == Num(id)
  {
    if rows == [] then []
    else
      var last := rows[|rows| - 1];
      MatchRows(rows[..|rows| - 1], i, id) + (if CellAt(last, i) == Num(id) then [last] else [])
  }

  /** Filtering keeps the order of the rows: the matches of a concatenation
      are the matches of the first part followed by those of the second. */
  lemma {:induction false} MatchRowsConcat(a: seq<Row>, b: seq<Row>, i: nat, id: int)
    ensures MatchRows(a + b, i, id) == MatchRows(a, i, id) + MatchRows(b, i, id)
    decreases |b|
  {
    if b != [] {
      var b' := b[..|b| - 1];
      assert (a + b)[..|a + b| - 1] == a + b';
      MatchRowsConcat(a, b', i, id);
    } else {
      assert a + b == a;
    }
  }

  /** A row is kept exactly when its cell matches, as often as it occurs. */
  lemma {:induction false} MatchRowsMembers(rows: seq<Row>, i: nat, id: int)
    ensures forall row :: multiset(MatchRows(rows, i, id))[row]
              == if CellAt(row, i) == Num(id) then multiset(rows)[row] else 0
    ensures forall row :: row in MatchRows(rows, i, id) <==> row in rows && CellAt(row, i) == Num(id)
  {
    if rows != [] {
      var init := rows[..|rows| - 1];
      MatchRowsMembers(init, i, id);
      assert rows == init + [rows[|rows| - 1]];
      assert forall row :: row in rows <==> multiset(rows)[row] > 0;
      assert forall row :: row in MatchRows(rows, i, id) <==> multiset(MatchRows(rows, i, id))[row] > 0;
    }
  }

  /** Columns `names` of every row, in that order (`df[names]`). */
  function SelectRow(row: Row, idx: seq<nat>): (r: Row)
    ensures |r| == |idx|
    ensures forall k :: 0 <= k < |idx| ==> r[k] == CellAt(row, idx[k])
  {
    if idx == [] then [] else SelectRow(row, idx[..|idx| - 1]) + [CellAt(row, idx[|idx| - 1])]
  }

  function Indices(cols: seq<string>, names: seq<string>): (idx: seq<nat>)
    requires forall n :: n in names ==> n in cols
    ensures |idx| == |names|
    ensures forall k :: 0 <= k < |names| ==> idx[k] < |cols| && cols[idx[k]] == names[k]
  {
    if names == [] then []
    else Indices(cols, names[..|names| - 1]) + [ColumnIndex(cols, names[|names| - 1]).value]
  }

  function SelectRows(rows: seq<Row>, idx: seq<nat>): (r: seq<Row>)
    ensures |r| == |rows|
    ensures forall k :: 0 <= k < |rows| ==> r[k] == SelectRow(rows[k], idx)
  {
    if rows == [] then [] else SelectRows(rows[..|rows| - 1], idx) + [SelectRow(rows[|rows| - 1], idx)]
  }

  /** `df[names]` for names that are all columns. */
  function Select(t: Table, names: seq<string>): Table
    requires forall n :: n in names ==> n in t.cols
  {
    Table(names, SelectRows(t.rows, Indices(t.cols, names)))
  }

  /** The integers among the cells, in order. */
  function NumValues(cells: seq<Cell>): (vs: seq<int>)
    ensures forall x :: x in vs <==> Num(x) in cells
  {
    if cells == [] then []
    else
      var init := cells[..|cells| - 1];
      assert cells == init + [cells[|cells| - 1]];
      NumValues(init) + (if cells[|cells| - 1].Num? then [cells[|cells| - 1].n] else [])
  }

  predicate StrictlyAscending(s: seq<int>) {
    forall i, j :: 0 <= i < j < |s| ==> s[i] < s[j]
  }

  function InsertDistinct(x: int, s: seq<int>): (r: seq<int>)
    requires StrictlyAscending(s)
    ensures StrictlyAscending(r)
    ensures forall y :: y in r <==> y in s || y == x
    ensures |r| > 0 && (r[0] == x || (|s| > 0 && r[0] == s[0]))
  {
    if s == [] then [x]
    else if x < s[0] then [x] + s
    else if x == s[0] then s
    else
      var rest := InsertDistinct(x, s[1..]);
      assert forall y :: y in s <==> y == s[0] || y in s[1..];
      [s[0]] + rest
  }

  /** `sorted(set(xs))` */
  function SortedDistinct(xs: seq<int>): (r: seq<int>)
    ensures StrictlyAscending(r)
    ensures forall y :: y in r <==> y in xs
  {
    if xs == [] then []
    else
      var init := xs[..|xs| - 1];
      assert xs == init + [xs[|xs| - 1]];
      InsertDistinct(xs[|xs| - 1], SortedDistinct(init))
  }
}
