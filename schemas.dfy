/** The output datasets (src/swat_copilot/data_access/schemas.py): a table
    read from one output file together with that file's path, in four
    variants. The reach, subbasin and HRU variants add queries keyed on their
    ID column (`RCH`, `SUB`, `HRU`); the base variant has none. */
module Schemas {
  import opened Wrappers
  import opened Tables
  import opened Files

  /** Which dataclass holds the table: `OutputData` itself or one of its
      three subclasses. */
  datatype OutputKind = Base | Reach | Subbasin | Hru

  datatype OutputData = OutputData(kind: OutputKind, data: Table, filePath: Path)

  /** `variables`: the column names in table order. */
  function Variables(o: OutputData): seq<string> {
    o.data.cols
  }

  /** `shape`: (rows, columns). */
  function Shape(o: OutputData): (nat, nat) {
    (|o.data.rows|, |o.data.cols|)
  }

  /** `get_column(name)`: the column's cells in row order, or nothing when
      there is no such column. */
  function GetColumn(o: OutputData, name: string): (r: Option<seq<Cell>>)
    ensures r.Some? <==> name in Variables(o)
    ensures r.Some? ==> |r.value| == |o.data.rows|
    ensures r.Some? ==> forall k :: 0 <= k < |o.data.rows| ==>
              r.value[k] == CellAt(o.data.rows[k], ColumnIndex(o.data.cols, name).value)
  {
    if name in o.data.cols then Some(ColumnOf(o.data, name)) else None
  }

  datatype Summary = Summary(nRows: nat, nColumns: nat, columns: seq<string>, file: Path)

  /** `summary()`: the shape, the variables and the file. */
  function SummaryOf(o: OutputData): (s: Summary)
    ensures (s.nRows, s.nColumns) == Shape(o)
    ensures s.columns == Variables(o) && s.nColumns == |s.columns|
    ensures s.file == o.filePath
  {
    Summary(|o.data.rows|, |o.data.cols|, o.data.cols, o.filePath)
  }

  /** The ID column a variant's queries use. */
  function IdColumn(kind: OutputKind): (c: string)
    requires kind != Base
  {
    match kind
    case Reach => "RCH"
    case Subbasin => "SUB"
    case Hru => "HRU"
  }

  /** `get_reach_ids` / `get_subbasin_ids` / `get_hru_ids`:
      `sorted(data[col].unique())`, empty when the ID column is absent. */
  function SpatialIds(o: OutputData): (ids: seq<int>)
    requires o.kind != Base
    ensures StrictlyAscending(ids)
    ensures IdColumn(o.kind) !in o.data.cols ==> ids == []
    ensures IdColumn(o.kind) in o.data.cols ==>
              forall x :: x in ids <==> Num(x) in ColumnOf(o.data, IdColumn(o.kind))
  {
    var col := IdColumn(o.kind);
    if col in o.data.cols then SortedDistinct(NumValues(ColumnOf(o.data, col))) else []
  }

  /** `get_reach_data(id)` / `get_subbasin_data(id)` / `get_hru_data(id)`:
      the rows whose ID cell is `id`, under the same columns; an empty table
      when the ID column is absent. */
  function RowsFor(o: OutputData, id: int): (t: Table)
    requires o.kind != Base
    ensures IdColumn(o.kind) !in o.data.cols ==> t == EmptyTable
    ensures IdColumn(o.kind) in o.data.cols ==> t.cols == o.data.cols
    ensures IdColumn(o.kind) in o.data.cols ==>
              forall row :: row in t.rows <==>
                row in o.data.rows && CellAt(row, ColumnIndex(o.data.cols, IdColumn(o.kind)).value) == Num(id)
  {
    var col := IdColumn(o.kind);
    if col in o.data.cols then
      var i := ColumnIndex(o.data.cols, col).value;
      MatchRowsMembers(o.data.rows, i, id);
      Table(o.data.cols, MatchRows(o.data.rows, i, id))
    else EmptyTable
  }

  /** An ID is listed exactly when some row carries it. */
  lemma IdsMatchRows(o: OutputData, id: int)
    requires o.kind != Base
    ensures id in SpatialIds(o) <==> |RowsFor(o, id).rows| > 0
  {
    var col := IdColumn(o.kind);
    if col in o.data.cols {
      var i := ColumnIndex(o.data.cols, col).value;
      var cells := ColumnOf(o.data, col);
      var t := RowsFor(o, id);
      if id in SpatialIds(o) {
        assert Num(id) in cells;
        var k :| 0 <= k < |cells| && cells[k] == Num(id);
        assert CellAt(o.data.rows[k], i) == Num(id);
        assert o.data.rows[k] in t.rows;
      }
      if |t.rows| > 0 {
        var row := t.rows[0];
        assert row in t.rows;
        var k :| 0 <= k < |o.data.rows| && o.data.rows[k] == row;
        assert cells[k] == Num(id);
      }
    }
  }

  /** Filtering by ID keeps every matching row as often as it occurs and in
      table order: the rows of two stacked tables filter to the two filtered
      parts, stacked. */
  lemma RowsForStacked(o: OutputData, more: seq<Row>, id: int)
    requires o.kind != Base && IdColumn(o.kind) in o.data.cols
    ensures RowsFor(o.(data := o.data.(rows := o.data.rows + more)), id).rows
            == RowsFor(o, id).rows + MatchRows(more, ColumnIndex(o.data.cols, IdColumn(o.kind)).value, id)
  {
    MatchRowsConcat(o.data.rows, more, ColumnIndex(o.data.cols, IdColumn(o.kind)).value, id);
  }

  /** `WaterBalanceData`, over exact integers. */
  datatype WaterBalanceData = WaterBalanceData(
    precipitation: int, surfaceRunoff: int, lateralFlow: int, groundwaterFlow: int,
    evapotranspiration: int, percolation: int, storageChange: int)

  /** `total_outflow`: runoff, lateral flow, groundwater flow and
      evapotranspiration; percolation does not count. */
  function TotalOutflow(w: WaterBalanceData): int {
    w.surfaceRunoff + w.lateralFlow + w.groundwaterFlow + w.evapotranspiration
  }

  /** `balance_error`: what precipitation leaves unexplained. */
  function BalanceError(w: WaterBalanceData): (e: int)
    ensures e + TotalOutflow(w) + w.storageChange == w.precipitation
    ensures e == 0 <==> w.precipitation == TotalOutflow(w) + w.storageChange
  {
    w.precipitation - TotalOutflow(w) - w.storageChange
  }

  /** Percolation changes neither the outflow nor the balance error. */
  lemma PercolationExcluded(w: WaterBalanceData, p: int)
    ensures TotalOutflow(w.(percolation := p)) == TotalOutflow(w)
    ensures BalanceError(w.(percolation := p)) == BalanceError(w)
  {
  }
}
