/** `AnalysisService` (src/swat_copilot/services/analysis.py): statistics,
    water balance and time series over one output dataset of a project.
    Statistics fall back to the whole column when a spatial filter matches
    nothing; time series do not. */
module Analysis {
  import opened Wrappers
  import opened Files
  import opened Tables
  import opened Schemas
  import opened Readers
  import opened Catalog

  /** `file_type_map` of `_get_output_data`. */
  function FileKindFor(outputType: string): (k: Option<FileKind>)
    ensures k == Some(OutputRch) <==> outputType == "reach"
    ensures k == Some(OutputSub) <==> outputType == "subbasin"
    ensures k == Some(OutputHru) <==> outputType == "hru"
    ensures k.Some? <==> KindOf(outputType) != Base
  {
    if outputType == "reach" then Some(OutputRch)
    else if outputType == "subbasin" then Some(OutputSub)
    else if outputType == "hru" then Some(OutputHru)
    else None
  }

  /** `_get_id_column`: the ID column of the dataset variant the same name
      selects, and none for any other name. */
  function IdColumnFor(outputType: string): (c: Option<string>)
    ensures c.Some? <==> KindOf(outputType) != Base
    ensures c.Some? ==> c.value == IdColumn(KindOf(outputType))
  {
    if outputType == "reach" then Some("RCH")
    else if outputType == "subbasin" then Some("SUB")
    else if outputType == "hru" then Some("HRU")
    else None
  }

  /** `_get_output_data`: the dataset of the project's file of that kind,
      read with the default header skip; nothing for an unknown kind, a
      project without that file, or a path that does not exist. */
  function OutputDataOf(w: World, project: Project, outputType: string): Option<OutputData> {
    match FileKindFor(outputType)
    case None => None
    case Some(kind) =>
      match w.getFile(project, kind)
      case None => None
      case Some(f) =>
        if Exists(w.disk, f.path) then Some(OutputData(KindOf(outputType), ParsedTable(w.disk, w.parse, f.path, 9), f.path))
        else None
  }

  /** The rows whose ID cell is `id`, when the kind has an ID column and
      the table has it; `None` when no filter applies. */
  function SpatialFilter(t: Table, outputType: string, spatialId: Option<int>): Option<seq<Row>> {
    var col := IdColumnFor(outputType);
    if spatialId.Some? && col.Some? && col.value in t.cols then
      Some(MatchRows(t.rows, ColumnIndex(t.cols, col.value).value, spatialId.value))
    else None
  }

  /** The series `get_variable_statistics` summarises: the variable's cells
      in the matching rows when the filter applies and keeps a row,
      otherwise the whole column. */
  function StatSeries(t: Table, outputType: string, variable: string, spatialId: Option<int>): seq<Cell>
    requires variable in t.cols
  {
    match SpatialFilter(t, outputType, spatialId)
    case Some(rows) => if |rows| > 0 then Cells(rows, ColumnIndex(t.cols, variable).value) else ColumnOf(t, variable)
    case None => ColumnOf(t, variable)
  }

  function MinOf(xs: seq<int>): (m: int)
    requires |xs| > 0
    ensures m in xs && forall x :: x in xs ==> m <= x
  {
    if |xs| == 1 then xs[0]
    else
      var rest := MinOf(xs[1..]);
      assert forall x :: x in xs ==> x == xs[0] || x in xs[1..];
      if xs[0] <= rest then xs[0] else rest
  }

  function MaxOf(xs: seq<int>): (m: int)
    requires |xs| > 0
    ensures m in xs && forall x :: x in xs ==> x <= m
  {
    if |xs| == 1 then xs[0]
    else
      var rest := MaxOf(xs[1..]);
      assert forall x :: x in xs ==> x == xs[0] || x in xs[1..];
      if xs[0] >= rest then xs[0] else rest
  }

  datatype Stats = Stats(variable: string, count: nat, min: Option<int>, max: Option<int>)

  datatype StatsError =
    | NotFound(message: string)   // the "Variable ... not found" answer
    | NotNumeric                  // pandas raises on a text cell

  predicate HasText(cells: seq<Cell>) {
    exists k :: 0 <= k < |cells| && cells[k].Text?
  }

  /** `series.sum()`: the integers among the cells added up, missing cells
      skipped. */
  function SumColumn(cells: seq<Cell>): (s: int)
    ensures (forall k :: 0 <= k < |cells| ==> !cells[k].Num?) ==> s == 0
  {
    if cells == [] then 0
    else SumColumn(cells[..|cells| - 1]) + (match cells[|cells| - 1] case Num(n) => n case _ => 0)
  }

  /** The sum of stacked cells is the sum of the two parts. */
  lemma {:induction false} SumColumnConcat(a: seq<Cell>, b: seq<Cell>)
    ensures SumColumn(a + b) == SumColumn(a) + SumColumn(b)
    decreases |b|
  {
    if b == [] {
      assert a + b == a;
    } else {
      var init := b[..|b| - 1];
      assert (a + b)[..|a + b| - 1] == a + init;
      SumColumnConcat(a, init);
    }
  }

  /** The first of `aliases` that is a column. */
  function FirstPresent(cols: seq<string>, aliases: seq<string>): (r: Option<string>)
    ensures r.Some? <==> exists a :: a in aliases && a in cols
    ensures r.Some? ==> r.value in aliases && r.value in cols
    ensures r.Some? ==> exists k :: 0 <= k < |aliases| && aliases[k] == r.value &&
                          forall i :: 0 <= i < k ==> aliases[i] !in cols
  {
    if aliases == [] then None
    else if aliases[0] in cols then
      assert aliases[0] in aliases;
      Some(aliases[0])
    else
      var r := FirstPresent(cols, aliases[1..]);
      assert forall a :: a in aliases <==> a == aliases[0] || a in aliases[1..];
      if r.Some? then
        var k :| 0 <= k < |aliases[1..]| && aliases[1..][k] == r.value &&
                 forall i :: 0 <= i < k ==> aliases[1..][i] !in cols;
        assert aliases[k + 1] == r.value;
        assert forall i :: 0 <= i < k + 1 ==> aliases[i] !in cols by {
          forall i | 0 <= i < k + 1 ensures aliases[i] !in cols {
            if i > 0 { assert aliases[i] == aliases[1..][i - 1]; }
          }
        }
        r
      else r
  }

  /** `var_mapping`: each component with the column names it may go by. */
  const BalanceAliases: seq<(string, seq<string>)> := [
    ("precipitation", ["PRECIP", "PRECIPmm"]),
    ("surface_runoff", ["SURQ", "SURQmm"]),
    ("lateral_flow", ["LATQ", "LATQmm"]),
    ("groundwater", ["GW_Q", "GWQmm"]),
    ("evapotranspiration", ["ET", "ETmm"]),
    ("percolation", ["PERC", "PERCmm"])
  ]

  /** The balance for the components `comps`, in their order: a component
      whose aliases include a column gets the sum of the first such column;
      the others are left out. */
  function Balance(t: Table, comps: seq<(string, seq<string>)>): seq<(string, int)> {
    if comps == [] then []
    else
      var last := comps[|comps| - 1];
      Balance(t, comps[..|comps| - 1]) + BalanceEntry(t, last)
  }

  /** A component's entry: the sum of its first alias that is a column. */
  function BalanceEntry(t: Table, comp: (string, seq<string>)): seq<(string, int)> {
    match FirstPresent(t.cols, comp.1)
    case Some(a) => [(comp.0, SumColumn(ColumnOf(t, a)))]
    case None => []
  }

  /** The strict filter of `get_time_series`: the rows left by the spatial
      filter when it applies, all rows otherwise. */
  function StrictRows(t: Table, outputType: string, spatialId: Option<int>): (rows: seq<Row>)
    ensures |rows| <= |t.rows|
  {
    match SpatialFilter(t, outputType, spatialId)
    case Some(rows) => rows
    case None => t.rows
  }

  /** The names among `names` that are columns, in order. */
  function Present(names: seq<string>, cols: seq<string>): seq<string> {
    if names == [] then []
    else (if names[0] in cols then [names[0]] else []) + Present(names[1..], cols)
  }

  lemma {:induction false} PresentMembers(names: seq<string>, cols: seq<string>)
    ensures forall n :: n in Present(names, cols) <==> n in names && n in cols
  {
    if names != [] {
      PresentMembers(names[1..], cols);
      assert forall n :: n in names <==> n == names[0] || n in names[1..];
    }
  }

  /** `available_cols`: `MON`, `YEAR` and (when there is a `DAY` column)
      `DAY`, then the variable, each kept only if it is a column. */
  function TimeColumns(cols: seq<string>, variable: string): (r: seq<string>)
    ensures forall n :: n in r ==> n in cols
  {
    var timeCols := if "DAY" in cols then ["MON", "YEAR", "DAY"] else ["MON", "YEAR"];
    PresentMembers(timeCols + [variable], cols);
    Present(timeCols + [variable], cols)
  }

  class AnalysisService {
    const project: Project

    constructor (project: Project)
      ensures this.project == project
    {
      this.project := project;
    }

    /** `_get_output_data(output_type)` */
    method GetOutputData(w: World, outputType: string) returns (r: Option<OutputData>)
      ensures r == OutputDataOf(w, project, outputType)
    {
      var kind := FileKindFor(outputType);
      if kind.None? {
        return None;
      }
      var outputFile := w.getFile(project, kind.value);
      if outputFile.None? {
        return None;
      }
      var reader0 := OutputReader.Open(w.disk, outputFile.value.path, outputType);
      if reader0.Failure? {
        return None;
      }
      var reader := reader0.value;
      return Some(reader.Read(w.disk, w.parse));
    }

    /** `get_variable_statistics(variable, output_type, spatial_id)`: the
        count, minimum and maximum of the selected series. */
    method GetVariableStatistics(w: World, variable: string, outputType: string := "reach", spatialId: Option<int> := None)
      returns (r: Result<Stats, StatsError>)
      ensures var data := OutputDataOf(w, project, outputType);
              (r == Failure(NotFound("Variable " + variable + " not found")))
                <==> (data.None? || variable !in data.value.data.cols)
      ensures var data := OutputDataOf(w, project, outputType);
              data.Some? && variable in data.value.data.cols ==>
                var series := StatSeries(data.value.data, outputType, variable, spatialId);
                && (r.Success? <==> !HasText(series))
                && (r.Success? ==>
                      && r.value.variable == variable
                      && r.value.count == |series|
                      && (r.value.min.Some? <==> exists x :: Num(x) in series)
                      && (r.value.max.Some? <==> exists x :: Num(x) in series)
                      && (r.value.min.Some? ==>
                            && Num(r.value.min.value) in series
                            && forall x :: Num(x) in series ==> r.value.min.value <= x)
                      && (r.value.max.Some? ==>
                            && Num(r.value.max.value) in series
                            && forall x :: Num(x) in series ==> x <= r.value.max.value))
    {
      var data := GetOutputData(w, outputType);
      if data.None? || variable !in Variables(data.value) {
        return Failure(NotFound("Variable " + variable + " not found"));
      }
      var t := data.value.data;
      var series := GetColumn(data.value, variable).value;
      if spatialId.Some? {
        var idCol := IdColumnFor(outputType);
        if idCol.Some? && idCol.value in t.cols {
          var filtered := MatchRows(t.rows, ColumnIndex(t.cols, idCol.value).value, spatialId.value);
          if |filtered| > 0 {
            series := Cells(filtered, ColumnIndex(t.cols, variable).value);
          }
        }
      }
      assert series == StatSeries(t, outputType, variable, spatialId);
      if HasText(series) {
        return Failure(NotNumeric);
      }
      var values := NumValues(series);
      var lo := if |values| > 0 then Some(MinOf(values)) else None;
      var hi := if |values| > 0 then Some(MaxOf(values)) else None;
      return Success(Stats(variable, |series|, lo, hi));
    }

    /** The inner loop of `calculate_water_balance()`: the first alias that
        is a variable, summed, or nothing. */
    method ComponentEntry(data: OutputData, component: string, possibleNames: seq<string>)
      returns (entry: seq<(string, int)>)
      ensures entry == BalanceEntry(data.data, (component, possibleNames))
    {
      entry := [];
      var t := data.data;
      var j := 0;
      while j < |possibleNames|
        invariant 0 <= j <= |possibleNames|
        invariant FirstPresent(t.cols, possibleNames) == FirstPresent(t.cols, possibleNames[j..])
      {
        var varName := possibleNames[j];
        if varName in Variables(data) {
          var series := GetColumn(data, varName).value;
          entry := [(component, SumColumn(series))];
          break;
        }
        assert possibleNames[j..][1..] == possibleNames[j + 1..];
        j := j + 1;
      }
    }

    /** `calculate_water_balance(output_type)`: for each component in turn,
        the sum of its first alias that is a column. */
    method CalculateWaterBalance(w: World, outputType: string := "subbasin")
      returns (r: Result<seq<(string, int)>, string>)
      ensures var data := OutputDataOf(w, project, outputType);
              && (r.Failure? <==> data.None?)
              && (r.Failure? ==> r.error == "No output data available")
              && (r.Success? ==> r.value == Balance(data.value.data, BalanceAliases))
    {
      var data := GetOutputData(w, outputType);
      if data.None? {
        return Failure("No output data available");
      }
      var t := data.value.data;
      var balance: seq<(string, int)> := [];
      for i := 0 to |BalanceAliases|
        invariant balance == Balance(t, BalanceAliases[..i])
      {
        BalanceStep(t, BalanceAliases, i);
        var (component, possibleNames) := BalanceAliases[i];
        var entry := ComponentEntry(data.value, component, possibleNames);
        balance := balance + entry;
      }
      assert BalanceAliases[..|BalanceAliases|] == BalanceAliases;
      return Success(balance);
    }

    /** `get_time_series(variable, output_type, spatial_id)`: the strictly
        filtered rows projected onto the time columns and the variable. */
    method GetTimeSeries(w: World, variable: string, outputType: string := "reach", spatialId: Option<int> := None)
      returns (r: Option<Table>)
      ensures var data := OutputDataOf(w, project, outputType);
              && (r.None? <==> data.None? || variable !in data.value.data.cols
                               || |StrictRows(data.value.data, outputType, spatialId)| == 0)
              && (r.Some? ==>
                    var t := data.value.data;
                    r.value == Select(Table(t.cols, StrictRows(t, outputType, spatialId)), TimeColumns(t.cols, variable)))
    {
      var data := GetOutputData(w, outputType);
      if data.None? || variable !in Variables(data.value) {
        return None;
      }
      var df := data.value.data;
      if spatialId.Some? {
        var idCol := IdColumnFor(outputType);
        if idCol.Some? && idCol.value in df.cols {
          df := df.(rows := MatchRows(df.rows, ColumnIndex(df.cols, idCol.value).value, spatialId.value));
        }
      }
      if IsEmpty(df) {
        return None;
      }
      var availableCols := TimeColumns(df.cols, variable);
      TimeColumnsShape(df.cols, variable);
      return Some(Select(df, availableCols));
    }
  }

  // ---------------------------------------------------------------------
  // What the analyses promise

  /** The fallback never empties the series: with any filter, statistics
      cover at least one cell whenever the column has one, and they cover
      only the column's own cells. */
  lemma StatSeriesFallback(t: Table, outputType: string, variable: string, spatialId: Option<int>)
    requires variable in t.cols
    ensures |t.rows| > 0 ==> |StatSeries(t, outputType, variable, spatialId)| > 0
    ensures |StatSeries(t, outputType, variable, spatialId)| <= |t.rows|
    ensures forall c :: c in StatSeries(t, outputType, variable, spatialId) ==> c in ColumnOf(t, variable)
    ensures |StrictRows(t, outputType, spatialId)| == 0 ==> StatSeries(t, outputType, variable, spatialId) == ColumnOf(t, variable)
  {
    var j := ColumnIndex(t.cols, variable).value;
    var series := StatSeries(t, outputType, variable, spatialId);
    match SpatialFilter(t, outputType, spatialId)
    case Some(rows) =>
      if |rows| > 0 {
        var col := IdColumnFor(outputType).value;
        var i := ColumnIndex(t.cols, col).value;
        MatchRowsMembers(t.rows, i, spatialId.value);
        forall c | c in series ensures c in ColumnOf(t, variable) {
          var k :| 0 <= k < |series| && series[k] == c;
          assert rows[k] in rows;
          var m :| 0 <= m < |t.rows| && t.rows[m] == rows[k];
          assert ColumnOf(t, variable)[m] == c;
        }
      }
    case None =>
  }

  /** Statistics and time series select the same rows whenever the strict
      filter keeps one: the statistics series is then the variable column of
      the time series' rows. */
  lemma StatsMatchTimeSeries(t: Table, outputType: string, variable: string, spatialId: Option<int>)
    requires variable in t.cols
    requires |StrictRows(t, outputType, spatialId)| > 0
    ensures StatSeries(t, outputType, variable, spatialId)
            == Cells(StrictRows(t, outputType, spatialId), ColumnIndex(t.cols, variable).value)
  {
  }

  /** The time-series columns, written out: `MON`, `YEAR` and `DAY` when
      they are columns, in that order, and the variable last. */
  lemma TimeColumnsShape(cols: seq<string>, variable: string)
    requires variable in cols
    ensures TimeColumns(cols, variable)
            == (if "MON" in cols then ["MON"] else []) + (if "YEAR" in cols then ["YEAR"] else [])
               + (if "DAY" in cols then ["DAY"] else []) + [variable]
  {
    if "DAY" in cols {
      assert ["MON", "YEAR", "DAY"] + [variable] == ["MON", "YEAR", "DAY", variable];
      PresentFour("MON", "YEAR", "DAY", variable, cols);
    } else {
      assert ["MON", "YEAR"] + [variable] == ["MON", "YEAR", variable];
      PresentThree("MON", "YEAR", variable, cols);
    }
  }

  lemma PresentThree(a: string, b: string, c: string, cols: seq<string>)
    ensures Present([a, b, c], cols)
            == (if a in cols then [a] else []) + (if b in cols then [b] else []) + (if c in cols then [c] else [])
  {
    PresentStep([a, b, c], cols);
    assert [a, b, c][1..] == [b, c];
    PresentStep([b, c], cols);
    assert [b, c][1..] == [c];
    PresentStep([c], cols);
  }

  lemma PresentFour(a: string, b: string, c: string, d: string, cols: seq<string>)
    ensures Present([a, b, c, d], cols)
            == (if a in cols then [a] else []) + (if b in cols then [b] else [])
               + (if c in cols then [c] else []) + (if d in cols then [d] else [])
  {
    PresentStep([a, b, c, d], cols);
    assert [a, b, c, d][1..] == [b, c, d];
    PresentThree(b, c, d, cols);
  }

  lemma PresentStep(names: seq<string>, cols: seq<string>)
    requires names != []
    ensures Present(names, cols) == (if names[0] in cols then [names[0]] else []) + Present(names[1..], cols)
  {
  }

  /** A component has an entry exactly when one of its aliases is a
      column; the entry is keyed by the component and sums the first alias
      that is. */
  lemma BalanceEntryMeaning(t: Table, comp: (string, seq<string>))
    ensures |BalanceEntry(t, comp)| <= 1
    ensures BalanceEntry(t, comp) != [] <==> exists a :: a in comp.1 && a in t.cols
    ensures forall p :: p in BalanceEntry(t, comp) ==>
              exists k :: 0 <= k < |comp.1| && comp.1[k] in t.cols && (forall i :: 0 <= i < k ==> comp.1[i] !in t.cols) &&
                p == (comp.0, SumColumn(ColumnOf(t, comp.1[k])))
  {
  }

  lemma BalanceStep(t: Table, comps: seq<(string, seq<string>)>, i: nat)
    requires i < |comps|
    ensures Balance(t, comps[..i + 1]) == Balance(t, comps[..i]) + BalanceEntry(t, comps[i])
  {
    assert comps[..i + 1][..i] == comps[..i];
  }

  /** The stacked contents of a list of lists. */
  function Flatten<P>(xss: seq<seq<P>>): seq<P> {
    if xss == [] then [] else Flatten(xss[..|xss| - 1]) + xss[|xss| - 1]
  }

  /** An element is in the stacked lists exactly when it is in one of them. */
  lemma {:induction false} FlattenMembers<P>(xss: seq<seq<P>>)
    ensures forall p :: p in Flatten(xss) <==> exists i :: 0 <= i < |xss| && p in xss[i]
  {
    if xss != [] {
      var init := xss[..|xss| - 1];
      FlattenMembers(init);
      forall p ensures p in Flatten(xss) <==> exists i :: 0 <= i < |xss| && p in xss[i] {
        if p in Flatten(init) {
          var i :| 0 <= i < |init| && p in init[i];
          assert xss[i] == init[i];
        }
        if exists i :: 0 <= i < |xss| && p in xss[i] {
          var i :| 0 <= i < |xss| && p in xss[i];
          if i < |init| {
            assert init[i] == xss[i];
          }
        }
      }
    }
  }

  /** Each component's entry, in order. */
  function BalanceEntryList(t: Table, comps: seq<(string, seq<string>)>): (xss: seq<seq<(string, int)>>)
    ensures |xss| == |comps|
    ensures forall i :: 0 <= i < |comps| ==> xss[i] == BalanceEntry(t, comps[i])
  {
    if comps == [] then [] else BalanceEntryList(t, comps[..|comps| - 1]) + [BalanceEntry(t, comps[|comps| - 1])]
  }

  /** The balance stacks the components' entries. */
  lemma {:induction false} BalanceFlatten(t: Table, comps: seq<(string, seq<string>)>)
    ensures Balance(t, comps) == Flatten(BalanceEntryList(t, comps))
  {
    if comps != [] {
      var init := comps[..|comps| - 1];
      var xss := BalanceEntryList(t, comps);
      assert xss[..|xss| - 1] == BalanceEntryList(t, init);
      BalanceFlatten(t, init);
    }
  }

  /** The balance holds the components' own entries and nothing else. */
  lemma BalanceEntries(t: Table, comps: seq<(string, seq<string>)>)
    ensures forall p :: p in Balance(t, comps) <==> exists i :: 0 <= i < |comps| && p in BalanceEntry(t, comps[i])
  {
    var xss := BalanceEntryList(t, comps);
    BalanceFlatten(t, comps);
    FlattenMembers(xss);
  }

  /** The balance's keys are among the six component names. */
  lemma BalanceKeys(t: Table)
    ensures forall p :: p in Balance(t, BalanceAliases) ==>
              p.0 in {"precipitation", "surface_runoff", "lateral_flow", "groundwater", "evapotranspiration", "percolation"}
  {
    BalanceEntries(t, BalanceAliases);
    forall p | p in Balance(t, BalanceAliases)
      ensures p.0 in {"precipitation", "surface_runoff", "lateral_flow", "groundwater", "evapotranspiration", "percolation"}
    {
      var i :| 0 <= i < |BalanceAliases| && p in BalanceEntry(t, BalanceAliases[i]);
      assert p.0 == BalanceAliases[i].0;
      assert i == 0 || i == 1 || i == 2 || i == 3 || i == 4 || i == 5;
    }
  }
}
