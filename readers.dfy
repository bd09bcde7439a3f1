/** The file readers (src/swat_copilot/data_access/readers.py). A reader is
    opened on a path that must exist; it keeps the path (and, for output
    files, the output kind and the number of header lines) and reads the
    file again on every request. */
module Readers {
  import opened Wrappers
  import opened Text
  import opened Files
  import opened Tables
  import opened Schemas

  /** The exceptions the readers let through. */
  datatype ReadError = FileNotFound(path: Path) | IsADirectory(path: Path)

  /** `pd.read_csv(text, sep=r"\s+", skiprows=skip, on_bad_lines="skip")`
      applied to a file's text: a table, or None when pandas raises. */
  type Parser = (string, int) -> Option<Table>

  /** The error `open(path)` raises for a path that is not a readable file. */
  function OpenError(disk: Disk, path: Path): ReadError {
    if Exists(disk, path) then IsADirectory(path) else FileNotFound(path)
  }

  /** `read_lines(skip_lines)`: the file's lines, the first `skip` of them
      removed (Python slicing: a negative `skip` keeps that many from the end). */
  function ReadLinesFrom(disk: Disk, path: Path, skip: int := 0): (r: Result<seq<string>, ReadError>)
    ensures r.Success? <==> FileText(disk, path).Some?
    ensures r.Failure? ==> r.error == OpenError(disk, path)
    ensures r.Success? ==>
              var lines := ReadLines(FileText(disk, path).value);
              && |r.value| <= |lines|
              && r.value == lines[|lines| - |r.value|..]
              && (0 <= skip ==> |r.value| == if skip < |lines| then |lines| - skip else 0)
  {
    match FileText(disk, path)
    case Some(text) => Success(SliceFrom(ReadLines(text), skip))
    case None => Failure(OpenError(disk, path))
  }

  /** A control-file parameter value. */
  datatype Param = Str(s: string) | Flag(b: bool)

  /** The parameters `ControlFileReader.read()` extracts from the lines
      of a control file: nothing for fewer than 10 lines; otherwise the
      first line stripped as the master watershed file and both process
      flags set. */
  function ControlParams(lines: seq<string>): (params: map<string, Param>)
    ensures params == map[] <==> |lines| < 10
    ensures |lines| >= 10 ==>
              && params.Keys == {"master_watershed", "has_snowmelt", "has_sediment"}
              && params["master_watershed"] == Str(Strip(lines[0]))
              && params["has_snowmelt"] == Flag(true)
              && params["has_sediment"] == Flag(true)
  {
    if |lines| < 10 then map[]
    else
      var params := map["master_watershed" := Str(Strip(lines[0])), "has_snowmelt" := Flag(true), "has_sediment" := Flag(true)];
      assert "master_watershed" in params;
      params
  }

  /** `ControlFileReader`, for `file.cio`. */
  class ControlFileReader {
    const filePath: Path

    constructor (filePath: Path)
      ensures this.filePath == filePath
    {
      this.filePath := filePath;
    }

    /** `ControlFileReader(path)`: fails when the path does not exist. */
    static method Open(disk: Disk, path: Path) returns (r: Result<ControlFileReader, ReadError>)
      ensures r.Success? <==> Exists(disk, path)
      ensures r.Success? ==> r.value.filePath == path
      ensures r.Failure? ==> r.error == FileNotFound(path)
    {
      if !Exists(disk, path) {
        return Failure(FileNotFound(path));
      }
      var reader := new ControlFileReader(path);
      return Success(reader);
    }

    /** `read()` */
    method Read(disk: Disk) returns (r: Result<map<string, Param>, ReadError>)
      ensures r.Success? <==> FileText(disk, filePath).Some?
      ensures r.Failure? ==> r.error == OpenError(disk, filePath)
      ensures r.Success? ==> r.value == ControlParams(ReadLines(FileText(disk, filePath).value))
    {
      var params: map<string, Param> := map[];
      var read := ReadLinesFrom(disk, filePath);
      if read.Failure? {
        return Failure(read.error);
      }
      var lines := read.value;
      if |lines| < 10 {
        return Success(params);
      }
      params := params["master_watershed" := Str(if |lines| > 0 then Strip(lines[0]) else "")];
      params := params["has_snowmelt" := Flag(true)];
      params := params["has_sediment" := Flag(true)];
      assert "master_watershed" in params;
      return Success(params);
    }
  }

  /** The dataset variant for an output kind name; any other name gives the
      base variant. */
  function KindOf(outputType: string): (k: OutputKind)
    ensures k == Reach <==> outputType == "reach"
    ensures k == Subbasin <==> outputType == "subbasin"
    ensures k == Hru <==> outputType == "hru"
    ensures k == Base <==> outputType !in {"reach", "subbasin", "hru"}
  {
    if outputType == "reach" then Reach
    else if outputType == "subbasin" then Subbasin
    else if outputType == "hru" then Hru
    else Base
  }

  /** What `_read_to_dataframe()` gives for a file: whatever pandas makes of
      its text, and an empty table when reading or parsing raises. */
  function ParsedTable(disk: Disk, parse: Parser, path: Path, skip: int): (t: Table)
    ensures FileText(disk, path).None? ==> t == EmptyTable
    ensures FileText(disk, path).Some? && parse(FileText(disk, path).value, skip).None? ==> t == EmptyTable
    ensures FileText(disk, path).Some? && parse(FileText(disk, path).value, skip).Some? ==>
              t == parse(FileText(disk, path).value, skip).value
  {
    match FileText(disk, path)
    case None => EmptyTable
    case Some(text) =>
      match parse(text, skip)
      case Some(parsed) => parsed
      case None => EmptyTable
  }

  /** `OutputReader`, for `output.rch`, `output.sub` and `output.hru`. */
  class OutputReader {
    const filePath: Path
    const outputType: string
    const skipLines: int

    constructor (filePath: Path, outputType: string, skipLines: int)
      ensures this.filePath == filePath && this.outputType == outputType && this.skipLines == skipLines
    {
      this.filePath := filePath;
      this.outputType := outputType;
      this.skipLines := skipLines;
    }

    /** `OutputReader(path, output_type, skip_lines)`, with the same defaults:
        a reach reader skipping 9 header lines; fails when the path does not
        exist. */
    static method Open(disk: Disk, path: Path, outputType: string := "reach", skipLines: int := 9)
      returns (r: Result<OutputReader, ReadError>)
      ensures r.Success? <==> Exists(disk, path)
      ensures r.Success? ==>
                r.value.filePath == path && r.value.outputType == outputType && r.value.skipLines == skipLines
      ensures r.Failure? ==> r.error == FileNotFound(path)
    {
      if !Exists(disk, path) {
        return Failure(FileNotFound(path));
      }
      var reader := new OutputReader(path, outputType, skipLines);
      return Success(reader);
    }

    /** `_read_to_dataframe()` */
    function ReadToTable(disk: Disk, parse: Parser): Table {
      ParsedTable(disk, parse, filePath, skipLines)
    }

    /** `read()`: the variant named by the output kind, around the table and
        this reader's path. */
    function Read(disk: Disk, parse: Parser): (o: OutputData)
      ensures o.kind == KindOf(outputType)
      ensures o.data == ReadToTable(disk, parse) && o.filePath == filePath
    {
      OutputData(KindOf(outputType), ReadToTable(disk, parse), filePath)
    }

    /** `get_variable(name)`: the column, or nothing when it is absent. */
    function GetVariable(disk: Disk, parse: Parser, name: string): (r: Option<seq<Cell>>)
      ensures var t := ReadToTable(disk, parse);
              && (r.Some? <==> name in t.cols)
              && (r.Some? ==> r.value == ColumnOf(t, name))
    {
      var t := ReadToTable(disk, parse);
      if name in t.cols then Some(ColumnOf(t, name)) else None
    }

    /** `get_time_series(name, reach_id, hru_id)`: the variable's column
        after filtering by reach when a reach is asked for and there is an
        `RCH` column, otherwise by HRU when an HRU is asked for and there is
        an `HRU` column; nothing when the variable is absent or no row is
        left. */
    method GetTimeSeries(disk: Disk, parse: Parser, name: string, reachId: Option<int> := None, hruId: Option<int> := None)
      returns (r: Option<seq<Cell>>)
      ensures var t := ReadToTable(disk, parse);
              var rows := if reachId.Some? && "RCH" in t.cols then
                            MatchRows(t.rows, ColumnIndex(t.cols, "RCH").value, reachId.value)
                          else if hruId.Some? && "HRU" in t.cols then
                            MatchRows(t.rows, ColumnIndex(t.cols, "HRU").value, hruId.value)
                          else t.rows;
              && (r.Some? <==> name in t.cols && |rows| > 0)
              && (r.Some? ==> r.value == Cells(rows, ColumnIndex(t.cols, name).value))
    {
      var df := ReadToTable(disk, parse);
      if name !in df.cols {
        return None;
      }
      if reachId.Some? && "RCH" in df.cols {
        df := df.(rows := MatchRows(df.rows, ColumnIndex(df.cols, "RCH").value, reachId.value));
      } else if hruId.Some? && "HRU" in df.cols {
        df := df.(rows := MatchRows(df.rows, ColumnIndex(df.cols, "HRU").value, hruId.value));
      }
      if IsEmpty(df) {
        return None;
      }
      return Some(ColumnOf(df, name));
    }
  }
}
