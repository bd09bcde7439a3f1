/** `read_space_table` (src/swat_copilot/io/readers.py): a tolerant reader
    for headerless whitespace-separated tables. Blank lines are dropped,
    lines with fewer tokens than column names are dropped, longer lines are
    cut to as many tokens as there are names, and then every column is
    converted to numbers when all of its cells are numbers. */
module SpaceTable {
  import opened Wrappers
  import opened Text
  import opened Tables

  /** A line yields a row when it is not blank and has at least `n` tokens. */
  predicate Qualifies(line: string, n: nat) {
    !IsBlank(line) && |Tokens(line)| >= n
  }

  /** What one line contributes: its first `n` tokens when it qualifies. */
  function RowOf(line: string, n: nat): (r: seq<seq<string>>)
    ensures |r| <= 1 && forall k :: 0 <= k < |r| ==> |r[k]| == n
  {
    if Qualifies(line, n) then [Tokens(line)[..n]] else []
  }

  /** The token lists the first loop collects from `lines`, in line order. */
  function RawRows(lines: seq<string>, n: nat): (rows: seq<seq<string>>)
    ensures forall k :: 0 <= k < |rows| ==> |rows[k]| == n
    ensures |rows| <= |lines|
  {
    if lines == [] then []
    else RawRows(lines[..|lines| - 1], n) + RowOf(lines[|lines| - 1], n)
  }

  /** Number of lines that yield a row. */
  function CountQualifying(lines: seq<string>, n: nat): nat {
    if lines == [] then 0
    else (if Qualifies(lines[0], n) then 1 else 0) + CountQualifying(lines[1..], n)
  }

  function TextRow(r: seq<string>): (row: Row)
    ensures |row| == |r|
    ensures forall j :: 0 <= j < |r| ==> row[j] == Text(r[j])
  {
    if r == [] then [] else TextRow(r[..|r| - 1]) + [Text(r[|r| - 1])]
  }

  function TextRows(rs: seq<seq<string>>): (rows: seq<Row>)
    ensures |rows| == |rs|
    ensures forall i :: 0 <= i < |rs| ==> rows[i] == TextRow(rs[i])
  {
    if rs == [] then [] else TextRows(rs[..|rs| - 1]) + [TextRow(rs[|rs| - 1])]
  }

  /** The number a cell denotes for `pd.to_numeric`, if it denotes one:
      numbers and missing values stay as they are, text must parse. */
  function CellNumber(c: Cell): Option<Cell> {
    match c
    case Num(_) => Some(c)
    case Null => Some(Null)
    case Text(s) => match ParseInt(s) { case Some(v) => Some(Num(v)) case None => None }
  }

  predicate AllNumeric(col: seq<Cell>) {
    forall k :: 0 <= k < |col| ==> CellNumber(col[k]).Some?
  }

  /** `pd.to_numeric(col, errors="ignore")`: the converted column when every
      cell converts, otherwise the column unchanged. */
  function ToNumeric(col: seq<Cell>): (r: seq<Cell>)
    ensures |r| == |col|
    ensures AllNumeric(col) ==> forall k :: 0 <= k < |col| ==> r[k] == CellNumber(col[k]).value
    ensures !AllNumeric(col) ==> r == col
  {
    if AllNumeric(col) then Converted(col) else col
  }

  function Converted(col: seq<Cell>): (r: seq<Cell>)
    requires AllNumeric(col)
    ensures |r| == |col|
    ensures forall k :: 0 <= k < |col| ==> r[k] == CellNumber(col[k]).value
  {
    if col == [] then []
    else Converted(col[..|col| - 1]) + [CellNumber(col[|col| - 1]).value]
  }

  /** `df[c] = col` for the column at position `j`. */
  function ReplaceColumn(rows: seq<Row>, j: nat, col: seq<Cell>): (r: seq<Row>)
    requires |col| == |rows|
    ensures |r| == |rows|
    ensures forall i :: 0 <= i < |rows| ==> r[i] == ReplaceCell(rows[i], j, col[i])
  {
    if rows == [] then []
    else ReplaceColumn(rows[..|rows| - 1], j, col[..|rows| - 1]) + [ReplaceCell(rows[|rows| - 1], j, col[|rows| - 1])]
  }

  function ReplaceCell(row: Row, j: nat, c: Cell): (r: Row)
    ensures |r| == |row|
    ensures j < |row| ==> r[j] == c
    ensures forall k :: 0 <= k < |row| && k != j ==> r[k] == row[k]
  {
    if j < |row| then row[j := c] else row
  }

  /** Column `j` before conversion: the `j`-th token of every row, as text. */
  function TextColumn(raw: seq<seq<string>>, j: nat): seq<Cell> {
    Cells(TextRows(raw), j)
  }

  /** Cell `(i, j)` of the finished table: the converted token when its whole
      column converts, the token as text otherwise. */
  function FinalCell(raw: seq<seq<string>>, i: nat, j: nat): Cell
    requires i < |raw| && j < |raw[i]|
  {
    if AllNumeric(TextColumn(raw, j)) then CellNumber(Text(raw[i][j])).value else Text(raw[i][j])
  }

  /** The finished table for collected rows of `|names|` tokens each. */
  function FromRaw(raw: seq<seq<string>>, names: seq<string>): (t: Table)
    requires forall i :: 0 <= i < |raw| ==> |raw[i]| == |names|
  {
    Table(names, seq(|raw|, i requires 0 <= i < |raw| =>
                   seq(|names|, j requires 0 <= j < |names| => FinalCell(raw, i, j))))
  }

  /** `read_space_table(text, names)` as a value. */
  function SpaceTable(text: string, names: seq<string>): Table
  {
    FromRaw(RawRows(SplitLines(text), |names|), names)
  }

  /** The reader: one loop collects the rows, a second converts the columns. */
  method ReadSpaceTable(text: string, names: seq<string>) returns (t: Table)
    ensures t == SpaceTable(text, names)
  {
    var rows := CollectRows(SplitLines(text), |names|);
    t := ConvertColumns(rows, names);
  }

  /** The first loop: the leading `n` tokens of every line that has them. */
  method CollectRows(lines: seq<string>, n: nat) returns (rows: seq<seq<string>>)
    ensures rows == RawRows(lines, n)
  {
    rows := [];
    var k := 0;
    while k < |lines|
      invariant 0 <= k <= |lines|
      invariant rows == RawRows(lines[..k], n)
    {
      var ln := lines[k];
      assert lines[..k + 1] == lines[..k] + [ln];
      if !IsBlank(ln) {
        var parts := Tokens(ln);
        if |parts| >= n {
          rows := rows + [parts[..n]];
        }
      }
      k := k + 1;
    }
    assert lines[..k] == lines;
  }

  /** The second loop: each column in turn through `pd.to_numeric`. */
  method ConvertColumns(raw: seq<seq<string>>, names: seq<string>) returns (t: Table)
    requires forall i :: 0 <= i < |raw| ==> |raw[i]| == |names|
    ensures t == FromRaw(raw, names)
  {
    var df := Table(names, TextRows(raw));
    for c := 0 to |names|
      invariant ConvertedBefore(df, raw, names, c)
    {
      var col := Cells(df.rows, c);
      ConvertStep(df, raw, names, c);
      df := df.(rows := ReplaceColumn(df.rows, c, ToNumeric(col)));
    }
    t := df;
    FinishedTable(raw, names, t);
  }

  /** The conversion loop's invariant: columns before `c` hold their final
      cells, the others still hold the tokens as text. */
  ghost predicate ConvertedBefore(df: Table, raw: seq<seq<string>>, names: seq<string>, c: nat)
  {
    && (forall i :: 0 <= i < |raw| ==> |raw[i]| == |names|)
    && df.cols == names && |df.rows| == |raw|
    && (forall i :: 0 <= i < |raw| ==> |df.rows[i]| == |names|)
    && (forall i, j :: 0 <= i < |raw| && c <= j < |names| ==> df.rows[i][j] == Text(raw[i][j]))
    && (forall i, j :: 0 <= i < |raw| && 0 <= j < c && j < |names| ==> df.rows[i][j] == FinalCell(raw, i, j))
  }

  lemma ConvertStep(df: Table, raw: seq<seq<string>>, names: seq<string>, c: nat)
    requires c < |names| && ConvertedBefore(df, raw, names, c)
    ensures |Cells(df.rows, c)| == |df.rows|
    ensures ConvertedBefore(df.(rows := ReplaceColumn(df.rows, c, ToNumeric(Cells(df.rows, c)))), raw, names, c + 1)
  {
    ColumnIsText(df, raw, names, c);
    ConvertedColumn(raw, c);
    ReplacedCells(df.rows, c, ToNumeric(Cells(df.rows, c)));
  }

  /** Before column `c` is converted it holds the tokens as text. */
  lemma ColumnIsText(df: Table, raw: seq<seq<string>>, names: seq<string>, c: nat)
    requires c < |names| && ConvertedBefore(df, raw, names, c)
    ensures Cells(df.rows, c) == TextColumn(raw, c)
  {
  }

  /** Replacing column `c` changes the cells of that column only. */
  lemma ReplacedCells(rows: seq<Row>, c: nat, col: seq<Cell>)
    requires |col| == |rows|
    ensures var r := ReplaceColumn(rows, c, col);
            forall i, j :: 0 <= i < |rows| && 0 <= j < |rows[i]| ==>
              |r[i]| == |rows[i]| && r[i][j] == if j == c then col[i] else rows[i][j]
  {
  }

  /** Converting a column of tokens gives the final cells of that column. */
  lemma ConvertedColumn(raw: seq<seq<string>>, c: nat)
    requires forall i :: 0 <= i < |raw| ==> c < |raw[i]|
    ensures |ToNumeric(TextColumn(raw, c))| == |raw|
    ensures forall k :: 0 <= k < |raw| ==> ToNumeric(TextColumn(raw, c))[k] == FinalCell(raw, k, c)
  {
    var col := TextColumn(raw, c);
    forall k | 0 <= k < |raw| ensures ToNumeric(col)[k] == FinalCell(raw, k, c) {
      assert col[k] == Text(raw[k][c]);
    }
  }

  lemma FinishedTable(raw: seq<seq<string>>, names: seq<string>, t: Table)
    requires ConvertedBefore(t, raw, names, |names|)
    ensures t == FromRaw(raw, names)
  {
    var spec := FromRaw(raw, names);
    forall i | 0 <= i < |t.rows| ensures t.rows[i] == spec.rows[i] {
      assert forall j :: 0 <= j < |names| ==> t.rows[i][j] == spec.rows[i][j];
    }
  }

  // ---------------------------------------------------------------------
  // What the reader promises

  /** Rows keep the order of the lines they come from. */
  lemma {:induction false} RawRowsConcat(a: seq<string>, b: seq<string>, n: nat)
    ensures RawRows(a + b, n) == RawRows(a, n) + RawRows(b, n)
    decreases |b|
  {
    if b == [] {
      assert a + b == a;
    } else {
      assert (a + b)[..|a + b| - 1] == a + b[..|b| - 1];
      RawRowsConcat(a, b[..|b| - 1], n);
    }
  }

  /** One line on its own: no row when it is blank or too short, otherwise
      its first `n` tokens. */
  lemma RawRowsOfLine(line: string, n: nat)
    ensures IsBlank(line) ==> RawRows([line], n) == []
    ensures |Tokens(line)| < n ==> RawRows([line], n) == []
    ensures !IsBlank(line) && |Tokens(line)| >= n ==> RawRows([line], n) == [Tokens(line)[..n]]
  {
    assert [line][..0] == [];
    assert RawRows([line], n) == RowOf(line, n);
  }

  /** There are as many rows as lines that are non-blank and long enough. */
  lemma {:induction false} RawRowsCount(lines: seq<string>, n: nat)
    ensures |RawRows(lines, n)| == CountQualifying(lines, n)
  {
    if lines != [] {
      assert lines == [lines[0]] + lines[1..];
      RawRowsConcat([lines[0]], lines[1..], n);
      RawRowsOfLine(lines[0], n);
      RawRowsCount(lines[1..], n);
    }
  }

  /** The table has the requested columns, in order, and every row has one
      cell per column, even when no line qualifies. */
  lemma SpaceTableShape(text: string, names: seq<string>)
    ensures SpaceTable(text, names).cols == names
    ensures |SpaceTable(text, names).rows| == CountQualifying(SplitLines(text), |names|)
    ensures forall row :: row in SpaceTable(text, names).rows ==> |row| == |names|
  {
    RawRowsCount(SplitLines(text), |names|);
  }

  /** Conversion is per column and all or nothing: a column is numbers when
      every one of its tokens is a number, and otherwise keeps its text. */
  lemma SpaceTableCell(text: string, names: seq<string>, i: nat, j: nat)
    requires i < |RawRows(SplitLines(text), |names|)|
    requires j < |names|
    ensures var raw := RawRows(SplitLines(text), |names|);
            SpaceTable(text, names).rows[i][j]
              == if AllNumeric(TextColumn(raw, j)) then Num(ParseInt(raw[i][j]).value) else Text(raw[i][j])
  {
    var raw := RawRows(SplitLines(text), |names|);
    var t := SpaceTable(text, names);
    assert t.rows[i][j] == FinalCell(raw, i, j);
    if AllNumeric(TextColumn(raw, j)) {
      assert TextColumn(raw, j)[i] == Text(raw[i][j]);
      assert CellNumber(TextColumn(raw, j)[i]).Some?;
    }
  }

  /** The text of a table written one row per line, tokens separated by
      single spaces. */
  function Render(ts: seq<seq<string>>): string {
    if ts == [] then "" else JoinSpace(ts[0]) + "\n" + Render(ts[1..])
  }

  /** Round trip: rows of `n >= 1` whitespace-free tokens, written one per
      line, are read back exactly, in order. */
  lemma {:induction false} RenderRoundTrip(ts: seq<seq<string>>, n: nat)
    requires n >= 1
    requires forall k :: 0 <= k < |ts| ==> |ts[k]| == n && forall t :: t in ts[k] ==> IsToken(t)
    ensures RawRows(SplitLines(Render(ts)), n) == ts
  {
    if ts != [] {
      var line := JoinSpace(ts[0]);
      LineRoundTrip(ts[0], n);
      SplitLinesCons(line, Render(ts[1..]));
      RawRowsConcat([line], SplitLines(Render(ts[1..])), n);
      RenderRoundTrip(ts[1..], n);
      assert ts == [ts[0]] + ts[1..];
    }
  }

  /** One row written as a line is read back as that row. */
  lemma LineRoundTrip(r: seq<string>, n: nat)
    requires n >= 1 && |r| == n && forall t :: t in r ==> IsToken(t)
    ensures NoLineBreak(JoinSpace(r))
    ensures RawRows([JoinSpace(r)], n) == [r]
  {
    var line := JoinSpace(r);
    JoinSpaceNoLineBreak(r);
    TokensOfJoinSpace(r);
    BlankIffNoTokens(line);
    assert r[..n] == r;
    RawRowsOfLine(line, n);
  }
}
