/** What the two project-directory views (src/swat_copilot/core/projects.py
    and src/swat_copilot/io/swat_project.py) compute from a project root:
    the subbasin table, the HRU file table and the summary counts. Both
    views read the subbasin table the same way, so it is defined once here. */
module ProjectDirs {
  import opened Wrappers
  import opened Text
  import opened Files
  import opened Tables
  import opened SpaceTable
  import opened Readers

  const SubColumns: seq<string> := ["SUB", "AREA_KM2"]

  /** `root / "TablesOut" / "sub.txt"` */
  function SubTablePath(root: Path): Path {
    Join(Join(root, "TablesOut"), "sub.txt")
  }

  /** The names of the entries of `root` that end with `suffix`, sorted:
      `sorted(root.glob("*" + suffix))`, each path being `root / name`. */
  function SortedMatches(disk: Disk, root: Path, suffix: string): (names: seq<string>)
    ensures SortedNames(names)
    ensures multiset(names) == multiset(WithSuffix(Children(disk, root), suffix))
  {
    SortNames(WithSuffix(Children(disk, root), suffix))
  }

  /** `int(path.stem.split(".")[0])` for a file name, or nothing where
      `int` raises. */
  function SubIdOf(name: string): Option<int> {
    ParseInt(BeforeFirstDot(Stem(name)))
  }

  /** A file named after its subbasin number, such as `12.sub`, gives
      that number back. */
  lemma SubIdOfNumbered(n: int, ext: string)
    requires ext != [] && '.' !in ext
    ensures SubIdOf(ShowInt(n) + "." + ext) == Some(n)
  {
    var d := ShowInt(n);
    var name := d + "." + ext;
    assert '.' !in d by {
      var digits := if n < 0 then ShowNat(-n) else ShowNat(n);
      assert forall i :: 0 <= i < |digits| ==> digits[i] != '.';
    }
    assert name[|d|] == '.';
    assert name[|d| + 1..] == ext;
    var r := LastDot(name);
    assert r == Some(|d|);
    assert Stem(name) == d;
    assert BeforeFirstDot(d) == d;
    ParseShowInt(n);
  }

  /** The record `{"SUB": id, "AREA_KM2": None}` as a row. */
  function SubRow(id: int): Row {
    [Num(id), Null]
  }

  /** The records the fallback loop collects from the file names, in
      order, each name read by `parse`. */
  function Records(names: seq<string>, parse: string -> Option<int>): (rows: seq<Row>)
    ensures |rows| <= |names|
    ensures forall k :: 0 <= k < |rows| ==> |rows[k]| == 2 && rows[k][0].Num? && rows[k][1] == Null
  {
    if names == [] then []
    else
      var last := names[|names| - 1];
      Records(names[..|names| - 1], parse) + RecordOf(parse(last))
  }

  /** The record one file name contributes: none when its prefix does not
      parse. */
  function RecordOf(parsed: Option<int>): (r: seq<Row>)
    ensures |r| <= 1
    ensures forall id :: SubRow(id) in r <==> parsed == Some(id)
  {
    match parsed
    case Some(id) => [SubRow(id)]
    case None => []
  }

  /** The records of `read_sub`'s fallback. */
  function SubRows(names: seq<string>): seq<Row> {
    Records(names, SubIdOf)
  }

  /** The fallback loop of `read_sub`: one record per name whose prefix
      parses, names that do not parse skipped. */
  method CollectSubRows(names: seq<string>) returns (rows: seq<Row>)
    ensures rows == SubRows(names)
  {
    rows := [];
    for k := 0 to |names|
      invariant rows == Records(names[..k], SubIdOf)
    {
      assert names[..k + 1][..k] == names[..k];
      var id := SubIdOf(names[k]);
      if id.Some? {
        rows := rows + [SubRow(id.value)];
      }
    }
    assert names[..|names|] == names;
  }

  /** `pd.DataFrame(records)`: no columns at all when there are no records. */
  function RecordsTable(rows: seq<Row>): Table {
    if rows == [] then EmptyTable else Table(SubColumns, rows)
  }

  /** `read_sub()`: the space table of `TablesOut/sub.txt` when that path
      exists (reading it raises when it is a directory), otherwise the
      records of the sorted `*.sub` entries. */
  function SubTable(disk: Disk, root: Path): Result<Table, ReadError> {
    var path := SubTablePath(root);
    if Exists(disk, path) then
      match FileText(disk, path)
      case Some(text) => Success(SpaceTable.SpaceTable(text, SubColumns))
      case None => Failure(IsADirectory(path))
    else Success(RecordsTable(SubRows(SortedMatches(disk, root, ".sub"))))
  }

  /** `pd.DataFrame({"HRU_FILE": [path.name for path in files]})` for the
      entries `names` of `root`. */
  function HruTable(root: Path, names: seq<string>): (t: Table)
    ensures t.cols == ["HRU_FILE"] && |t.rows| == |names|
  {
    Table(["HRU_FILE"], seq(|names|, i requires 0 <= i < |names| => HruRow(root, names[i])))
  }

  /** The row of one HRU entry: its file name. */
  function HruRow(root: Path, name: string): Row {
    [Text(Name(Join(root, name)))]
  }

  datatype ProjectSummary = ProjectSummary(project: string, nSub: nat, nHru: nat)

  /** `summary()` from the two tables: the root's last segment and the row
      counts, 0 for an empty table. */
  function Summarize(root: Path, sub: Table, hru: Table): ProjectSummary {
    ProjectSummary(Name(root), if IsEmpty(sub) then 0 else |sub.rows|, if IsEmpty(hru) then 0 else |hru.rows|)
  }

  // ---------------------------------------------------------------------
  // What the views promise

  /** The records keep the order of the names. */
  lemma {:induction false} RecordsConcat(a: seq<string>, b: seq<string>, parse: string -> Option<int>)
    ensures Records(a + b, parse) == Records(a, parse) + Records(b, parse)
    decreases |b|
  {
    if b == [] {
      assert a + b == a;
    } else {
      var b' := b[..|b| - 1];
      assert (a + b)[..|a + b| - 1] == a + b';
      RecordsConcat(a, b', parse);
    }
  }

  /** A record exists exactly for the IDs some name parses to; every other
      name is skipped. */
  lemma {:induction false} RecordsMembers(names: seq<string>, parse: string -> Option<int>, id: int)
    ensures SubRow(id) in Records(names, parse) <==> exists n :: n in names && parse(n) == Some(id)
  {
    if names != [] {
      var init := names[..|names| - 1];
      var last := names[|names| - 1];
      RecordsMembers(init, parse, id);
      assert names == init + [last];
      assert forall n :: n in names <==> n in init || n == last;
    }
  }

  /** When `TablesOut/sub.txt` exists, the entries of the root do not
      matter: replacing them changes nothing. */
  lemma SubTableIgnoresEntries(disk: Disk, root: Path, others: seq<string>)
    requires Exists(disk, SubTablePath(root))
    ensures SubTable(disk.(entries := disk.entries[root := Dir(others)]), root) == SubTable(disk, root)
  {
    var path := SubTablePath(root);
    assert |path| > |root|;
    var disk' := disk.(entries := disk.entries[root := Dir(others)]);
    assert disk'.entries[path] == disk.entries[path];
  }

  /** When `TablesOut/sub.txt` is a file, the subbasin table is its space
      table: two columns, one row per line with at least two tokens. */
  lemma SubTableFromFile(disk: Disk, root: Path)
    requires FileText(disk, SubTablePath(root)).Some?
    ensures var lines := SplitLines(FileText(disk, SubTablePath(root)).value);
            && SubTable(disk, root).Success?
            && SubTable(disk, root).value.cols == SubColumns
            && |SubTable(disk, root).value.rows| == CountQualifying(lines, 2)
  {
    SpaceTableShape(FileText(disk, SubTablePath(root)).value, SubColumns);
  }

  /** Without `TablesOut/sub.txt`, the table is one `(id, None)` row per
      parsable `*.sub` name in sorted order, or has no columns at all. */
  lemma SubTableFallback(disk: Disk, root: Path, id: int)
    requires !Exists(disk, SubTablePath(root))
    ensures var names := SortedMatches(disk, root, ".sub");
            && SubTable(disk, root).Success?
            && SubTable(disk, root).value.rows == SubRows(names)
            && (SubTable(disk, root).value.cols == SubColumns <==> SubRows(names) != [])
            && (SubRow(id) in SubTable(disk, root).value.rows <==>
                  exists n :: n in names && SubIdOf(n) == Some(id))
  {
    RecordsMembers(SortedMatches(disk, root, ".sub"), SubIdOf, id);
  }

  /** The HRU table lists the entry names themselves, in the given order. */
  lemma HruTableNames(root: Path, names: seq<string>)
    requires forall k :: 0 <= k < |names| ==> '/' !in names[k]
    ensures forall k :: 0 <= k < |names| ==> HruTable(root, names).rows[k] == [Text(names[k])]
  {
    forall k | 0 <= k < |names| ensures HruRow(root, names[k]) == [Text(names[k])] {
      NameOfJoin(root, names[k]);
    }
  }

  /** Listing the HRU entries sorted or in directory order gives as many
      rows and the same rows; only the order differs. */
  lemma HruTableOrder(root: Path, names: seq<string>)
    ensures |HruTable(root, SortNames(names)).rows| == |HruTable(root, names).rows|
    ensures forall row :: row in HruTable(root, SortNames(names)).rows <==> row in HruTable(root, names).rows
  {
    var sorted := SortNames(names);
    assert |sorted| == |multiset(sorted)| == |multiset(names)| == |names|;
    HruRowsFrom(root, sorted, names);
    HruRowsFrom(root, names, sorted);
  }

  /** Two lists holding the same names equally often list the same rows. */
  lemma HruRowsFrom(root: Path, a: seq<string>, b: seq<string>)
    requires multiset(a) == multiset(b)
    ensures forall row :: row in HruTable(root, a).rows ==> row in HruTable(root, b).rows
  {
    var ta := HruTable(root, a);
    var tb := HruTable(root, b);
    forall row | row in ta.rows ensures row in tb.rows {
      var i :| 0 <= i < |ta.rows| && ta.rows[i] == row;
      assert a[i] in multiset(a);
      var j :| 0 <= j < |b| && b[j] == a[i];
      assert tb.rows[j] == row;
    }
  }

  /** The summary counts: the rows of the subbasin table and one per `*.hru`
      entry of the root. */
  lemma SummaryCounts(disk: Disk, root: Path, hruNames: seq<string>)
    requires SubTable(disk, root).Success?
    ensures var s := Summarize(root, SubTable(disk, root).value, HruTable(root, hruNames));
            && s.project == Name(root)
            && s.nHru == |hruNames|
            && (!Exists(disk, SubTablePath(root)) ==> s.nSub == |SubRows(SortedMatches(disk, root, ".sub"))|)
  {
  }
}
