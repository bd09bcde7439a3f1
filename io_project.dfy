/** `SWATProject` of src/swat_copilot/io/swat_project.py: the older copy of
    the project view. It resolves and checks the root in its constructor,
    reads the subbasin table the same way, and lists HRU files in directory
    order rather than sorted. */
module IoProject {
  import opened Wrappers
  import opened Text
  import opened Files
  import opened Tables
  import opened SpaceTable
  import opened Readers
  import opened ProjectDirs

  class SwatProject {
    var root: Path

    /** The first half of `__init__`: stores the resolved root. */
    constructor (disk: Disk, root: Path)
      ensures this.root == disk.resolve(root)
    {
      this.root := disk.resolve(root);
    }

    /** `SWATProject(root)`: a project on the resolved root, or the error
        `__init__` raises when that path does not exist. */
    static method Open(disk: Disk, root: Path) returns (r: Result<SwatProject, ReadError>)
      ensures r.Success? <==> Exists(disk, disk.resolve(root))
      ensures r.Success? ==> r.value.root == disk.resolve(root)
      ensures r.Failure? ==> r.error == FileNotFound(disk.resolve(root))
    {
      var project := new SwatProject(disk, root);
      if !Exists(disk, project.root) {
        return Failure(FileNotFound(project.root));
      }
      return Success(project);
    }

    /** `read_sub()` */
    method ReadSub(disk: Disk) returns (r: Result<Table, ReadError>)
      ensures r == SubTable(disk, root)
    {
      var tab := SubTablePath(root);
      if Exists(disk, tab) {
        var text := FileText(disk, tab);
        if text.None? {
          return Failure(IsADirectory(tab));
        }
        var t := ReadSpaceTable(text.value, SubColumns);
        return Success(t);
      }
      var records := CollectSubRows(SortNames(WithSuffix(Children(disk, root), ".sub")));
      return Success(RecordsTable(records));
    }

    /** `read_hru()`: the `*.hru` entry names in directory order. */
    function ReadHru(disk: Disk): (t: Table)
      reads this
      ensures t.cols == ["HRU_FILE"]
      ensures |t.rows| == |WithSuffix(Children(disk, root), ".hru")|
      ensures forall k :: 0 <= k < |t.rows| ==>
                t.rows[k] == [Text(Name(Join(root, WithSuffix(Children(disk, root), ".hru")[k])))]
    {
      HruTable(root, WithSuffix(Children(disk, root), ".hru"))
    }

    /** `summary()`; raises where `read_sub` does. */
    function Summary(disk: Disk): (r: Result<ProjectSummary, ReadError>)
      reads this
      ensures r.Success? <==> SubTable(disk, root).Success?
      ensures r.Success? ==> r.value == Summarize(root, SubTable(disk, root).value, ReadHru(disk))
    {
      match SubTable(disk, root)
      case Success(sub) => Success(Summarize(root, sub, ReadHru(disk)))
      case Failure(e) => Failure(e)
    }

    /** This view and the one in src/swat_copilot/core/projects.py agree
        on everything but the order of the HRU rows: same subbasin table,
        and the same HRU rows, as many of them. */
    lemma AgreesWithCore(disk: Disk)
      ensures |ReadHru(disk).rows| == |HruTable(root, SortedMatches(disk, root, ".hru")).rows|
      ensures forall row :: row in ReadHru(disk).rows <==> row in HruTable(root, SortedMatches(disk, root, ".hru")).rows
    {
      HruTableOrder(root, WithSuffix(Children(disk, root), ".hru"));
    }
  }
}
