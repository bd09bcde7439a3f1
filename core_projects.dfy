/** `SWATProject` of src/swat_copilot/core/projects.py: a project root that
    is resolved and checked once, then read for its subbasin table, its HRU
    files and a summary. */
module CoreProjects {
  import opened Wrappers
  import opened Text
  import opened Files
  import opened Tables
  import opened SpaceTable
  import opened Readers
  import opened ProjectDirs

  /** Construction goes through `FromPath`, which runs the dataclass
      constructor and `PostInit` together as the dataclass does; the two
      are separate members only so that each step has its own contract. */
  class SwatProject {
    var root: Path

    /** The dataclass constructor: stores the root as given. */
    constructor (root: Path)
      ensures this.root == root
    {
      this.root := root;
    }

    /** `__post_init__`: replaces the root by its resolved form and reports
        whether that path exists (the source raises `FileNotFoundError` when
        it does not). */
    method PostInit(disk: Disk) returns (found: bool)
      modifies this
      ensures root == disk.resolve(old(root))
      ensures found <==> Exists(disk, root)
    {
      root := disk.resolve(root);
      found := Exists(disk, root);
    }

    /** `from_path(root)`: a project on the resolved root, or the error the
        construction raises when that path does not exist. */
    static method FromPath(disk: Disk, root: Path) returns (r: Result<SwatProject, ReadError>)
      ensures r.Success? <==> Exists(disk, disk.resolve(root))
      ensures r.Success? ==> r.value.root == disk.resolve(root)
      ensures r.Failure? ==> r.error == FileNotFound(disk.resolve(root))
    {
      var project := new SwatProject(root);
      var ok := project.PostInit(disk);
      if !ok {
        return Failure(FileNotFound(project.root));
      }
      return Success(project);
    }

    /** `_iter_files("*" + suffix)`: the matching entries of the root, sorted. */
    function IterFiles(disk: Disk, suffix: string): (names: seq<string>)
      reads this
      ensures SortedNames(names)
      ensures multiset(names) == multiset(WithSuffix(Children(disk, root), suffix))
      ensures forall n :: n in names <==> n in Children(disk, root) && EndsWith(n, suffix)
    {
      var names := SortNames(WithSuffix(Children(disk, root), suffix));
      assert forall n :: n in names <==> multiset(names)[n] > 0;
      names
    }

    /** `read_sub()` */
    method ReadSub(disk: Disk) returns (r: Result<Table, ReadError>)
      ensures r == SubTable(disk, root)
    {
      var table := SubTablePath(root);
      if Exists(disk, table) {
        var text := FileText(disk, table);
        if text.None? {
          return Failure(IsADirectory(table));
        }
        var t := ReadSpaceTable(text.value, SubColumns);
        return Success(t);
      }
      var records := CollectSubRows(IterFiles(disk, ".sub"));
      return Success(RecordsTable(records));
    }

    /** `read_hru()`: the `*.hru` entry names, sorted. */
    function ReadHru(disk: Disk): (t: Table)
      reads this
      ensures t == HruTable(root, SortedMatches(disk, root, ".hru"))
    {
      HruTable(root, IterFiles(disk, ".hru"))
    }

    /** `summary()`; raises where `read_sub` does. */
    function Summary(disk: Disk): (r: Result<ProjectSummary, ReadError>)
      reads this
      ensures r.Success? <==> SubTable(disk, root).Success?
      ensures r.Success? ==> r.value == Summarize(root, SubTable(disk, root).value, ReadHru(disk))
    {
      match SubTable(disk, root)
      case Success(sub) => Success(Summarize(root, sub, ReadHru(disk)))
      case Failure(e) => Failure(e)
    }
  }
}
