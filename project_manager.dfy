/** The project manager (src/swat_copilot/services/project_manager.py): it
    holds the currently loaded project, validates a candidate project
    directory step by step and reports quick facts about a path. Whether a
    directory is a SWAT project and which files it holds is decided by the
    project locator, which enters as a `Locator` value. */
module ProjectManagement {
  import opened Wrappers
  import opened Text
  import opened Files
  import opened Catalog
  import opened Summary

  const NotFoundError := "Path does not exist"
  const NotDirectoryError := "Path is not a directory"
  const MissingFilesError := "Missing required SWAT files (file.cio)"
  const NoOutputsWarning := "No output files found - project may not have been run"

  /** The dictionary `validate_project` returns. */
  datatype Validation = Validation(isValid: bool, path: Path, errors: seq<string>, warnings: seq<string>)

  /** The dictionary `get_project_info` returns; the two optional entries
      are present only for a path that exists. */
  datatype ProjectInfo = ProjectInfo(
    path: Path, name: string, pathExists: bool, isValid: bool,
    fileCount: Option<nat>, hasOutputs: Option<bool>)

  /** `sum(len(f) for f in files.values())`: the number of files over all
      buckets. */
  function FileCount(buckets: seq<Bucket>): (n: nat)
    ensures n == |AllFiles(buckets)|
  {
    if buckets == [] then 0
    else FileCount(buckets[..|buckets| - 1]) + |buckets[|buckets| - 1].files|
  }

  /** Whether a bucket holds output files: its type tag starts with
      `output_` and it is not empty. */
  predicate OutputBucket(b: Bucket) {
    b.files != [] && StartsWith(b.tag, "output_")
  }

  /** `any(ft.value.startswith("output_") for ft in files.keys() if files[ft])`,
      scanning the buckets from the back. */
  function HasOutputs(buckets: seq<Bucket>): (b: bool)
    ensures b <==> exists i :: 0 <= i < |buckets| && OutputBucket(buckets[i])
  {
    if buckets == [] then false
    else
      var init := buckets[..|buckets| - 1];
      var found := HasOutputs(init);
      assert forall i :: 0 <= i < |init| ==> init[i] == buckets[i];
      found || OutputBucket(buckets[|buckets| - 1])
  }

  /** `ProjectManager`. The settings it reads at construction only serve
      `find_projects`, which is not part of this model. */
  class ProjectManager {
    var currentProject: Option<Project>

    /** A fresh manager has no current project. */
    constructor ()
      ensures currentProject == None
    {
      currentProject := None;
    }

    /** `load_project(path)`: a path the locator does not accept is refused
        and the current project stays as it was; otherwise the project made
        from the path and its scanned files becomes the current one,
        whatever was loaded before. */
    method LoadProject(path: Path, loc: Locator) returns (r: Result<Project, string>)
      modifies this
      ensures r.Success? <==> loc.isSwatProject(path)
      ensures r.Failure? ==> r.error == "Not a valid SWAT project: " + path
      ensures r.Failure? ==> currentProject == old(currentProject)
      ensures r.Success? ==>
                && r.value.projectPath == path
                && r.value.name == Name(path)
                && r.value.description == "SWAT project at " + path
                && r.value.files == loc.scanProjectFiles(path)
      ensures r.Success? ==> currentProject == Some(r.value)
    {
      if !loc.isSwatProject(path) {
        return Failure("Not a valid SWAT project: " + path);
      }
      var files := loc.scanProjectFiles(path);
      var project := Project(path, Name(path), "SWAT project at " + path, files);
      currentProject := Some(project);
      return Success(project);
    }

    /** `validate_project(path)`: the checks run in order (exists, is a
        directory, is a project) and the first that fails is the only error;
        a valid project without any `output.*` entry gets one warning. */
    method ValidateProject(disk: Disk, loc: Locator, path: Path) returns (v: Validation)
      ensures v.path == path
      ensures v.isValid <==> Exists(disk, path) && IsDir(disk, path) && loc.isSwatProject(path)
      ensures v.isValid <==> v.errors == []
      ensures !Exists(disk, path) ==> v.errors == [NotFoundError]
      ensures Exists(disk, path) && !IsDir(disk, path) ==> v.errors == [NotDirectoryError]
      ensures IsDir(disk, path) && !loc.isSwatProject(path) ==> v.errors == [MissingFilesError]
      ensures v.warnings == if v.isValid && WithPrefix(Children(disk, path), "output.") == [] then [NoOutputsWarning] else []
    {
      v := Validation(false, path, [], []);
      if !Exists(disk, path) {
        v := v.(errors := v.errors + [NotFoundError]);
        return;
      }
      if !IsDir(disk, path) {
        v := v.(errors := v.errors + [NotDirectoryError]);
        return;
      }
      if !loc.isSwatProject(path) {
        v := v.(errors := v.errors + [MissingFilesError]);
        return;
      }
      v := v.(isValid := true);
      var outputFiles := WithPrefix(Children(disk, path), "output.");
      if outputFiles == [] {
        v := v.(warnings := v.warnings + [NoOutputsWarning]);
      }
    }

    /** `get_project_info(path)`: path, name and existence always; for an
        existing path also the locator's verdict, the number of scanned
        files and whether some non-empty bucket holds output files. */
    function GetProjectInfo(disk: Disk, loc: Locator, path: Path): (info: ProjectInfo)
      ensures info.path == path && info.name == Name(path)
      ensures info.pathExists <==> Exists(disk, path)
      ensures info.fileCount.Some? <==> info.pathExists
      ensures info.hasOutputs.Some? <==> info.pathExists
      ensures !info.pathExists ==> !info.isValid
      ensures info.pathExists ==>
                var files := loc.scanProjectFiles(path);
                && info.isValid == loc.isSwatProject(path)
                && info.fileCount.value == |AllFiles(files)|
                && (info.hasOutputs.value <==> exists i :: 0 <= i < |files| && OutputBucket(files[i]))
    {
      if Exists(disk, path) then
        var files := loc.scanProjectFiles(path);
        ProjectInfo(path, Name(path), true, loc.isSwatProject(path), Some(FileCount(files)), Some(HasOutputs(files)))
      else
        ProjectInfo(path, Name(path), false, false, None, None)
    }
  }

  /** The quick info and the project summary agree: a project has outputs
      exactly when some output file type is among its per-type counts. */
  lemma {:induction false} InfoAgreesWithCounts(buckets: seq<Bucket>)
    requires DistinctTags(buckets)
    ensures HasOutputs(buckets) <==>
              exists tag :: tag in FileCounts(buckets) && StartsWith(tag, "output_")
  {
    FileCountsMeaning(buckets);
    if HasOutputs(buckets) {
      var i :| 0 <= i < |buckets| && OutputBucket(buckets[i]);
      assert buckets[i].tag in FileCounts(buckets);
    }
    if exists tag :: tag in FileCounts(buckets) && StartsWith(tag, "output_") {
      var tag :| tag in FileCounts(buckets) && StartsWith(tag, "output_");
      var i :| 0 <= i < |buckets| && buckets[i].tag == tag;
      assert OutputBucket(buckets[i]);
    }
  }
}
