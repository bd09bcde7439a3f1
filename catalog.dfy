/** What the services see of a project. The services work on a project
    record (path, name, description and its files grouped by file type)
    and on collaborators that are not part of this model: the project
    locator (`SWATProjectLocator.is_swat_project`, `scan_project_files`)
    and the record's own `get_file` and `has_outputs`. Those enter as
    functions; the filesystem and the table parser enter as values. */
module Catalog {
  import opened Wrappers
  import opened Files
  import opened Readers

  /** The members of `SWATFileType` the services ask for by name. */
  datatype FileKind = Control | OutputRch | OutputSub | OutputHru

  /** A project file: its path and its size in bytes. */
  datatype ProjectFile = ProjectFile(path: Path, size: nat)

  /** One entry of `project.files`: a file type's value and its files. */
  datatype Bucket = Bucket(tag: string, files: seq<ProjectFile>)

  /** The project record the services are given. */
  datatype Project = Project(projectPath: Path, name: string, description: string, files: seq<Bucket>)

  datatype Locator = Locator(isSwatProject: Path -> bool, scanProjectFiles: Path -> seq<Bucket>)

  /** Everything a service call depends on besides its arguments. */
  datatype World = World(
    disk: Disk,
    parse: Parser,
    getFile: (Project, FileKind) -> Option<ProjectFile>,
    hasOutputs: Project -> bool)

  /** The bucket tags are distinct, as the keys of a dictionary are. */
  predicate DistinctTags(buckets: seq<Bucket>) {
    forall i, j :: 0 <= i < j < |buckets| ==> buckets[i].tag != buckets[j].tag
  }

  /** Every file of every bucket, in order. */
  function AllFiles(buckets: seq<Bucket>): (fs: seq<ProjectFile>)
    ensures forall f :: f in fs <==> exists i :: 0 <= i < |buckets| && f in buckets[i].files
  {
    if buckets == [] then []
    else
      var init := buckets[..|buckets| - 1];
      var rest := AllFiles(init);
      assert forall i :: 0 <= i < |init| ==> init[i] == buckets[i];
      rest + buckets[|buckets| - 1].files
  }
}
