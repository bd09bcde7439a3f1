/** `SummarizeService` (src/swat_copilot/services/summary.py): file counts
    per type, the total size, the output-file summary and the project
    summary. */
module Summary {
  import opened Wrappers
  import opened Text
  import opened Files
  import opened Tables
  import opened Schemas
  import opened Readers
  import opened Catalog

  /** `file_counts`: a bucket's length under its tag, for the non-empty
      buckets; a later bucket with the same tag overwrites an earlier one. */
  function FileCounts(buckets: seq<Bucket>): map<string, nat> {
    if buckets == [] then map[]
    else
      var last := buckets[|buckets| - 1];
      var counts := FileCounts(buckets[..|buckets| - 1]);
      if last.files != [] then counts[last.tag := |last.files|] else counts
  }

  /** Bytes of a list of files. */
  function SizeSum(files: seq<ProjectFile>): nat {
    if files == [] then 0 else SizeSum(files[..|files| - 1]) + files[|files| - 1].size
  }

  /** Bytes of every bucket, bucket by bucket. */
  function TotalBytes(buckets: seq<Bucket>): nat {
    if buckets == [] then 0 else TotalBytes(buckets[..|buckets| - 1]) + SizeSum(buckets[|buckets| - 1].files)
  }

  /** The three output kinds `get_output_summary` visits, in order. */
  const OutputTypes: seq<(FileKind, string)> := [(OutputRch, "reach"), (OutputSub, "subbasin"), (OutputHru, "hru")]

  datatype OutputEntry =
    | Loaded(outputType: string, path: Path, shape: (nat, nat), variables: seq<string>)
    | Failed(outputType: string, path: Path, error: string)

  datatype OutputSummary = OutputSummary(hasOutputs: bool, outputFiles: seq<OutputEntry>, variables: map<string, seq<string>>)

  /** The entry for one output kind: none without such a file; the error of
      opening a reader on a path that does not exist; otherwise the shape
      and variables of the dataset read. */
  function EntryFor(w: World, project: Project, kind: FileKind, outputType: string): (e: Option<OutputEntry>)
    ensures e.Some? <==> w.getFile(project, kind).Some?
    ensures e.Some? ==> e.value.outputType == outputType && e.value.path == w.getFile(project, kind).value.path
  {
    match w.getFile(project, kind)
    case None => None
    case Some(f) =>
      if Exists(w.disk, f.path) then
        var data := OutputData(KindOf(outputType), ParsedTable(w.disk, w.parse, f.path, 9), f.path);
        Some(Loaded(outputType, f.path, Shape(data), Variables(data)))
      else Some(Failed(outputType, f.path, "File not found: " + f.path))
  }

  /** `output_files` for the kinds `types`, in order. */
  function Entries(w: World, project: Project, types: seq<(FileKind, string)>): seq<OutputEntry> {
    if types == [] then []
    else
      var last := types[|types| - 1];
      Entries(w, project, types[..|types| - 1]) + EntryList(w, project, last.0, last.1)
  }

  function EntryList(w: World, project: Project, kind: FileKind, outputType: string): (es: seq<OutputEntry>)
    ensures |es| <= 1 && forall e :: e in es ==> e.outputType == outputType
  {
    match EntryFor(w, project, kind, outputType)
    case Some(e) => [e]
    case None => []
  }

  /** `variables` after the kinds `types`: each loaded kind's variables. */
  function VariablesOf(entries: seq<OutputEntry>): map<string, seq<string>> {
    if entries == [] then map[]
    else
      var last := entries[|entries| - 1];
      var vars := VariablesOf(entries[..|entries| - 1]);
      if last.Loaded? then vars[last.outputType := last.variables] else vars
  }

  datatype ProjectSummary = ProjectSummary(
    name: string, path: Path, description: string,
    fileCounts: map<string, nat>, hasOutputs: bool, sizeBytes: nat,
    controlParams: Option<map<string, Param>>)

  class SummarizeService {
    const project: Project

    constructor (project: Project)
      ensures this.project == project
    {
      this.project := project;
    }

    /** `_count_files_by_type()` */
    method CountFilesByType() returns (counts: map<string, nat>)
      ensures counts == FileCounts(project.files)
    {
      counts := map[];
      var buckets := project.files;
      for i := 0 to |buckets|
        invariant counts == FileCounts(buckets[..i])
      {
        assert buckets[..i + 1][..i] == buckets[..i];
        var files := buckets[i].files;
        if files != [] {
          counts := counts[buckets[i].tag := |files|];
        }
      }
      assert buckets[..|buckets|] == buckets;
    }

    /** `_calculate_project_size()`, in bytes. */
    method CalculateProjectSize() returns (totalBytes: nat)
      ensures totalBytes == TotalBytes(project.files)
    {
      totalBytes := 0;
      var buckets := project.files;
      for i := 0 to |buckets|
        invariant totalBytes == TotalBytes(buckets[..i])
      {
        assert buckets[..i + 1][..i] == buckets[..i];
        var files := buckets[i].files;
        var before := totalBytes;
        for j := 0 to |files|
          invariant totalBytes == before + SizeSum(files[..j])
        {
          assert files[..j + 1][..j] == files[..j];
          totalBytes := totalBytes + files[j].size;
        }
        assert files[..|files|] == files;
      }
      assert buckets[..|buckets|] == buckets;
    }

    /** The body of `get_output_summary()`'s loop for one kind: nothing
        without a file of that kind; otherwise the dataset read from it,
        or the error of opening a reader on a path that does not exist. */
    method ReadEntry(w: World, fileType: FileKind, outputType: string) returns (e: Option<OutputEntry>)
      ensures e == EntryFor(w, project, fileType, outputType)
    {
      var outputFile := w.getFile(project, fileType);
      if outputFile.None? {
        return None;
      }
      var path := outputFile.value.path;
      var reader := OutputReader.Open(w.disk, path, outputType);
      if reader.Failure? {
        return Some(Failed(outputType, path, "File not found: " + path));
      }
      var data := reader.value.Read(w.disk, w.parse);
      return Some(Loaded(outputType, path, Shape(data), Variables(data)));
    }

    /** `get_output_summary()` */
    method GetOutputSummary(w: World) returns (s: OutputSummary)
      ensures !w.hasOutputs(project) ==> s == OutputSummary(false, [], map[])
      ensures w.hasOutputs(project) ==>
                && s.hasOutputs
                && s.outputFiles == Entries(w, project, OutputTypes)
                && s.variables == VariablesOf(s.outputFiles)
    {
      s := OutputSummary(false, [], map[]);
      if !w.hasOutputs(project) {
        return;
      }
      s := s.(hasOutputs := true);
      var types := OutputTypes;
      for i := 0 to |types|
        invariant s.hasOutputs
        invariant s.outputFiles == Entries(w, project, types[..i])
        invariant s.variables == VariablesOf(s.outputFiles)
      {
        var (fileType, outputType) := types[i];
        EntriesStep(w, project, types, i);
        var entry := ReadEntry(w, fileType, outputType);
        if entry.Some? {
          VariablesStep(s.outputFiles, entry.value);
          if entry.value.Loaded? {
            s := s.(variables := s.variables[outputType := entry.value.variables]);
          }
          s := s.(outputFiles := s.outputFiles + [entry.value]);
        }
      }
      assert types[..|types|] == types;
    }

    /** `get_project_summary()`: the record's fields, the counts and size,
        and the control parameters when the project has a control file that
        can be opened and read. */
    method GetProjectSummary(w: World) returns (s: ProjectSummary)
      ensures s.name == project.name && s.path == project.projectPath && s.description == project.description
      ensures s.fileCounts == FileCounts(project.files) && s.sizeBytes == TotalBytes(project.files)
      ensures s.hasOutputs == w.hasOutputs(project)
      ensures s.controlParams.Some? <==>
                w.getFile(project, Control).Some? && FileText(w.disk, w.getFile(project, Control).value.path).Some?
      ensures s.controlParams.Some? ==>
                s.controlParams.value
                == ControlParams(ReadLines(FileText(w.disk, w.getFile(project, Control).value.path).value))
    {
      var counts := CountFilesByType();
      var size := CalculateProjectSize();
      s := ProjectSummary(project.name, project.projectPath, project.description, counts, w.hasOutputs(project), size, None);
      var controlFile := w.getFile(project, Control);
      if controlFile.Some? {
        var reader := ControlFileReader.Open(w.disk, controlFile.value.path);
        if reader.Success? {
          var params := reader.value.Read(w.disk);
          if params.Success? {
            s := s.(controlParams := Some(params.value));
          }
        }
      }
    }
  }

  // ---------------------------------------------------------------------
  // What the summaries promise

  /** One more kind adds that kind's entry, if any, at the end. */
  lemma EntriesStep(w: World, project: Project, types: seq<(FileKind, string)>, i: nat)
    requires i < |types|
    ensures Entries(w, project, types[..i + 1])
            == Entries(w, project, types[..i]) + EntryList(w, project, types[i].0, types[i].1)
  {
    assert types[..i + 1][..i] == types[..i];
  }

  /** One more entry records its variables when it loaded. */
  lemma VariablesStep(entries: seq<OutputEntry>, e: OutputEntry)
    ensures VariablesOf(entries + [e])
            == if e.Loaded? then VariablesOf(entries)[e.outputType := e.variables] else VariablesOf(entries)
  {
    assert (entries + [e])[..|entries|] == entries;
  }

  /** With distinct tags, a tag is counted exactly when its bucket is
      non-empty, and its count is the bucket's length. */
  lemma {:induction false} FileCountsMeaning(buckets: seq<Bucket>)
    requires DistinctTags(buckets)
    ensures forall i :: 0 <= i < |buckets| ==>
              (buckets[i].tag in FileCounts(buckets) <==> buckets[i].files != [])
    ensures forall i :: 0 <= i < |buckets| && buckets[i].files != [] ==>
              FileCounts(buckets)[buckets[i].tag] == |buckets[i].files|
    ensures forall tag :: tag in FileCounts(buckets) ==> exists i :: 0 <= i < |buckets| && buckets[i].tag == tag
  {
    if buckets != [] {
      var init := buckets[..|buckets| - 1];
      var last := buckets[|buckets| - 1];
      assert DistinctTags(init);
      FileCountsMeaning(init);
      var counts := FileCounts(init);
      assert FileCounts(buckets) == if last.files != [] then counts[last.tag := |last.files|] else counts;
      forall i | 0 <= i < |buckets|
        ensures buckets[i].tag in FileCounts(buckets) <==> buckets[i].files != []
        ensures buckets[i].files != [] ==> FileCounts(buckets)[buckets[i].tag] == |buckets[i].files|
      {
        if i < |init| {
          assert buckets[i] == init[i];
          assert init[i].tag != last.tag;
        }
      }
      FileCountsTags(buckets);
    }
  }

  /** Every counted tag is the tag of some bucket. */
  lemma {:induction false} FileCountsTags(buckets: seq<Bucket>)
    ensures forall tag :: tag in FileCounts(buckets) ==> exists i :: 0 <= i < |buckets| && buckets[i].tag == tag
  {
    if buckets != [] {
      var init := buckets[..|buckets| - 1];
      FileCountsTags(init);
      forall tag | tag in FileCounts(buckets) ensures exists i :: 0 <= i < |buckets| && buckets[i].tag == tag {
        if tag != buckets[|buckets| - 1].tag {
          assert tag in FileCounts(init);
          var i :| 0 <= i < |init| && init[i].tag == tag;
          assert buckets[i] == init[i];
        }
      }
    }
  }

  /** The size is the sum over every file of every bucket. */
  lemma {:induction false} TotalBytesOfAllFiles(buckets: seq<Bucket>)
    ensures TotalBytes(buckets) == SizeSum(AllFiles(buckets))
  {
    if buckets != [] {
      var init := buckets[..|buckets| - 1];
      TotalBytesOfAllFiles(init);
      SizeSumConcat(AllFiles(init), buckets[|buckets| - 1].files);
    }
  }

  lemma {:induction false} SizeSumConcat(a: seq<ProjectFile>, b: seq<ProjectFile>)
    ensures SizeSum(a + b) == SizeSum(a) + SizeSum(b)
    decreases |b|
  {
    if b == [] {
      assert a + b == a;
    } else {
      var b' := b[..|b| - 1];
      assert (a + b)[..|a + b| - 1] == a + b';
      SizeSumConcat(a, b');
    }
  }

  /** A kind's variables are recorded exactly when an entry for it loaded,
      and they are that entry's variables (each kind visited once). */
  lemma {:induction false} VariablesOfLoaded(entries: seq<OutputEntry>, kind: string)
    requires forall i, j :: 0 <= i < j < |entries| ==> entries[i].outputType != entries[j].outputType
    ensures kind in VariablesOf(entries) <==> exists i :: 0 <= i < |entries| && entries[i].Loaded? && entries[i].outputType == kind
    ensures forall i :: 0 <= i < |entries| && entries[i].Loaded? && entries[i].outputType == kind ==>
              VariablesOf(entries)[kind] == entries[i].variables
  {
    if entries != [] {
      var init := entries[..|entries| - 1];
      var last := entries[|entries| - 1];
      VariablesOfLoaded(init, kind);
      if exists i :: 0 <= i < |init| && init[i].Loaded? && init[i].outputType == kind {
        var i :| 0 <= i < |init| && init[i].Loaded? && init[i].outputType == kind;
        assert entries[i] == init[i];
      }
      forall i | 0 <= i < |entries| - 1 ensures entries[i] == init[i] {
      }
    }
  }

  /** The output entries follow the kinds' order, one per kind that has a
      file, and a failed entry carries the kind and path of its file. */
  lemma {:induction false} EntriesFollowKinds(w: World, project: Project, types: seq<(FileKind, string)>)
    ensures |Entries(w, project, types)| <= |types|
    ensures forall e :: e in Entries(w, project, types) ==>
              exists i :: 0 <= i < |types| && e.outputType == types[i].1 &&
                w.getFile(project, types[i].0).Some? && e.path == w.getFile(project, types[i].0).value.path
  {
    if types != [] {
      var init := types[..|types| - 1];
      EntriesFollowKinds(w, project, init);
      forall e | e in Entries(w, project, types)
        ensures exists i :: 0 <= i < |types| && e.outputType == types[i].1 &&
                  w.getFile(project, types[i].0).Some? && e.path == w.getFile(project, types[i].0).value.path
      {
        if e in Entries(w, project, init) {
          var i :| 0 <= i < |init| && e.outputType == init[i].1 &&
                   w.getFile(project, init[i].0).Some? && e.path == w.getFile(project, init[i].0).value.path;
          assert types[i] == init[i];
        }
      }
    }
  }

  /** Every kind that has a file gets its entry, which reports that file. */
  lemma {:induction false} EntriesCoverKinds(w: World, project: Project, types: seq<(FileKind, string)>)
    ensures forall i :: 0 <= i < |types| && w.getFile(project, types[i].0).Some? ==>
              EntryFor(w, project, types[i].0, types[i].1).Some? &&
              EntryFor(w, project, types[i].0, types[i].1).value in Entries(w, project, types)
  {
    if types != [] {
      var init := types[..|types| - 1];
      var last := types[|types| - 1];
      EntriesCoverKinds(w, project, init);
      assert Entries(w, project, types) == Entries(w, project, init) + EntryList(w, project, last.0, last.1);
      forall i | 0 <= i < |types| && w.getFile(project, types[i].0).Some?
        ensures EntryFor(w, project, types[i].0, types[i].1).value in Entries(w, project, types)
      {
        if i < |init| {
          assert types[i] == init[i];
        }
      }
    }
  }

  /** The entries of two lists of kinds, one after the other, are the
      first list's entries followed by the second's: entries keep the
      kinds' order. */
  lemma {:induction false} EntriesConcat(w: World, project: Project, a: seq<(FileKind, string)>, b: seq<(FileKind, string)>)
    ensures Entries(w, project, a + b) == Entries(w, project, a) + Entries(w, project, b)
    decreases |b|
  {
    if b == [] {
      assert a + b == a;
    } else {
      var init := b[..|b| - 1];
      assert (a + b)[..|a + b| - 1] == a + init;
      EntriesConcat(w, project, a, init);
    }
  }

  /** Kinds with distinct names give entries with distinct kinds. */
  lemma {:induction false} EntriesDistinct(w: World, project: Project, types: seq<(FileKind, string)>)
    requires forall i, j :: 0 <= i < j < |types| ==> types[i].1 != types[j].1
    ensures forall i, j :: 0 <= i < j < |Entries(w, project, types)| ==>
              Entries(w, project, types)[i].outputType != Entries(w, project, types)[j].outputType
  {
    if types != [] {
      var init := types[..|types| - 1];
      var last := types[|types| - 1];
      assert forall i :: 0 <= i < |init| ==> init[i] == types[i];
      EntriesDistinct(w, project, init);
      EntriesFollowKinds(w, project, init);
      var a := Entries(w, project, init);
      var b := EntryList(w, project, last.0, last.1);
      var es := Entries(w, project, types);
      assert es == a + b;
      forall i, j | 0 <= i < j < |es| ensures es[i].outputType != es[j].outputType {
        if j < |a| {
          assert es[i] == a[i] && es[j] == a[j];
        }
        if |a| <= j {
          assert es[j] == b[j - |a|] && b[j - |a|] in b;
          assert es[i] == a[i] && a[i] in a;
        }
      }
    }
  }

  /** The output summary has at most one entry per kind, so `variables`
      holds a kind exactly when its file was read, and then holds that
      file's variables. */
  lemma OutputVariablesMeaning(w: World, project: Project, kind: string)
    ensures var entries := Entries(w, project, OutputTypes);
            && (kind in VariablesOf(entries) <==>
                  exists i :: 0 <= i < |entries| && entries[i].Loaded? && entries[i].outputType == kind)
            && forall i :: 0 <= i < |entries| && entries[i].Loaded? && entries[i].outputType == kind ==>
                 VariablesOf(entries)[kind] == entries[i].variables
  {
    assert OutputTypes[0].1[0] == 'r' && OutputTypes[1].1[0] == 's' && OutputTypes[2].1[0] == 'h';
    assert OutputTypes[0].1 != OutputTypes[1].1 && OutputTypes[0].1 != OutputTypes[2].1 && OutputTypes[1].1 != OutputTypes[2].1;
    EntriesDistinct(w, project, OutputTypes);
    VariablesOfLoaded(Entries(w, project, OutputTypes), kind);
  }
}
