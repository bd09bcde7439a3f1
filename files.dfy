/** The filesystem as the core sees it: normalised path strings, a snapshot
    of entries (files with their decoded text, directories with their entry
    names in directory order), and `Path.resolve`, which the operating system
    decides. Nothing here reads a real disk. */
module Files {
  import opened Wrappers
  import opened Text

  /** A normalised path (no trailing separator, no `//`). */
  type Path = string

  /** `p / name` */
  function Join(p: Path, name: string): Path {
    p + "/" + name
  }

  /** Where the last segment of `p` starts: after the last separator. */
  function NameStart(p: Path): (i: nat)
    ensures i <= |p|
    ensures forall k :: i <= k < |p| ==> p[k] != '/'
    ensures i > 0 ==> p[i - 1] == '/'
  {
    if p == [] || p[|p| - 1] == '/' then |p| else NameStart(p[..|p| - 1])
  }

  /** `Path.name`: the text after the last separator. */
  function Name(p: Path): (n: string)
    ensures '/' !in n
    ensures |n| <= |p| && n == p[|p| - |n|..]
  {
    p[NameStart(p)..]
  }

  /** The name of `p / name` is `name` itself. */
  lemma NameOfJoin(p: Path, name: string)
    requires '/' !in name
    ensures Name(Join(p, name)) == name
  {
    var j := Join(p, name);
    var i := NameStart(j);
    assert j[|p|] == '/';
    assert i == |p| + 1;
    assert j[|p| + 1..] == name;
  }

  /** Position of the last `.` in a name, if any. */
  function LastDot(s: string): (r: Option<nat>)
    ensures r.Some? ==> r.value < |s| && s[r.value] == '.'
    ensures r.Some? ==> '.' !in s[r.value + 1..]
    ensures r.None? ==> '.' !in s
  {
    if s == [] then None
    else if s[|s| - 1] == '.' then Some(|s| - 1)
    else
      var r := LastDot(s[..|s| - 1]);
      assert s == s[..|s| - 1] + [s[|s| - 1]];
      if r.Some? then
        assert s[r.value + 1..] == s[..|s| - 1][r.value + 1..] + [s[|s| - 1]];
        r
      else r
  }

  /** `PurePath.stem` of a file name: the name without its last suffix. A
      leading dot (a hidden file) or a trailing dot does not start a suffix. */
  function Stem(name: string): (s: string)
    ensures |s| <= |name| && s == name[..|s|]
    ensures LastDot(name).Some? && 0 < LastDot(name).value < |name| - 1 ==> s == name[..LastDot(name).value]
    ensures !(LastDot(name).Some? && 0 < LastDot(name).value < |name| - 1) ==> s == name
  {
    match LastDot(name)
    case Some(i) => if 0 < i < |name| - 1 then name[..i] else name
    case None => name
  }

  /** `s.split(".")[0]`: the text before the first dot. */
  function BeforeFirstDot(s: string): (r: string)
    ensures |r| <= |s| && r == s[..|r|]
    ensures '.' !in r
    ensures |r| < |s| ==> s[|r|] == '.'
  {
    if s == [] || s[0] == '.' then []
    else
      var r := BeforeFirstDot(s[1..]);
      assert [s[0]] + r == s[..|r| + 1];
      [s[0]] + r
  }

  datatype Entry = File(text: string) | Dir(children: seq<string>)

  /** A snapshot of the filesystem. */
  datatype Disk = Disk(entries: map<Path, Entry>, resolve: Path -> Path)

  /** `Path.exists()` */
  predicate Exists(disk: Disk, p: Path) {
    p in disk.entries
  }

  /** `Path.is_dir()` */
  predicate IsDir(disk: Disk, p: Path) {
    p in disk.entries && disk.entries[p].Dir?
  }

  /** `Path.read_text()`: the text of a regular file; reading a directory or a
      missing path raises. */
  function FileText(disk: Disk, p: Path): (r: Option<string>)
    ensures r.Some? ==> Exists(disk, p) && !IsDir(disk, p)
    ensures r.None? ==> !Exists(disk, p) || IsDir(disk, p)
  {
    if p in disk.entries && disk.entries[p].File? then Some(disk.entries[p].text) else None
  }

  /** Names directly inside a directory, in directory order; none for a
      file or a missing path. */
  function Children(disk: Disk, p: Path): seq<string>
  {
    if IsDir(disk, p) then disk.entries[p].children else []
  }

  /** The names among `names` that end with `suffix`, in their order:
      `dir.glob("*" + suffix)` over the directory's entries. */
  function WithSuffix(names: seq<string>, suffix: string): (r: seq<string>)
    ensures forall n :: n in r <==> n in names && EndsWith(n, suffix)
    ensures forall n :: multiset(r)[n] == if EndsWith(n, suffix) then multiset(names)[n] else 0
  {
    if names == [] then []
    else
      var last := names[|names| - 1];
      var r := WithSuffix(names[..|names| - 1], suffix);
      assert names == names[..|names| - 1] + [last];
      if EndsWith(last, suffix) then r + [last] else r
  }

  /** The names among `names` that start with `prefix`, in their order:
      `dir.glob(prefix + "*")`. */
  function WithPrefix(names: seq<string>, prefix: string): (r: seq<string>)
    ensures forall n :: n in r <==> n in names && StartsWith(n, prefix)
  {
    if names == [] then []
    else
      var last := names[|names| - 1];
      var r := WithPrefix(names[..|names| - 1], prefix);
      assert names == names[..|names| - 1] + [last];
      if StartsWith(last, prefix) then r + [last] else r
  }
}
