/**
 * The file tools of the older `cria` agent: listing one directory, reading a
 * file and writing one.  Reading is the same as in the newer tool set; the
 * listing has no ignore patterns and no recursive mode; writing always asks
 * for the parent directory, even when the path has none.
 */
module CriaTools {
  import opened Text
  import opened Paths
  import opened Sorting
  import opened FileSystem
  import opened ProjectContext
  import opened AppTools

  // ---------------------------------------------------------------------
  // list_files

  /** `iterdir` entries that are files or directories are listed; anything else is skipped. */
  function IsListed(): Listed -> bool {
    (e: Listed) => e.kind != Other
  }

  /** The lines of the listing, in walk order. */
  function EntryLines(items: seq<Listed>): seq<string> {
    Select(items, IsListed(), EntryText)
  }

  function NoFilesText(path: string): string {
    "No files found in '" + path + "'"
  }

  /** `list_files(path)` for what `Path(path).iterdir()` yields. */
  function ListText(fs: Fs, path: string, children: Listing): string {
    if !Exists(fs, path) then "Error: Directory '" + path + "' does not exist"
    else
      match children
      case WalkFailed(e) => "Error listing files: " + e
      case Entries(items) =>
        var lines := EntryLines(items);
        if lines == [] then NoFilesText(path) else Join("\n", Sort(lines))
  }

  method ListFiles(fs: Fs, path: string, children: Listing) returns (r: string)
    ensures r == ListText(fs, path, children)
  {
    if !Exists(fs, path) {
      return "Error: Directory '" + path + "' does not exist";
    }
    if children.WalkFailed? {
      return "Error listing files: " + children.error;
    }
    var files := Collect(children.items, IsListed(), EntryText);
    if files == [] {
      return NoFilesText(path);
    }
    r := Join("\n", Sort(files));
  }

  /** Two filters that agree on every element select the same results. */
  lemma {:induction false} SelectSameKeep<T, U>(s: seq<T>, p: T -> bool, q: T -> bool, f: T -> U)
    requires forall x :: x in s ==> p(x) == q(x)
    ensures Select(s, p, f) == Select(s, q, f)
    decreases |s|
  {
    if s != [] {
      assert s[|s| - 1] in s;
      forall x | x in s[..|s| - 1] ensures p(x) == q(x) {
        assert x in s;
      }
      SelectSameKeep(s[..|s| - 1], p, q, f);
    }
  }

  /** The older listing is the newer non-recursive one with no ignore patterns. */
  lemma ListingWithoutPatterns(fs: Fs, path: string, children: Listing, glob: Glob)
    ensures ListText(fs, path, children) == ListingReport(fs, path, children, [], glob)
  {
    if children.Entries? {
      SelectSameKeep(children.items, IsListed(), ShownBy([], glob), EntryText);
    }
  }

  /** `sep.join(parts)` starts with its first part. */
  lemma {:induction false} JoinStartsWithFirst(sep: string, parts: seq<string>)
    requires parts != []
    ensures StartsWith(Join(sep, parts), parts[0])
  {
  }

  /** A directory that exists and lists no file and no directory says so, and only then. */
  lemma NoFilesIff(fs: Fs, path: string, items: seq<Listed>)
    requires Exists(fs, path)
    ensures ListText(fs, path, Entries(items)) == NoFilesText(path) <==>
      forall e :: e in items ==> e.kind == Other
  {
    var lines := EntryLines(items);
    if e :| e in items && e.kind != Other {
      SelectIff(items, IsListed(), EntryText, EntryText(e));
      var s := Sort(lines);
      assert s[0] in multiset(lines);
      SelectIff(items, IsListed(), EntryText, s[0]);
      var e' :| e' in items && e'.kind != Other && EntryText(e') == s[0];
      assert s[0][0] == '📄' || s[0][0] == '📁';
      JoinStartsWithFirst("\n", s);
      assert Join("\n", s)[0] == s[0][0];
      assert NoFilesText(path)[0] == 'N';
    } else if lines != [] {
      SelectIff(items, IsListed(), EntryText, lines[0]);
    }
  }

  /** Each line names one file or directory the walk yields, and the lines come out sorted. */
  lemma EntryLinesIff(items: seq<Listed>, line: string)
    ensures line in EntryLines(items) <==> exists e :: e in items && e.kind != Other && line == EntryText(e)
    ensures Sorted(Sort(EntryLines(items))) && multiset(Sort(EntryLines(items))) == multiset(EntryLines(items))
  {
    SelectIff(items, IsListed(), EntryText, line);
  }

  // ---------------------------------------------------------------------
  // read_file

  /** `read_file(path)` reads as the newer tool does. */
  method ReadFile(disk: Disk, path: string) returns (r: string)
    ensures r == ReadText(disk.state, path)
    ensures path in disk.state.files ==> r == "Contents of " + path + ":\n" + disk.state.files[path]
    ensures path !in disk.state.files && path !in disk.state.dirs && !UnderFile(disk.state, path) ==> r == NotFoundText(path)
    ensures path !in disk.state.files && path !in disk.state.dirs && UnderFile(disk.state, path)
      ==> r == "Error reading file '" + path + "': " + NotADirectoryError(path)
  {
    var outcome := Open(disk.state, path);
    match outcome
    case Content(text) => r := "Contents of " + path + ":\n" + text;
    case NotFound => r := NotFoundText(path);
    case IsADirectory | NotADirectory => r := "Error reading file '" + path + "': " + OpenError(outcome, path);
  }

  // ---------------------------------------------------------------------
  // write_file

  /** `write_file(path, content)` as written: `os.makedirs(os.path.dirname(path))` comes first, always. */
  function WriteAsWritten(fs: Fs, path: string, content: string): Written {
    CreateAfter(MakeDirs(fs, DirName(path)), fs, path, content)
  }

  method WriteFile(disk: Disk, path: string, content: string) returns (r: string)
    modifies disk
    ensures disk.state == WriteAsWritten(old(disk.state), path, content).fs
    ensures r == WriteAsWritten(old(disk.state), path, content).message
  {
    var prepared := MakeDirs(disk.state, DirName(path));
    var w := CreateAfter(prepared, disk.state, path, content);
    disk.state := w.fs;
    r := w.message;
  }

  /**
   * A path with no directory part is never written: `makedirs("")` fails,
   * so the filesystem is unchanged and the tool reports the error, where the
   * newer tool, which skips `makedirs` for such a path, writes the file.
   */
  lemma BareNameWriteFails(fs: Fs, path: string, content: string)
    requires '/' !in path
    ensures WriteAsWritten(fs, path, content) == Written(fs, WriteErrorText(path, NoSuchFileError("")))
    ensures path != "" && path !in fs.dirs ==>
      WriteOut(fs, path, content) == Written(Fs(fs.files[path := ReadBack(content)], fs.dirs), SuccessText(path))
  {
    if path != "" {
      assert path[|path| - 1] != '/';
    }
  }

  /** Writing "README.md" into an empty working directory: the older tool fails, the newer one succeeds. */
  lemma ReadmeWriteFails()
    ensures WriteAsWritten(Fs(map[], {}), "README.md", "# Notes")
      == Written(Fs(map[], {}), WriteErrorText("README.md", NoSuchFileError("")))
    ensures WriteOut(Fs(map[], {}), "README.md", "# Notes").message == SuccessText("README.md")
  {
    var name := "README.md";
    assert forall k :: 0 <= k < |name| ==> name[k] != '/';
    BareNameWriteFails(Fs(map[], {}), name, "# Notes");
  }

  /** With a directory part the two tools behave the same. */
  lemma NestedWriteAgrees(fs: Fs, path: string, content: string)
    requires DirName(path) != ""
    ensures WriteAsWritten(fs, path, content) == WriteOut(fs, path, content)
  {
  }
}
