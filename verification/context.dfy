/**
 * `ContextManager`: the ignore patterns, the scan of the project tree into a
 * `ProjectStructure`, and the queries the tools run against it.  The tree
 * walk (`Path.rglob("*")`), `fnmatch`, git and the Python analyser are
 * inputs; files are read from a `FileSystem.Fs`.
 */
module ProjectContext {
  import opened Json
  import opened Text
  import opened Paths
  import opened Sorting
  import opened FileSystem
  import opened CodeAnalysis

  /** `fnmatch.fnmatch(name, pattern)`. */
  type Glob = (string, string) -> bool

  // ---------------------------------------------------------------------
  // Ignore patterns

  /** The patterns ignored in every project, before those of `.criaignore`. */
  const BuiltinIgnorePatterns: seq<string> := [
    ".git", "__pycache__", "*.pyc", "*.pyo", "*.pyd",
    "*.egg-info", ".pytest_cache", ".coverage", "node_modules",
    ".venv", "venv", "env", ".env", "*.log", ".DS_Store"
  ]

  /** An ignore-file line that yields a pattern: not blank once stripped, and not a comment. */
  predicate KeepsLine(line: string) {
    var t := Strip(line);
    t != "" && !StartsWith(t, "#")
  }

  /** The patterns an ignore file's lines give, in file order. */
  function PatternLines(lines: seq<string>): seq<string>
    decreases |lines|
  {
    if lines == [] then []
    else
      var last := lines[|lines| - 1];
      PatternLines(lines[..|lines| - 1]) + (if KeepsLine(last) then [Strip(last)] else [])
  }

  /**
   * A pattern is a stripped, non-empty, non-comment line, and every such line
   * gives one.
   */
  lemma {:induction false} PatternLinesAreCleanLines(lines: seq<string>, q: string)
    ensures q in PatternLines(lines) <==> exists l :: l in lines && KeepsLine(l) && Strip(l) == q
    ensures q in PatternLines(lines) ==>
      q != "" && !StartsWith(q, "#") && !IsSpace(q[0]) && !IsSpace(q[|q| - 1])
    decreases |lines|
  {
    if lines != [] {
      var init := lines[..|lines| - 1];
      var last := lines[|lines| - 1];
      assert lines == init + [last];
      PatternLinesAreCleanLines(init, q);
      if KeepsLine(last) && Strip(last) == q {
        StripTrims(last);
      }
      if l :| l in lines && KeepsLine(l) && Strip(l) == q {
        if l != last {
          assert l in init;
        }
      }
    }
  }

  /** The loop of `_load_ignore_patterns` and `get_ignore_patterns`: appends each kept line, stripped. */
  method CollectPatterns(init: seq<string>, lines: seq<string>) returns (patterns: seq<string>)
    ensures patterns == init + PatternLines(lines)
  {
    patterns := init;
    for i := 0 to |lines|
      invariant patterns == init + PatternLines(lines[..i])
    {
      assert lines[..i + 1][..i] == lines[..i];
      var line := Strip(lines[i]);
      if line != "" && !StartsWith(line, "#") {
        patterns := patterns + [line];
      }
    }
    assert lines[..|lines|] == lines;
  }

  /** The patterns of a project whose `.criaignore` holds `ignoreFile` (`None`: no such file). */
  function IgnorePatterns(ignoreFile: Option<string>): seq<string> {
    BuiltinIgnorePatterns + (if ignoreFile.Some? then PatternLines(ReadLines(ignoreFile.value)) else [])
  }

  /** `_should_ignore`: some pattern matches the full path or the last component. */
  predicate ShouldIgnore(patterns: seq<string>, path: string, name: string, glob: Glob)
    decreases |patterns|
  {
    patterns != [] && (glob(path, patterns[0]) || glob(name, patterns[0]) || ShouldIgnore(patterns[1..], path, name, glob))
  }

  /** An item is ignored exactly when one of the patterns matches its path or its name. */
  lemma {:induction false} ShouldIgnoreIff(patterns: seq<string>, path: string, name: string, glob: Glob)
    ensures ShouldIgnore(patterns, path, name, glob) <==>
      exists k :: 0 <= k < |patterns| && (glob(path, patterns[k]) || glob(name, patterns[k]))
    decreases |patterns|
  {
    if patterns != [] {
      ShouldIgnoreIff(patterns[1..], path, name, glob);
      if k :| 0 <= k < |patterns[1..]| && (glob(path, patterns[1..][k]) || glob(name, patterns[1..][k])) {
        assert patterns[k + 1] == patterns[1..][k];
      }
      if k :| 0 <= k < |patterns| && (glob(path, patterns[k]) || glob(name, patterns[k])) {
        if k != 0 {
          assert patterns[1..][k - 1] == patterns[k];
        }
      }
    }
  }

  // ---------------------------------------------------------------------
  // Project structure

  /** One item of the tree walk, relative to the root. */
  datatype Entry = Entry(rel: string, kind: Kind)

  /** What `_get_git_info` found (a subprocess result). */
  datatype GitInfo = GitInfo(isRepo: bool, root: string, branch: string)

  /** `ProjectStructure`; `languageStats` is a dict in insertion order, keys distinct. */
  datatype ProjectStructure = ProjectStructure(
    rootPath: string,
    files: seq<string>,
    directories: seq<string>,
    entryPoints: seq<string>,
    languageStats: seq<(string, nat)>,
    gitInfo: GitInfo)

  /** The file names that make a file an entry point. */
  const EntryPointNames: seq<string> := ["__main__.py", "main.py", "app.py", "index.py", "pyproject.toml", "setup.py"]

  predicate IsEntryPoint(rel: string) {
    BaseName(rel) in EntryPointNames
  }

  /** `item.suffix.lower()` */
  function Extension(rel: string): string {
    Lower(Suffix(rel))
  }

  /** `stats.get(ext, 0)` */
  function CountOf(stats: seq<(string, nat)>, ext: string): nat
    decreases |stats|
  {
    if stats == [] then 0 else if stats[0].0 == ext then stats[0].1 else CountOf(stats[1..], ext)
  }

  predicate DistinctKeys(stats: seq<(string, nat)>) {
    forall i, j :: 0 <= i < j < |stats| ==> stats[i].0 != stats[j].0
  }

  /** The sum of the counts. */
  function Total(stats: seq<(string, nat)>): nat
    decreases |stats|
  {
    if stats == [] then 0 else stats[0].1 + Total(stats[1..])
  }

  /** `stats[ext] = stats.get(ext, 0) + 1`: bumps the key in place or appends it. */
  function Bump(stats: seq<(string, nat)>, ext: string): seq<(string, nat)>
    decreases |stats|
  {
    if stats == [] then [(ext, 1)]
    else if stats[0].0 == ext then [(ext, stats[0].1 + 1)] + stats[1..]
    else [stats[0]] + Bump(stats[1..], ext)
  }

  /** Bumping adds one to the key's count and to the total, and leaves every other count alone. */
  lemma {:induction false} BumpCounts(stats: seq<(string, nat)>, ext: string, key: string)
    ensures Total(Bump(stats, ext)) == Total(stats) + 1
    ensures CountOf(Bump(stats, ext), key) == CountOf(stats, key) + (if key == ext then 1 else 0)
    decreases |stats|
  {
    if stats != [] && stats[0].0 != ext {
      BumpCounts(stats[1..], ext, key);
      assert Bump(stats, ext)[1..] == Bump(stats[1..], ext);
    }
    else if stats != [] {
      assert Bump(stats, ext)[1..] == stats[1..];
    }
  }

  /** Bumping adds no key other than the extension. */
  lemma {:induction false} BumpKeys(stats: seq<(string, nat)>, ext: string)
    ensures forall p :: p in Bump(stats, ext) ==> p.0 == ext || exists q :: q in stats && q.0 == p.0
    decreases |stats|
  {
    if stats != [] && stats[0].0 != ext {
      BumpKeys(stats[1..], ext);
      assert Bump(stats, ext) == [stats[0]] + Bump(stats[1..], ext);
      assert forall p :: p in stats[1..] ==> p in stats;
    } else if stats != [] {
      assert forall p :: p in stats[1..] ==> p in stats;
    }
  }

  lemma DistinctKeysTail(stats: seq<(string, nat)>)
    requires stats != [] && DistinctKeys(stats)
    ensures DistinctKeys(stats[1..])
  {
    forall i, j | 0 <= i < j < |stats[1..]| ensures stats[1..][i].0 != stats[1..][j].0 {
      assert stats[1..][i] == stats[i + 1] && stats[1..][j] == stats[j + 1];
    }
  }

  lemma DistinctKeysCons(head: (string, nat), rest: seq<(string, nat)>)
    requires DistinctKeys(rest)
    requires forall p :: p in rest ==> p.0 != head.0
    ensures DistinctKeys([head] + rest)
  {
    var b := [head] + rest;
    forall i, j | 0 <= i < j < |b| ensures b[i].0 != b[j].0 {
      assert b[j] == rest[j - 1];
      if i == 0 {
        assert rest[j - 1] in rest;
      } else {
        assert b[i] == rest[i - 1];
      }
    }
  }

  /** Bumping keeps the keys distinct. */
  lemma {:induction false} BumpKeepsKeysDistinct(stats: seq<(string, nat)>, ext: string)
    requires DistinctKeys(stats)
    ensures DistinctKeys(Bump(stats, ext))
    decreases |stats|
  {
    if stats != [] && stats[0].0 != ext {
      var rest := Bump(stats[1..], ext);
      DistinctKeysTail(stats);
      BumpKeepsKeysDistinct(stats[1..], ext);
      BumpKeys(stats[1..], ext);
      forall p | p in rest ensures p.0 != stats[0].0 {
        if p.0 != ext {
          var q :| q in stats[1..] && q.0 == p.0;
          var k :| 0 <= k < |stats[1..]| && stats[1..][k] == q;
          assert stats[k + 1] == q;
        }
      }
      DistinctKeysCons(stats[0], rest);
    } else if stats != [] {
      var b := Bump(stats, ext);
      forall i, j | 0 <= i < j < |b| ensures b[i].0 != b[j].0 {
        assert b[j] == stats[j];
        if i > 0 {
          assert b[i] == stats[i];
        }
      }
    }
  }

  /** What the scan has gathered so far, before sorting. */
  datatype Tally = Tally(files: seq<string>, dirs: seq<string>, entryPoints: seq<string>, stats: seq<(string, nat)>)

  /** `_should_ignore(item)`: the full path and the name of a walked item against the patterns. */
  predicate Ignored(root: string, patterns: seq<string>, glob: Glob, e: Entry) {
    ShouldIgnore(patterns, JoinPath(root, e.rel), BaseName(e.rel), glob)
  }

  /** The effect of one walked item on the tally. */
  function Record(t: Tally, root: string, patterns: seq<string>, glob: Glob, e: Entry): Tally {
    if Ignored(root, patterns, glob, e) then t
    else if e.kind == File then
      Tally(t.files + [e.rel], t.dirs, t.entryPoints + (if IsEntryPoint(e.rel) then [e.rel] else []),
            Bump(t.stats, Extension(e.rel)))
    else if e.kind == Dir then t.(dirs := t.dirs + [e.rel])
    else t
  }

  /** The tally after walking `items` in order. */
  function Walk(root: string, patterns: seq<string>, items: seq<Entry>, glob: Glob): Tally
    decreases |items|
  {
    if items == [] then Tally([], [], [], [])
    else Record(Walk(root, patterns, items[..|items| - 1], glob), root, patterns, glob, items[|items| - 1])
  }

  /** `_build_project_structure`'s result: files and directories sorted, the rest in walk order. */
  function Scan(root: string, patterns: seq<string>, items: seq<Entry>, git: GitInfo, glob: Glob): ProjectStructure {
    var t := Walk(root, patterns, items, glob);
    ProjectStructure(root, Sort(t.files), Sort(t.dirs), t.entryPoints, t.stats, git)
  }

  /** The relative paths of the walked items of kind `kind` that no pattern ignores, in walk order. */
  function Kept(root: string, patterns: seq<string>, items: seq<Entry>, glob: Glob, kind: Kind): seq<string>
    decreases |items|
  {
    if items == [] then []
    else
      var e := items[|items| - 1];
      Kept(root, patterns, items[..|items| - 1], glob, kind) + (if e.kind == kind && !Ignored(root, patterns, glob, e) then [e.rel] else [])
  }

  /** The last item's contribution to `Kept`. */
  lemma KeptSnoc(root: string, patterns: seq<string>, items: seq<Entry>, glob: Glob, kind: Kind)
    requires items != []
    ensures Kept(root, patterns, items, glob, kind) == Kept(root, patterns, items[..|items| - 1], glob, kind)
      + (if items[|items| - 1].kind == kind && !Ignored(root, patterns, glob, items[|items| - 1]) then [items[|items| - 1].rel] else [])
  {
  }

  lemma {:induction false} KeptSound(root: string, patterns: seq<string>, items: seq<Entry>, glob: Glob, kind: Kind, rel: string)
    requires rel in Kept(root, patterns, items, glob, kind)
    ensures exists e :: e in items && e.rel == rel && e.kind == kind && !Ignored(root, patterns, glob, e)
    decreases |items|
  {
    var init := items[..|items| - 1];
    var last := items[|items| - 1];
    KeptSnoc(root, patterns, items, glob, kind);
    if rel in Kept(root, patterns, init, glob, kind) {
      KeptSound(root, patterns, init, glob, kind, rel);
      var e :| e in init && e.rel == rel && e.kind == kind && !Ignored(root, patterns, glob, e);
      assert e in items;
    } else {
      assert last in items;
    }
  }

  lemma {:induction false} KeptComplete(root: string, patterns: seq<string>, items: seq<Entry>, glob: Glob, kind: Kind, i: nat)
    requires i < |items| && items[i].kind == kind && !Ignored(root, patterns, glob, items[i])
    ensures items[i].rel in Kept(root, patterns, items, glob, kind)
    decreases |items|
  {
    var init := items[..|items| - 1];
    KeptSnoc(root, patterns, items, glob, kind);
    if i < |items| - 1 {
      assert init[i] == items[i];
      KeptComplete(root, patterns, init, glob, kind, i);
    }
  }

  /** A kept path is the path of an unignored walked item of that kind, and every such item's path is kept. */
  lemma KeptIff(root: string, patterns: seq<string>, items: seq<Entry>, glob: Glob, kind: Kind, rel: string)
    ensures rel in Kept(root, patterns, items, glob, kind) <==>
      exists e :: e in items && e.rel == rel && e.kind == kind && !Ignored(root, patterns, glob, e)
  {
    if rel in Kept(root, patterns, items, glob, kind) {
      KeptSound(root, patterns, items, glob, kind, rel);
    }
    if e :| e in items && e.rel == rel && e.kind == kind && !Ignored(root, patterns, glob, e) {
      var i :| 0 <= i < |items| && items[i] == e;
      KeptComplete(root, patterns, items, glob, kind, i);
    }
  }

  /** One more walked item is one more `Record`. */
  lemma WalkSnoc(root: string, patterns: seq<string>, items: seq<Entry>, glob: Glob, i: nat)
    requires i < |items|
    ensures Walk(root, patterns, items[..i + 1], glob) == Record(Walk(root, patterns, items[..i], glob), root, patterns, glob, items[i])
  {
    assert items[..i + 1][..i] == items[..i];
  }

  /** The walk's files and directories are the kept items. */
  lemma {:induction false} WalkKeeps(root: string, patterns: seq<string>, items: seq<Entry>, glob: Glob)
    ensures Walk(root, patterns, items, glob).files == Kept(root, patterns, items, glob, File)
    ensures Walk(root, patterns, items, glob).dirs == Kept(root, patterns, items, glob, Dir)
    decreases |items|
  {
    if items != [] {
      WalkKeeps(root, patterns, items[..|items| - 1], glob);
    }
  }

  /** The walk's entry points are the entry-point files among its files, in order. */
  lemma {:induction false} WalkEntryPoints(root: string, patterns: seq<string>, items: seq<Entry>, glob: Glob)
    ensures var t := Walk(root, patterns, items, glob); t.entryPoints == Filter(t.files, IsEntryPoint)
    decreases |items|
  {
    if items != [] {
      var init := items[..|items| - 1];
      var e := items[|items| - 1];
      WalkEntryPoints(root, patterns, init, glob);
      var t0 := Walk(root, patterns, init, glob);
      var t := Record(t0, root, patterns, glob, e);
      assert Walk(root, patterns, items, glob) == t;
      if !Ignored(root, patterns, glob, e) && e.kind == File {
        FilterSnoc(t0.files, e.rel, IsEntryPoint);
        assert t.files == t0.files + [e.rel];
        assert t.entryPoints == t0.entryPoints + (if IsEntryPoint(e.rel) then [e.rel] else []);
      } else {
        assert t.files == t0.files && t.entryPoints == t0.entryPoints;
      }
    }
  }

  /** Files of one extension, counted. */
  function CountExtension(files: seq<string>, ext: string): nat {
    Count(files, (f: string) => Extension(f) == ext)
  }

  /** The walk's counts: distinct keys, one count per file in total, and per extension. */
  lemma {:induction false} WalkStats(root: string, patterns: seq<string>, items: seq<Entry>, glob: Glob)
    ensures var t := Walk(root, patterns, items, glob);
      && DistinctKeys(t.stats)
      && Total(t.stats) == |t.files|
      && (forall key :: CountOf(t.stats, key) == CountExtension(t.files, key))
    decreases |items|
  {
    if items != [] {
      var init := items[..|items| - 1];
      var e := items[|items| - 1];
      WalkStats(root, patterns, init, glob);
      var t0 := Walk(root, patterns, init, glob);
      if !Ignored(root, patterns, glob, e) && e.kind == File {
        BumpKeepsKeysDistinct(t0.stats, Extension(e.rel));
        BumpCounts(t0.stats, Extension(e.rel), "");
        forall key ensures CountOf(Bump(t0.stats, Extension(e.rel)), key) == CountExtension(t0.files + [e.rel], key) {
          BumpCounts(t0.stats, Extension(e.rel), key);
          FilterSnoc(t0.files, e.rel, (f: string) => Extension(f) == key);
        }
      }
    }
  }

  /**
   * The scan's promises: files and directories are sorted permutations of the
   * kept items, entry points are the kept files with an entry-point name in
   * walk order, and the language counts add up to the number of files.
   */
  lemma ScanFacts(root: string, patterns: seq<string>, items: seq<Entry>, git: GitInfo, glob: Glob)
    ensures var ps := Scan(root, patterns, items, git, glob);
      && Sorted(ps.files) && multiset(ps.files) == multiset(Kept(root, patterns, items, glob, File))
      && Sorted(ps.directories) && multiset(ps.directories) == multiset(Kept(root, patterns, items, glob, Dir))
      && ps.entryPoints == Filter(Kept(root, patterns, items, glob, File), IsEntryPoint)
      && SubsequenceOf(ps.entryPoints, Kept(root, patterns, items, glob, File))
      && DistinctKeys(ps.languageStats)
      && Total(ps.languageStats) == |ps.files|
  {
    WalkKeeps(root, patterns, items, glob);
    WalkEntryPoints(root, patterns, items, glob);
    WalkStats(root, patterns, items, glob);
    FilterIsSubsequence(Kept(root, patterns, items, glob, File), IsEntryPoint);
  }

  /** Each extension's count is the number of kept files with that lower-cased suffix. */
  lemma ScanCountsExtensions(root: string, patterns: seq<string>, items: seq<Entry>, git: GitInfo, glob: Glob, ext: string)
    ensures var ps := Scan(root, patterns, items, git, glob);
      CountOf(ps.languageStats, ext) == CountExtension(Kept(root, patterns, items, glob, File), ext)
  {
    WalkKeeps(root, patterns, items, glob);
    WalkEntryPoints(root, patterns, items, glob);
    WalkStats(root, patterns, items, glob);
  }

  class ContextManager {
    var rootPath: string
    var ignorePatterns: seq<string>
    var structure: Option<ProjectStructure>

    /** `ContextManager(root)`: loads the ignore patterns, then scans the tree. */
    constructor(root: string, ignoreFile: Option<string>, items: seq<Entry>, git: GitInfo, glob: Glob)
      ensures rootPath == root && ignorePatterns == IgnorePatterns(ignoreFile)
      ensures structure == Some(Scan(root, IgnorePatterns(ignoreFile), items, git, glob))
    {
      rootPath := root;
      var lines := if ignoreFile.Some? then ReadLines(ignoreFile.value) else [];
      var patterns := CollectPatterns(BuiltinIgnorePatterns, lines);
      ignorePatterns := patterns;
      structure := None;
      new;
      BuildProjectStructure(items, git, glob);
    }

    /** `_build_project_structure`: one pass over the walk, then sorting. */
    method BuildProjectStructure(items: seq<Entry>, git: GitInfo, glob: Glob)
      modifies this
      ensures rootPath == old(rootPath) && ignorePatterns == old(ignorePatterns)
      ensures structure == Some(Scan(rootPath, ignorePatterns, items, git, glob))
    {
      var t := WalkItems(rootPath, ignorePatterns, items, glob);
      structure := Some(ProjectStructure(rootPath, Sort(t.files), Sort(t.dirs), t.entryPoints, t.stats, git));
    }

    /** The pass over the walk, item by item. */
    static method WalkItems(root: string, patterns: seq<string>, items: seq<Entry>, glob: Glob) returns (t: Tally)
      ensures t == Walk(root, patterns, items, glob)
    {
      t := Tally([], [], [], []);
      for i := 0 to |items|
        invariant Walk(root, patterns, items[..i], glob) == t
      {
        WalkSnoc(root, patterns, items, glob, i);
        t := Visit(t, root, patterns, glob, items[i]);
      }
      assert items[..|items|] == items;
    }

    /** One step of the walk: an ignored item is skipped, a file or a directory is recorded. */
    static method Visit(t: Tally, root: string, patterns: seq<string>, glob: Glob, item: Entry) returns (t': Tally)
      ensures t' == Record(t, root, patterns, glob, item)
    {
      t' := t;
      if Ignored(root, patterns, glob, item) {
        return;
      }
      if item.kind == File {
        t' := t'.(files := t'.files + [item.rel], stats := Bump(t'.stats, Extension(item.rel)));
        if IsEntryPoint(item.rel) {
          t' := t'.(entryPoints := t'.entryPoints + [item.rel]);
        }
      } else if item.kind == Dir {
        t' := t'.(dirs := t'.dirs + [item.rel]);
      }
    }

    /** `find_files_by_pattern` */
    method FindFilesByPattern(pattern: string, fileType: Option<string>, glob: Glob) returns (matches: seq<string>)
      requires structure.Some?
      ensures matches == PatternMatches(structure.value.files, pattern, fileType, glob)
    {
      var files := structure.value.files;
      matches := [];
      for i := 0 to |files|
        invariant matches == PatternMatches(files[..i], pattern, fileType, glob)
      {
        assert files[..i + 1] == files[..i] + [files[i]];
        FilterSnoc(files[..i], files[i], (f: string) => glob(f, pattern) && (fileType.None? || EndsWith(f, "." + fileType.value)));
        if glob(files[i], pattern) {
          if fileType.None? || EndsWith(files[i], "." + fileType.value) {
            matches := matches + [files[i]];
          }
        }
      }
      assert files[..|files|] == files;
    }

    /** `find_files_by_content`; an empty type list means the default one. */
    method FindFilesByContent(fs: Fs, term: string, fileTypes: seq<string>) returns (hits: seq<Hit>)
      requires structure.Some?
      ensures hits == ContentHits(fs, rootPath, structure.value.files, term, if fileTypes == [] then DefaultContentTypes else fileTypes)
    {
      var types := if fileTypes == [] then DefaultContentTypes else fileTypes;
      var files := structure.value.files;
      hits := [];
      for i := 0 to |files|
        invariant hits == ContentHits(fs, rootPath, files[..i], term, types)
      {
        assert files[..i + 1][..i] == files[..i];
        var path := files[i];
        if !HasAnySuffix(path, types) {
          continue;
        }
        var read := Open(fs, JoinPath(rootPath, path));
        if !read.Content? {
          continue;
        }
        var lines := ReadLines(read.text);
        var found := ScanLines(path, lines, term);
        hits := hits + found;
      }
      assert files[..|files|] == files;
    }

    /** `get_file_dependencies`; `list(set(...))` is modelled by the set itself. */
    method GetFileDependencies(filePath: string, analyze: Analyzer, glob: Glob) returns (deps: set<string>)
      requires structure.Some?
      ensures deps == Dependencies(analyze(filePath), structure.value.files, glob)
    {
      var analysis := analyze(filePath);
      if analysis.AnalysisError? {
        return {};
      }
      var imports := analysis.record.imports;
      var found: seq<string> := [];
      for i := 0 to |imports|
        invariant found == ImportTargets(imports[..i], structure.value.files, glob)
      {
        assert imports[..i + 1][..i] == imports[..i];
        var targets := TargetsOf(imports[i], glob);
        found := found + targets;
      }
      assert imports[..|imports|] == imports;
      deps := set d | d in found;
    }

    /** One pass of the loop over the imports: the first candidate present, or the files matching the name. */
    method TargetsOf(name: string, glob: Glob) returns (targets: seq<string>)
      requires structure.Some?
      ensures targets == ImportTarget(name, structure.value.files, glob)
    {
      if '.' in name {
        var target := DottedTarget(name, structure.value.files);
        targets := if target.Some? then [target.value] else [];
      } else {
        targets := FindFilesByPattern("**/" + name + ".py", None, glob);
      }
    }

    /** `get_context_around_line` */
    method GetContextAroundLine(fs: Fs, filePath: string, lineNum: int, contextLines: int) returns (r: string)
      ensures r == ContextAround(fs, rootPath, filePath, lineNum, contextLines)
    {
      var full := Resolve(rootPath, filePath);
      if !Exists(fs, full) {
        return "File " + filePath + " not found";
      }
      var outcome := Open(fs, full);
      match outcome
      case Content(text) =>
        var lines := ReadLines(text);
        var context := WindowLines(lines, lineNum, contextLines);
        r := "Context around line " + IntToString(lineNum) + " in " + filePath + ":\n" + Join("\n", context);
      case NotFound | IsADirectory | NotADirectory =>
        r := "Error reading context from " + filePath + ": " + OpenError(outcome, full);
    }
  }

  // ---------------------------------------------------------------------
  // Queries

  /** The files `find_files_by_pattern` keeps, in project order. */
  function PatternMatches(files: seq<string>, pattern: string, fileType: Option<string>, glob: Glob): seq<string> {
    Filter(files, (f: string) => glob(f, pattern) && (fileType.None? || EndsWith(f, "." + fileType.value)))
  }

  /**
   * The matches are an order-preserving selection of the project files, and a
   * file is among them exactly when it matches the pattern and, given a type,
   * ends with "." and that type.
   */
  lemma PatternMatchesSelect(files: seq<string>, pattern: string, fileType: Option<string>, glob: Glob, f: string)
    ensures SubsequenceOf(PatternMatches(files, pattern, fileType, glob), files)
    ensures f in PatternMatches(files, pattern, fileType, glob) <==>
      f in files && glob(f, pattern) && (fileType.None? || EndsWith(f, "." + fileType.value))
  {
    var p := (x: string) => glob(x, pattern) && (fileType.None? || EndsWith(x, "." + fileType.value));
    FilterIsSubsequence(files, p);
    if f in files && p(f) {
      FilterKeeps(files, p, f);
    }
  }

  /** One result of `find_files_by_content`: file, 1-based line number, stripped line. */
  datatype Hit = Hit(file: string, line: nat, text: string)

  /** The suffixes searched when none are given. */
  const DefaultContentTypes: seq<string> := [".py", ".js", ".ts", ".md", ".txt"]

  /** `any(path.endswith(t) for t in types)` */
  predicate HasAnySuffix(path: string, types: seq<string>) {
    exists k :: 0 <= k < |types| && EndsWith(path, types[k])
  }

  /** A case-insensitive substring test (`term.lower() in line.lower()`). */
  predicate MentionsTerm(line: string, term: string) {
    Contains(Lower(line), Lower(term))
  }

  /** The hits of one file's lines, in line order. */
  function LineHits(file: string, lines: seq<string>, term: string): seq<Hit>
    decreases |lines|
  {
    if lines == [] then []
    else
      var n := |lines|;
      LineHits(file, lines[..n - 1], term)
        + (if MentionsTerm(lines[n - 1], term) then [Hit(file, n, Strip(lines[n - 1]))] else [])
  }

  /** The hits of the project files with a listed suffix, file by file; unreadable files give none. */
  function ContentHits(fs: Fs, root: string, files: seq<string>, term: string, types: seq<string>): seq<Hit>
    decreases |files|
  {
    if files == [] then []
    else
      var f := files[|files| - 1];
      ContentHits(fs, root, files[..|files| - 1], term, types)
        + (if HasAnySuffix(f, types) && Open(fs, JoinPath(root, f)).Content?
           then LineHits(f, ReadLines(Open(fs, JoinPath(root, f)).text), term) else [])
  }

  /** The inner loop of `find_files_by_content` over one file's lines. */
  method ScanLines(file: string, lines: seq<string>, term: string) returns (hits: seq<Hit>)
    ensures hits == LineHits(file, lines, term)
  {
    hits := [];
    var needle := Lower(term);
    for i := 0 to |lines|
      invariant hits == LineHits(file, lines[..i], term)
    {
      assert lines[..i + 1][..i] == lines[..i];
      if Contains(Lower(lines[i]), needle) {
        hits := hits + [Hit(file, i + 1, Strip(lines[i]))];
      }
    }
    assert lines[..|lines|] == lines;
  }

  /** A hit names the file, a line that mentions the term by its 1-based number, and that line stripped. */
  lemma {:induction false} LineHitsSound(file: string, lines: seq<string>, term: string)
    ensures forall h :: h in LineHits(file, lines, term) ==>
      h.file == file && 1 <= h.line <= |lines| && MentionsTerm(lines[h.line - 1], term) && h.text == Strip(lines[h.line - 1])
    decreases |lines|
  {
    if lines != [] {
      var init := lines[..|lines| - 1];
      LineHitsSound(file, init, term);
      assert forall k :: 0 <= k < |init| ==> init[k] == lines[k];
    }
  }

  /** Every line that mentions the term is reported. */
  lemma {:induction false} LineHitsComplete(file: string, lines: seq<string>, term: string)
    ensures forall k :: 0 <= k < |lines| && MentionsTerm(lines[k], term) ==>
      Hit(file, k + 1, Strip(lines[k])) in LineHits(file, lines, term)
    decreases |lines|
  {
    if lines != [] {
      var init := lines[..|lines| - 1];
      LineHitsComplete(file, init, term);
      assert forall k :: 0 <= k < |init| ==> init[k] == lines[k];
    }
  }

  /** The hits come in increasing line order. */
  lemma {:induction false} LineHitsOrdered(file: string, lines: seq<string>, term: string)
    ensures forall a, b :: 0 <= a < b < |LineHits(file, lines, term)| ==>
      LineHits(file, lines, term)[a].line < LineHits(file, lines, term)[b].line
    decreases |lines|
  {
    if lines != [] {
      var init := lines[..|lines| - 1];
      LineHitsOrdered(file, init, term);
      LineHitsSound(file, init, term);
      var hs := LineHits(file, init, term);
      assert forall a :: 0 <= a < |hs| ==> hs[a] in hs;
    }
  }

  /**
   * A line is reported exactly when it mentions the term, with its 1-based
   * number and stripped text, and the hits come in increasing line order.
   */
  lemma LineHitsExact(file: string, lines: seq<string>, term: string)
    ensures forall h :: h in LineHits(file, lines, term) ==>
      h.file == file && 1 <= h.line <= |lines| && MentionsTerm(lines[h.line - 1], term) && h.text == Strip(lines[h.line - 1])
    ensures forall k :: 0 <= k < |lines| && MentionsTerm(lines[k], term) ==>
      Hit(file, k + 1, Strip(lines[k])) in LineHits(file, lines, term)
    ensures forall a, b :: 0 <= a < b < |LineHits(file, lines, term)| ==>
      LineHits(file, lines, term)[a].line < LineHits(file, lines, term)[b].line
  {
    LineHitsSound(file, lines, term);
    LineHitsComplete(file, lines, term);
    LineHitsOrdered(file, lines, term);
  }

  /** A reported file is a project file with one of the searched suffixes. */
  lemma {:induction false} ContentHitsFromListedFiles(fs: Fs, root: string, files: seq<string>, term: string, types: seq<string>)
    ensures forall h :: h in ContentHits(fs, root, files, term, types) ==> h.file in files && HasAnySuffix(h.file, types)
    decreases |files|
  {
    if files != [] {
      var init := files[..|files| - 1];
      var f := files[|files| - 1];
      ContentHitsFromListedFiles(fs, root, init, term, types);
      if HasAnySuffix(f, types) && Open(fs, JoinPath(root, f)).Content? {
        LineHitsExact(f, ReadLines(Open(fs, JoinPath(root, f)).text), term);
      }
      assert forall x :: x in init ==> x in files;
    }
  }

  /** `'/'.join(parts) + ".py"` for the parts of a dotted import name: the module's own file. */
  function ModulePath(name: string): string {
    Join("/", Split(name, '.')) + ".py"
  }

  /** `'/'.join(parts[:-1]) + "/__init__.py"`: the package file of the name's parent. */
  function PackagePath(name: string): string {
    var parts := Split(name, '.');
    Join("/", parts[..|parts| - 1]) + "/__init__.py"
  }

  /** The file a dotted import resolves to: the module file if present, else the package file, else none. */
  function DottedTarget(name: string, files: seq<string>): (r: Option<string>)
    ensures ModulePath(name) in files ==> r == Some(ModulePath(name))
    ensures ModulePath(name) !in files && PackagePath(name) in files ==> r == Some(PackagePath(name))
    ensures r.None? <==> ModulePath(name) !in files && PackagePath(name) !in files
    ensures r.Some? ==> r.value in files
  {
    if ModulePath(name) in files then Some(ModulePath(name))
    else if PackagePath(name) in files then Some(PackagePath(name))
    else None
  }

  /** A name without '.' splits into itself alone. */
  lemma SplitWhole(a: string)
    requires '.' !in a
    ensures Split(a, '.') == [a]
  {
    assert forall j :: 0 <= j < |a| ==> a[j] in a;
  }

  /** Splitting at the first '.' gives the part before it, then the rest split. */
  lemma SplitFirst(a: string, rest: string)
    requires '.' !in a
    ensures Split(a + "." + rest, '.') == [a] + Split(rest, '.')
  {
    var s := a + "." + rest;
    var k := IndexOf(s, '.');
    assert forall j :: 0 <= j < |a| ==> s[j] == a[j] && a[j] in a;
    assert s[|a|] == '.';
    assert k == |a|;
    assert s[..k] == a;
    assert s[k + 1..] == rest;
  }

  /** A name with two dots, and none inside its parts, splits into its three parts. */
  lemma SplitThree(a: string, b: string, c: string)
    requires '.' !in a && '.' !in b && '.' !in c
    ensures Split(a + "." + b + "." + c, '.') == [a, b, c]
  {
    SplitWhole(c);
    SplitFirst(b, c);
    assert a + "." + b + "." + c == a + "." + (b + "." + c);
    SplitFirst(a, b + "." + c);
  }

  /**
   * For `import a.b.c`, with a, b and c free of '.', the candidates are
   * "a/b/c.py", then "a/b/__init__.py".
   */
  lemma DottedCandidates(a: string, b: string, c: string)
    requires '.' !in a && '.' !in b && '.' !in c
    ensures ModulePath(a + "." + b + "." + c) == a + "/" + b + "/" + c + ".py"
    ensures PackagePath(a + "." + b + "." + c) == a + "/" + b + "/__init__.py"
  {
    SplitThree(a, b, c);
    var parts := Split(a + "." + b + "." + c, '.');
    assert Join("/", [c]) == c;
    assert Join("/", [b, c]) == b + "/" + c;
    assert Join("/", parts) == a + "/" + (b + "/" + c);
    assert parts[..|parts| - 1] == [a, b];
    assert Join("/", [b]) == b;
    assert Join("/", [a, b]) == a + "/" + b;
  }

  /** The list `get_file_dependencies` builds before removing duplicates. */
  function ImportTargets(imports: seq<string>, files: seq<string>, glob: Glob): seq<string>
    decreases |imports|
  {
    if imports == [] then []
    else
      ImportTargets(imports[..|imports| - 1], files, glob) + ImportTarget(imports[|imports| - 1], files, glob)
  }

  /** What one import adds: its dotted target, if any, or every project file named after it. */
  function ImportTarget(name: string, files: seq<string>, glob: Glob): seq<string> {
    if '.' in name then (var t := DottedTarget(name, files); if t.Some? then [t.value] else [])
    else PatternMatches(files, "**/" + name + ".py", None, glob)
  }

  /** `get_file_dependencies`: nothing for an unanalysable file. */
  function Dependencies(analysis: AnalysisResult, files: seq<string>, glob: Glob): set<string> {
    if analysis.AnalysisError? then {}
    else set d | d in ImportTargets(analysis.record.imports, files, glob)
  }

  /** Each dotted import contributes at most one path, and every dependency is a project file. */
  lemma {:induction false} DependenciesAreProjectFiles(imports: seq<string>, files: seq<string>, glob: Glob)
    ensures forall d :: d in ImportTargets(imports, files, glob) ==> d in files
    ensures forall d :: d in Dependencies(AnalysisError(""), files, glob) ==> false
    decreases |imports|
  {
    if imports != [] {
      var name := imports[|imports| - 1];
      DependenciesAreProjectFiles(imports[..|imports| - 1], files, glob);
      if '.' !in name {
        forall d | d in PatternMatches(files, "**/" + name + ".py", None, glob) ensures d in files {
          PatternMatchesSelect(files, "**/" + name + ".py", None, glob, d);
        }
      }
    }
  }

  /** The first line index shown: `max(0, n - k - 1)`. */
  function WindowStart(n: int, k: int): nat {
    if n - k - 1 > 0 then n - k - 1 else 0
  }

  /** One past the last line index shown: `min(count, n + k)`. */
  function WindowEnd(n: int, k: int, count: nat): int {
    if count < n + k then count else n + k
  }

  /** The line for index `i`: a ">>> " marker on line `n`, the 1-based number right-aligned in 4. */
  function ContextLine(lines: seq<string>, n: int, i: nat): string
    requires i < |lines|
  {
    (if i == n - 1 then ">>> " else "    ") + PadLeft(NatToString(i + 1), 4) + ": " + RStrip(lines[i])
  }

  /** The marker starts exactly the line of the requested number. */
  lemma ContextLineMarked(lines: seq<string>, n: int, i: nat)
    requires i < |lines|
    ensures StartsWith(ContextLine(lines, n, i), ">>> ") <==> i == n - 1
  {
    var head: string := if i == n - 1 then ">>> " else "    ";
    var rest := PadLeft(NatToString(i + 1), 4) + ": " + RStrip(lines[i]);
    assert ContextLine(lines, n, i) == head + rest;
    assert (head + rest)[..4] == head;
    assert ">>> "[0] != "    "[0];
  }

  /** The lines of the window `[start, end)`. */
  function WindowLines(lines: seq<string>, n: int, k: int): (r: seq<string>)
    ensures var start := WindowStart(n, k); var end := WindowEnd(n, k, |lines|);
      |r| == (if end > start then end - start else 0)
  {
    var start := WindowStart(n, k);
    var end := WindowEnd(n, k, |lines|);
    seq(if end > start then end - start else 0, j requires 0 <= j < (if end > start then end - start else 0) =>
      ContextLine(lines, n, start + j))
  }

  /**
   * The window holds at most 2k+1 lines, the marker is on exactly the line
   * numbered `n`, and that line is inside the window when it exists.
   */
  lemma WindowFacts(lines: seq<string>, n: int, k: int)
    ensures k >= 0 ==> |WindowLines(lines, n, k)| <= 2 * k + 1
    ensures forall j :: 0 <= j < |WindowLines(lines, n, k)| ==>
      (StartsWith(WindowLines(lines, n, k)[j], ">>> ") <==> WindowStart(n, k) + j == n - 1)
    ensures 1 <= n <= |lines| && k >= 0 ==>
      WindowStart(n, k) <= n - 1 < WindowStart(n, k) + |WindowLines(lines, n, k)|
  {
    forall j | 0 <= j < |WindowLines(lines, n, k)|
      ensures StartsWith(WindowLines(lines, n, k)[j], ">>> ") <==> WindowStart(n, k) + j == n - 1
    {
      ContextLineMarked(lines, n, WindowStart(n, k) + j);
    }
  }

  /** `get_context_around_line`: the window, or the missing-file or read-error text. */
  function ContextAround(fs: Fs, root: string, filePath: string, n: int, k: int): string {
    var full := Resolve(root, filePath);
    if !Exists(fs, full) then "File " + filePath + " not found"
    else match Open(fs, full)
      case Content(text) =>
        "Context around line " + IntToString(n) + " in " + filePath + ":\n" + Join("\n", WindowLines(ReadLines(text), n, k))
      case _ => "Error reading context from " + filePath + ": " + OpenError(Open(fs, full), full)
  }

  // ---------------------------------------------------------------------
  // Next-action hints

  const ErrorActions: seq<string> := [
    "Check the file exists and is readable",
    "Look for similar files in the project",
    "Check the project structure for clues"
  ]
  const ImportActions: seq<string> := [
    "Find the imported module in the project",
    "Check if dependencies are installed",
    "Look for similar import patterns"
  ]
  const DefinitionActions: seq<string> := [
    "Read the full file to understand the context",
    "Look for usage examples of this function/class",
    "Check the docstring for more information"
  ]

  /** `suggest_next_actions`: the first of error, import, function/class found in the lowered text. */
  function SuggestNextActions(context: string): (r: seq<string>)
    ensures |r| == 0 || |r| == 3
    ensures var c := Lower(context);
      && (r == [] <==> !Contains(c, "error") && !Contains(c, "import") && !Contains(c, "function") && !Contains(c, "class"))
      && (r == ErrorActions <==> Contains(c, "error"))
      && (r == ImportActions <==> !Contains(c, "error") && Contains(c, "import"))
      && (r == DefinitionActions <==>
            !Contains(c, "error") && !Contains(c, "import") && (Contains(c, "function") || Contains(c, "class")))
  {
    var c := Lower(context);
    if Contains(c, "error") then ErrorActions
    else if Contains(c, "import") then ImportActions
    else if Contains(c, "function") || Contains(c, "class") then DefinitionActions
    else []
  }
}
