/**
 * `EnhancedTools`: the codebase navigation tools layered over a
 * `ContextManager`.  Each tool builds a report string; the model states each
 * report as a function of the project (files, analyser, filesystem) and
 * proves the tool's loops against it.  The working directory is a value
 * fixed at construction.
 */
module EnhancedTools {
  import opened Json
  import opened Text
  import opened Paths
  import opened Sorting
  import opened FileSystem
  import opened CodeAnalysis
  import opened ProjectContext
  import opened Grouping

  // ---------------------------------------------------------------------
  // explore_codebase: grouping by directory

  /** The directories of `files`, first occurrence first (the keys of `by_dir`). */
  function Parents(files: seq<string>): seq<string> {
    Keys(files, Parent)
  }

  /** The names filed under `d`, in file order (`by_dir[d]`). */
  function NamesIn(files: seq<string>, d: string): seq<string> {
    Values(files, Parent, BaseName, d)
  }

  /** The directories as listed: `sorted(by_dir.items())`, keys being distinct. */
  function ListedDirs(files: seq<string>): seq<string> {
    Sort(Parents(files))
  }

  /** The names listed under `d`: `sorted(file_list)`. */
  function ListedNames(files: seq<string>, d: string): seq<string> {
    Sort(NamesIn(files, d))
  }

  /**
   * The listing: directories sorted and each once, names sorted within each
   * directory, every file under its parent, nothing else, and as many name
   * lines as files.
   */
  lemma GroupingFacts(files: seq<string>)
    ensures Sorted(ListedDirs(files)) && NoRepeats(ListedDirs(files))
    ensures forall d :: Sorted(ListedNames(files, d))
    ensures forall f :: f in files ==> Parent(f) in ListedDirs(files) && BaseName(f) in ListedNames(files, Parent(f))
    ensures forall d, n :: n in ListedNames(files, d) ==> exists f :: f in files && Parent(f) == d && BaseName(f) == n
    ensures Filed(files, Parent, BaseName, ListedDirs(files)) == |files|
  {
    KeysExact(files, Parent, BaseName);
    NoRepeatsPermutation(Parents(files), ListedDirs(files));
    forall f | f in files ensures Parent(f) in ListedDirs(files) && BaseName(f) in ListedNames(files, Parent(f)) {
      assert Parent(f) in multiset(Parents(files));
      ValuesIff(files, Parent, BaseName, Parent(f), BaseName(f));
      assert BaseName(f) in multiset(NamesIn(files, Parent(f)));
    }
    forall d, n | n in ListedNames(files, d) ensures exists f :: f in files && Parent(f) == d && BaseName(f) == n {
      assert n in multiset(ListedNames(files, d));
      ValuesIff(files, Parent, BaseName, d, n);
    }
    FiledAll(files, Parent, BaseName);
    FiledPermutation(files, Parent, BaseName, Parents(files), ListedDirs(files));
  }

  // ---------------------------------------------------------------------
  // explore_codebase: the report

  /** A bare "*" with a non-empty type becomes a recursive pattern for that extension. */
  function EffectivePattern(pattern: string, fileType: Option<string>): string {
    if pattern == "*" && fileType.Some? && fileType.value != "" then "**/*." + fileType.value else pattern
  }

  /** `file_type or 'any'` */
  function TypeLabel(fileType: Option<string>): string {
    if fileType.Some? && fileType.value != "" then fileType.value else "any"
  }

  function NoFilesText(pattern: string, fileType: Option<string>): string {
    "No files found matching pattern '" + pattern + "' with type '" + TypeLabel(fileType) + "'"
  }

  function FoundFilesHeader(count: nat, pattern: string): string {
    "Found " + NatToString(count) + " files matching '" + pattern + "':\n\n"
  }

  /** `dir_path or '.'` */
  function DirHeader(d: string): string {
    "📁 " + (if d == "" then "." else d) + "/\n"
  }

  function FileLine(name: string): string {
    "  📄 " + name + "\n"
  }

  function DirBlock(files: seq<string>, d: string): string {
    DirHeader(d) + Concat(MapStr(ListedNames(files, d), FileLine)) + "\n"
  }

  /** The blocks of `dirs`, in order. */
  function DirBlocks(files: seq<string>, dirs: seq<string>): string
    decreases |dirs|
  {
    if dirs == [] then "" else DirBlocks(files, dirs[..|dirs| - 1]) + DirBlock(files, dirs[|dirs| - 1])
  }

  /** The files shown: the matches of the effective pattern, cut at `max_files` (Python slicing). */
  function ShownFiles(files: seq<string>, pattern: string, fileType: Option<string>, maxFiles: int, glob: Glob): seq<string> {
    PyPrefix(PatternMatches(files, EffectivePattern(pattern, fileType), fileType, glob), maxFiles)
  }

  /** `explore_codebase(pattern, file_type, max_files)` over the project files. */
  function ExploreReport(files: seq<string>, pattern: string, fileType: Option<string>, maxFiles: int, glob: Glob): string {
    var p := EffectivePattern(pattern, fileType);
    if PatternMatches(files, p, fileType, glob) == [] then NoFilesText(p, fileType)
    else
      var shown := ShownFiles(files, pattern, fileType, maxFiles, glob);
      Strip(FoundFilesHeader(|shown|, p) + DirBlocks(shown, ListedDirs(shown)))
  }

  /**
   * The files shown are a prefix of the matches, at most `max_files` of them
   * when that is not negative, each a project file matching the effective
   * pattern.
   */
  lemma ExploreShows(files: seq<string>, pattern: string, fileType: Option<string>, maxFiles: int, glob: Glob)
    ensures var p := EffectivePattern(pattern, fileType);
      var found := PatternMatches(files, p, fileType, glob);
      var shown := ShownFiles(files, pattern, fileType, maxFiles, glob);
      && shown == found[..|shown|]
      && (0 <= maxFiles ==> |shown| == if maxFiles < |found| then maxFiles else |found|)
      && (forall f :: f in shown ==> f in files && glob(f, p) && (fileType.None? || EndsWith(f, "." + fileType.value)))
  {
    var p := EffectivePattern(pattern, fileType);
    var found := PatternMatches(files, p, fileType, glob);
    var shown := ShownFiles(files, pattern, fileType, maxFiles, glob);
    forall f | f in shown ensures f in files && glob(f, p) && (fileType.None? || EndsWith(f, "." + fileType.value)) {
      assert f in found;
      PatternMatchesSelect(files, p, fileType, glob, f);
    }
  }

  /** The no-files text is the answer exactly when nothing matches the effective pattern. */
  lemma ExploreNoFiles(files: seq<string>, pattern: string, fileType: Option<string>, maxFiles: int, glob: Glob)
    ensures var p := EffectivePattern(pattern, fileType);
      PatternMatches(files, p, fileType, glob) == [] <==>
      ExploreReport(files, pattern, fileType, maxFiles, glob) == NoFilesText(p, fileType)
  {
    var p := EffectivePattern(pattern, fileType);
    if PatternMatches(files, p, fileType, glob) != [] {
      var shown := ShownFiles(files, pattern, fileType, maxFiles, glob);
      var body := FoundFilesHeader(|shown|, p) + DirBlocks(shown, ListedDirs(shown));
      assert body[0] == 'F';
      StripKeepsHead(body);
      assert NoFilesText(p, fileType)[0] == 'N';
    }
  }

  // ---------------------------------------------------------------------
  // analyze_file

  /** The first hundred characters of a docstring, then "...". */
  function DocLine(doc: string): string {
    "      " + PyPrefix(doc, 100) + "...\n"
  }

  function ClassBlock(c: ClassInfo): string {
    "  📦 " + c.name + " (line " + IntToString(c.line) + ")\n"
    + (if HasDocstring(c.docstring) then DocLine(c.docstring.value) else "")
    + (if c.methods != [] then "      Methods: " + Join(", ", c.methods) + "\n" else "")
  }

  function FunctionBlock(f: FuncInfo): string {
    "  🔧 " + f.name + "(" + Join(", ", f.args) + ") (line " + IntToString(f.line) + ")\n"
    + (if HasDocstring(f.docstring) then DocLine(f.docstring.value) else "")
  }

  function ImportLine(i: string): string {
    "  📥 " + i + "\n"
  }

  /** Only this many imports are listed. */
  const ImportLimit: nat := 10

  /** The imports listed: `imports[:10]`. */
  function ShownImports(imports: seq<string>): seq<string> {
    PyPrefix(imports, ImportLimit)
  }

  /** The trailer after a cut import list. */
  function MoreImports(count: nat): string {
    if count > ImportLimit then "  ... and " + NatToString(count - ImportLimit) + " more\n" else ""
  }

  function ImportsSection(imports: seq<string>): string {
    if imports == [] then ""
    else "Imports:\n" + Concat(MapStr(ShownImports(imports), ImportLine)) + MoreImports(|imports|)
  }

  function AnalysisSummary(path: string, a: Analysis): string {
    "Analysis of " + path + ":\n"
    + "Lines: " + NatToString(a.lines) + "\n"
    + "Classes: " + NatToString(|a.classes|) + "\n"
    + "Functions: " + NatToString(|a.functions|) + "\n"
    + "Imports: " + NatToString(|a.imports|) + "\n\n"
  }

  function ClassesSection(classes: seq<ClassInfo>): string {
    if classes == [] then "" else "Classes:\n" + Concat(MapStr(classes, ClassBlock)) + "\n"
  }

  function FunctionsSection(functions: seq<FuncInfo>): string {
    if functions == [] then "" else "Functions:\n" + Concat(MapStr(functions, FunctionBlock)) + "\n"
  }

  /** The text of a successful analysis. */
  function AnalysisText(path: string, a: Analysis): string {
    AnalysisSummary(path, a) + ClassesSection(a.classes) + FunctionsSection(a.functions) + ImportsSection(a.imports)
  }

  /** The `include_content` tail: the file text, or the read error. */
  function ContentTail(fs: Fs, path: string): string {
    match Open(fs, path)
    case Content(text) => "\nFile Content:\n" + text
    case _ => "\nError reading content: " + OpenError(Open(fs, path), path)
  }

  /** `analyze_file(file_path, include_content)` run from `cwd`. */
  function AnalyzeReport(fs: Fs, cwd: string, filePath: string, includeContent: bool, analyze: Analyzer): string {
    var full := Resolve(cwd, filePath);
    match analyze(full)
    case AnalysisError(e) => "Error analyzing " + full + ": " + e
    case Analyzed(a) => AnalysisText(full, a) + (if includeContent then ContentTail(fs, full) else "")
  }

  /**
   * At most ten imports are listed, the first ones in order; the trailer
   * appears exactly when some are cut and names how many.
   */
  lemma ImportsCap(imports: seq<string>)
    ensures var shown := ShownImports(imports);
      && |shown| <= ImportLimit && shown == imports[..|shown|]
      && (|imports| <= ImportLimit ==> shown == imports && MoreImports(|imports|) == "")
      && (|imports| > ImportLimit ==>
            |shown| == ImportLimit && MoreImports(|imports|) == "  ... and " + NatToString(|imports| - |shown|) + " more\n")
  {
  }

  /** A path not starting with '/' is taken relative to the working directory; an absolute one is kept. */
  lemma ResolvedPath(cwd: string, p: string)
    ensures StartsWith(p, "/") ==> Resolve(cwd, p) == p
    ensures !StartsWith(p, "/") && p != "" ==> StartsWith(Resolve(cwd, p), cwd) && EndsWith(Resolve(cwd, p), p)
  {
    if !StartsWith(p, "/") && p != "" {
      var r := Resolve(cwd, p);
      if cwd == "" {
        assert r == p;
      } else if cwd[|cwd| - 1] == '/' {
        assert r == cwd + p;
        assert r[..|cwd|] == cwd;
        assert r[|r| - |p|..] == p;
      } else {
        assert r == cwd + "/" + p;
        assert r[..|cwd|] == cwd;
        assert r[|r| - |p|..] == p;
      }
    }
  }

  // ---------------------------------------------------------------------
  // find_code_patterns

  /** The suffixes searched when none are given (no ".txt", unlike `find_files_by_content`). */
  const PatternTypes: seq<string> := [".py", ".js", ".ts", ".md"]

  /** `file_types or [...]`: a missing or empty list means the default. */
  function SearchTypes(fileTypes: seq<string>): seq<string> {
    if fileTypes == [] then PatternTypes else fileTypes
  }

  /** The text for hit `i`: a file header when the file changes, then the context window. */
  function MatchBlock(fs: Fs, root: string, hits: seq<Hit>, i: nat, k: int): string
    requires i < |hits|
  {
    (if i == 0 || hits[i - 1].file != hits[i].file then "📄 " + hits[i].file + ":\n" else "")
    + "  " + ContextAround(fs, root, hits[i].file, hits[i].line, k) + "\n"
  }

  /** The blocks of the first `n` hits. */
  function MatchBlocks(fs: Fs, root: string, hits: seq<Hit>, n: nat, k: int): string
    requires n <= |hits|
  {
    if n == 0 then "" else MatchBlocks(fs, root, hits, n - 1, k) + MatchBlock(fs, root, hits, n - 1, k)
  }

  /** One more hit adds its block at the end. */
  lemma MatchBlocksSnoc(fs: Fs, root: string, hits: seq<Hit>, n: nat, k: int)
    requires n < |hits|
    ensures MatchBlocks(fs, root, hits, n + 1, k) == MatchBlocks(fs, root, hits, n, k) + MatchBlock(fs, root, hits, n, k)
  {
  }

  function MatchesHeader(count: nat, pattern: string): string {
    "Found " + NatToString(count) + " matches for '" + pattern + "':\n\n"
  }

  /** `find_code_patterns(pattern, file_types, context_lines)` over the project files. */
  function PatternReport(fs: Fs, root: string, files: seq<string>, pattern: string, fileTypes: seq<string>, k: int): string {
    var hits := ContentHits(fs, root, files, pattern, SearchTypes(fileTypes));
    if hits == [] then "No matches found for pattern '" + pattern + "'"
    else MatchesHeader(|hits|, pattern) + MatchBlocks(fs, root, hits, |hits|, k)
  }

  /** Every reported hit is in a project file with a searched suffix; by default no ".txt" file is searched. */
  lemma PatternHitsSearched(fs: Fs, root: string, files: seq<string>, pattern: string, fileTypes: seq<string>)
    ensures forall h :: h in ContentHits(fs, root, files, pattern, SearchTypes(fileTypes)) ==>
      h.file in files && HasAnySuffix(h.file, SearchTypes(fileTypes))
    ensures fileTypes == [] ==> forall h :: h in ContentHits(fs, root, files, pattern, SearchTypes(fileTypes)) ==>
      !EndsWith(h.file, ".txt")
  {
    ContentHitsFromListedFiles(fs, root, files, pattern, SearchTypes(fileTypes));
    if fileTypes == [] {
      forall h | h in ContentHits(fs, root, files, pattern, PatternTypes) ensures !EndsWith(h.file, ".txt") {
        var t :| 0 <= t < |PatternTypes| && EndsWith(h.file, PatternTypes[t]);
        assert h.file[|h.file| - 1] == PatternTypes[t][|PatternTypes[t]| - 1];
      }
    }
  }

  // ---------------------------------------------------------------------
  // get_file_dependencies

  function DependencyLine(d: string): string {
    "  📄 " + d + "\n"
  }

  /** The report for the dependencies listed in the order `order`. */
  function DependencyReport(path: string, order: seq<string>): string {
    if order == [] then "No dependencies found for " + path
    else "Dependencies for " + path + ":\n\n" + Concat(MapStr(order, DependencyLine))
  }

  // ---------------------------------------------------------------------
  // navigate_to_symbol

  /** `symbol_name.lower() in name.lower()` */
  predicate NameMatches(name: string, symbol: string) {
    Contains(Lower(name), Lower(symbol))
  }

  datatype SymbolKind = ClassSymbol | FunctionSymbol

  /** A hit: what was found, its name and line, and the file it was found in. */
  datatype Symbol = Symbol(kind: SymbolKind, name: string, line: int, file: string)

  /** The first element satisfying `p`, if any. */
  function FirstWhere<T>(s: seq<T>, p: T -> bool): (r: Option<T>)
    ensures r.None? <==> forall i :: 0 <= i < |s| ==> !p(s[i])
    ensures r.Some? ==> exists i :: 0 <= i < |s| && s[i] == r.value && p(s[i]) && forall j :: 0 <= j < i ==> !p(s[j])
    decreases |s|
  {
    if s == [] then None
    else if p(s[0]) then Some(s[0])
    else
      var r := FirstWhere(s[1..], p);
      FirstWhereShift(s, p, r);
      r
  }

  /** The contract of the recursive call, moved one position to the right. */
  lemma FirstWhereShift<T>(s: seq<T>, p: T -> bool, r: Option<T>)
    requires s != [] && !p(s[0])
    requires r.None? <==> forall i :: 0 <= i < |s[1..]| ==> !p(s[1..][i])
    requires r.Some? ==> exists i :: 0 <= i < |s[1..]| && s[1..][i] == r.value && p(s[1..][i]) && forall j :: 0 <= j < i ==> !p(s[1..][j])
    ensures r.None? <==> forall i :: 0 <= i < |s| ==> !p(s[i])
    ensures r.Some? ==> exists i :: 0 <= i < |s| && s[i] == r.value && p(s[i]) && forall j :: 0 <= j < i ==> !p(s[j])
  {
    assert forall i :: 1 <= i < |s| ==> s[i] == s[1..][i - 1];
    if r.Some? {
      var i :| 0 <= i < |s[1..]| && s[1..][i] == r.value && p(s[1..][i]) && forall j :: 0 <= j < i ==> !p(s[1..][j]);
      assert s[i + 1] == r.value && forall j :: 0 <= j < i + 1 ==> !p(s[j]);
    }
  }

  function ClassNamed(symbol: string): ClassInfo -> bool {
    (c: ClassInfo) => NameMatches(c.name, symbol)
  }

  function FunctionNamed(symbol: string): FuncInfo -> bool {
    (f: FuncInfo) => NameMatches(f.name, symbol)
  }

  /**
   * The hit in one file: none for an unanalysable file, else the first
   * matching class, else the first matching function.
   */
  function FileMatch(file: string, analysis: AnalysisResult, symbol: string): (r: Option<Symbol>)
    ensures r.Some? ==> r.value.file == file && NameMatches(r.value.name, symbol)
    ensures r.None? <==> (analysis.AnalysisError? ||
      ((forall c :: c in analysis.record.classes ==> !NameMatches(c.name, symbol)) &&
       (forall f :: f in analysis.record.functions ==> !NameMatches(f.name, symbol))))
    ensures r.Some? && r.value.kind == FunctionSymbol ==>
      forall c :: c in analysis.record.classes ==> !NameMatches(c.name, symbol)
  {
    if analysis.AnalysisError? then None
    else
      var a := analysis.record;
      match FirstWhere(a.classes, ClassNamed(symbol))
      case Some(c) => Some(Symbol(ClassSymbol, c.name, c.line, file))
      case None =>
        match FirstWhere(a.functions, FunctionNamed(symbol))
        case Some(f) => Some(Symbol(FunctionSymbol, f.name, f.line, file))
        case None => None
  }

  /** The first hit over the files, in order. */
  function FirstMatch(files: seq<string>, analyze: Analyzer, symbol: string): Option<Symbol>
    decreases |files|
  {
    if files == [] then None
    else
      var hit := FileMatch(files[0], analyze(files[0]), symbol);
      if hit.Some? then hit else FirstMatch(files[1..], analyze, symbol)
  }

  /** The files searched, in order: the hint if given, then every Python file of the project. */
  function Candidates(fileHint: Option<string>, pythonFiles: seq<string>): seq<string> {
    (if fileHint.Some? && fileHint.value != "" then [fileHint.value] else []) + pythonFiles
  }

  const NavigationContext: int := 5

  function KindWord(k: SymbolKind): string {
    match k
    case ClassSymbol => "class"
    case FunctionSymbol => "function"
  }

  function FoundSymbolText(fs: Fs, root: string, s: Symbol): string {
    "Found " + KindWord(s.kind) + " '" + s.name + "' in " + s.file + " at line " + IntToString(s.line) + "\n"
    + ContextAround(fs, root, s.file, s.line, NavigationContext)
  }

  function NotFoundText(symbol: string): string {
    "Symbol '" + symbol + "' not found in the codebase"
  }

  /** `navigate_to_symbol(symbol_name, file_hint)` */
  function NavigationReport(fs: Fs, root: string, files: seq<string>, symbol: string, fileHint: Option<string>,
                            analyze: Analyzer, glob: Glob): string
  {
    match FirstMatch(Candidates(fileHint, PatternMatches(files, "**/*.py", None, glob)), analyze, symbol)
    case Some(s) => FoundSymbolText(fs, root, s)
    case None => NotFoundText(symbol)
  }

  /** Searching two lists one after the other finds the first list's hit if it has one. */
  lemma {:induction false} FirstMatchAppend(a: seq<string>, b: seq<string>, analyze: Analyzer, symbol: string)
    ensures FirstMatch(a + b, analyze, symbol) ==
      if FirstMatch(a, analyze, symbol).Some? then FirstMatch(a, analyze, symbol) else FirstMatch(b, analyze, symbol)
    decreases |a|
  {
    if a == [] {
      assert a + b == b;
    } else {
      assert (a + b)[0] == a[0] && (a + b)[1..] == a[1..] + b;
      FirstMatchAppend(a[1..], b, analyze, symbol);
    }
  }

  /**
   * The search finds nothing exactly when no candidate has a hit, and a hit
   * comes from the earliest candidate that has one.
   */
  lemma {:induction false} FirstMatchIsFirst(files: seq<string>, analyze: Analyzer, symbol: string)
    ensures FirstMatch(files, analyze, symbol).None? <==>
      forall i :: 0 <= i < |files| ==> FileMatch(files[i], analyze(files[i]), symbol).None?
    ensures FirstMatch(files, analyze, symbol).Some? ==> exists i :: (0 <= i < |files| &&
      FileMatch(files[i], analyze(files[i]), symbol) == FirstMatch(files, analyze, symbol) &&
      forall j :: 0 <= j < i ==> FileMatch(files[j], analyze(files[j]), symbol).None?)
    decreases |files|
  {
    if files != [] {
      var rest := files[1..];
      FirstMatchIsFirst(rest, analyze, symbol);
      assert forall i :: 1 <= i < |files| ==> files[i] == rest[i - 1];
      if FileMatch(files[0], analyze(files[0]), symbol).None? && FirstMatch(rest, analyze, symbol).Some? {
        var i :| 0 <= i < |rest| && FileMatch(rest[i], analyze(rest[i]), symbol) == FirstMatch(rest, analyze, symbol) &&
          forall j :: 0 <= j < i ==> FileMatch(rest[j], analyze(rest[j]), symbol).None?;
        assert files[i + 1] == rest[i];
      }
    }
  }

  // ---------------------------------------------------------------------
  // suggest_improvements

  /** One suggestion of `suggest_improvements`. */
  datatype Improvement = DocumentFunctions(count: nat) | DocumentClasses(count: nat) | SplitModule | ReorganizeImports

  function ImprovementText(x: Improvement): string {
    match x
    case DocumentFunctions(n) => "Consider adding docstrings to " + NatToString(n) + " functions"
    case DocumentClasses(n) => "Consider adding docstrings to " + NatToString(n) + " classes"
    case SplitModule => "Consider breaking this file into smaller modules (over 200 lines)"
    case ReorganizeImports => "Consider organizing imports or splitting into smaller modules"
  }

  predicate UndocumentedFunction(f: FuncInfo) {
    !HasDocstring(f.docstring)
  }

  predicate UndocumentedClass(c: ClassInfo) {
    !HasDocstring(c.docstring)
  }

  const LongFileLines: nat := 200
  const ManyImports: nat := 20

  /** The suggestions, in the order they are checked. */
  function Improvements(a: Analysis): seq<Improvement> {
    var undocumentedFunctions := Count(a.functions, UndocumentedFunction);
    var undocumentedClasses := Count(a.classes, UndocumentedClass);
    (if undocumentedFunctions > 0 then [DocumentFunctions(undocumentedFunctions)] else [])
    + (if undocumentedClasses > 0 then [DocumentClasses(undocumentedClasses)] else [])
    + (if a.lines > LongFileLines then [SplitModule] else [])
    + (if |a.imports| > ManyImports then [ReorganizeImports] else [])
  }

  /** `f"{i}. {suggestion}\n"` for the first `n` suggestions, numbered from 1. */
  function Enumerated(items: seq<Improvement>, n: nat): string
    requires n <= |items|
  {
    if n == 0 then "" else Enumerated(items, n - 1) + NumberedSuggestion(n, items[n - 1])
  }

  function NumberedSuggestion(n: nat, x: Improvement): string {
    NatToString(n) + ". " + ImprovementText(x) + "\n"
  }

  /** `suggest_improvements(file_path)` */
  function ImprovementsReport(path: string, analysis: AnalysisResult): string {
    match analysis
    case AnalysisError(e) => "Error analyzing " + path + ": " + e
    case Analyzed(a) =>
      var items := Improvements(a);
      if items == [] then "No specific improvements suggested for " + path + ". The code looks well-structured!"
      else "Improvement suggestions for " + path + ":\n\n" + Enumerated(items, |items|)
  }

  /**
   * Each check contributes its suggestion exactly when it fires, the counts
   * being the numbers of undocumented functions and classes; there is no
   * suggestion at all exactly when none fires.
   */
  lemma ImprovementsIff(a: Analysis, x: Improvement)
    ensures x in Improvements(a) <==>
      || (x.DocumentFunctions? && x.count == Count(a.functions, UndocumentedFunction) && x.count > 0)
      || (x.DocumentClasses? && x.count == Count(a.classes, UndocumentedClass) && x.count > 0)
      || (x.SplitModule? && a.lines > LongFileLines)
      || (x.ReorganizeImports? && |a.imports| > ManyImports)
    ensures Improvements(a) == [] <==>
      && (forall f :: f in a.functions ==> HasDocstring(f.docstring))
      && (forall c :: c in a.classes ==> HasDocstring(c.docstring))
      && a.lines <= LongFileLines && |a.imports| <= ManyImports
  {
    CountZeroIff(a.functions, UndocumentedFunction);
    CountZeroIff(a.classes, UndocumentedClass);
  }

  // ---------------------------------------------------------------------
  // get_project_health

  predicate IsPythonFile(f: string) {
    EndsWith(f, ".py")
  }

  predicate NotPythonFile(f: string) {
    !IsPythonFile(f)
  }

  function LanguageLine(stat: (string, nat)): string {
    "  " + stat.0 + ": " + NatToString(stat.1) + " files\n"
  }

  function EntryLine(ep: string): string {
    "  📄 " + ep + "\n"
  }

  const HealthHeading: string := "Project Health Report\n===================\n\n"

  function FileStatistics(files: seq<string>): string {
    var total := |files|;
    var python := Count(files, IsPythonFile);
    "📊 File Statistics:\n"
    + "  Total files: " + NatToString(total) + "\n"
    + "  Python files: " + NatToString(python) + "\n"
    + "  Other files: " + NatToString(total - python) + "\n\n"
  }

  function GitSection(git: GitInfo): string {
    if git.isRepo then "🌿 Git Repository:\n  Branch: " + git.branch + "\n  Root: " + git.root + "\n"
    else "⚠️  Not a Git repository\n"
  }

  /** `get_project_health()` for the structure the context holds. */
  function HealthReport(structure: Option<ProjectStructure>): string {
    match structure
    case None => "Unable to analyze project structure"
    case Some(ps) =>
      HealthHeading + FileStatistics(ps.files)
      + "📈 Language Distribution:\n" + Concat(MapStr(SortByCountDesc(ps.languageStats), LanguageLine)) + "\n"
      + "🚪 Entry Points:\n" + Concat(MapStr(ps.entryPoints, EntryLine)) + "\n"
      + GitSection(ps.gitInfo)
  }

  /**
   * The "Other files" figure is the number of files not ending in ".py", so
   * Python and other files add up to the total; the languages are listed
   * largest count first, each statistic exactly once.
   */
  lemma {:induction false} HealthFigures(files: seq<string>, stats: seq<(string, nat)>)
    ensures |files| - Count(files, IsPythonFile) == Count(files, NotPythonFile)
    ensures DescendingByCount(SortByCountDesc(stats)) && multiset(SortByCountDesc(stats)) == multiset(stats)
    decreases |files|
  {
    if files != [] {
      HealthFigures(files[..|files| - 1], stats);
    }
  }

  /** The `by_dir` loop: the dictionary, with its keys in insertion order. */
  method GroupByDir(files: seq<string>) returns (byDir: map<string, seq<string>>, dirs: seq<string>)
    ensures Grouped(files, Parent, BaseName, byDir, dirs)
  {
    byDir, dirs := map[], [];
    for i := 0 to |files|
      invariant Grouped(files[..i], Parent, BaseName, byDir, dirs)
    {
      var f := files[i];
      assert files[..i + 1] == files[..i] + [f];
      var d := Parent(f);
      if d !in byDir {
        GroupedSnocNew(files[..i], f, Parent, BaseName, byDir, dirs);
        byDir := byDir[d := []];
        dirs := dirs + [d];
      } else {
        GroupedSnocKnown(files[..i], f, Parent, BaseName, byDir, dirs);
      }
      byDir := byDir[d := byDir[d] + [BaseName(f)]];
    }
    assert files[..|files|] == files;
  }

  lemma DirBlocksSnoc(files: seq<string>, dirs: seq<string>, k: nat)
    requires k < |dirs|
    ensures DirBlocks(files, dirs[..k + 1]) == DirBlocks(files, dirs[..k]) + DirBlock(files, dirs[k])
  {
    assert dirs[..k + 1][..k] == dirs[..k];
  }

  /** The text of one directory: its header, its sorted names, a blank line. */
  method DirBlockOf(files: seq<string>, byDir: map<string, seq<string>>, d: string) returns (block: string)
    requires d in byDir && byDir[d] == NamesIn(files, d)
    ensures block == DirBlock(files, d)
  {
    var lines := ConcatEach(Sort(byDir[d]), FileLine);
    block := DirHeader(d) + lines + "\n";
  }

  /** The `sorted(by_dir.items())` loop: one block per directory, in the given order. */
  method ListGroups(files: seq<string>, byDir: map<string, seq<string>>, sortedDirs: seq<string>) returns (blocks: string)
    requires forall d :: d in sortedDirs ==> d in byDir && byDir[d] == NamesIn(files, d)
    ensures blocks == DirBlocks(files, sortedDirs)
  {
    blocks := "";
    for k := 0 to |sortedDirs|
      invariant blocks == DirBlocks(files, sortedDirs[..k])
    {
      DirBlocksSnoc(files, sortedDirs, k);
      var block := DirBlockOf(files, byDir, sortedDirs[k]);
      blocks := blocks + block;
    }
    assert sortedDirs[..|sortedDirs|] == sortedDirs;
  }

  class EnhancedTools {
    const context: ContextManager
    const workingDir: string

    /** `EnhancedTools(root)`: a fresh context manager over the project, and the process's working directory. */
    constructor(root: string, ignoreFile: Option<string>, items: seq<Entry>, git: GitInfo, glob: Glob, cwd: string)
      ensures fresh(context) && workingDir == cwd
      ensures context.rootPath == root && context.structure == Some(Scan(root, IgnorePatterns(ignoreFile), items, git, glob))
    {
      context := new ContextManager(root, ignoreFile, items, git, glob);
      workingDir := cwd;
    }

    /** `explore_codebase` */
    method ExploreCodebase(pattern: string, fileType: Option<string>, maxFiles: int, glob: Glob) returns (r: string)
      requires context.structure.Some?
      ensures r == ExploreReport(context.structure.value.files, pattern, fileType, maxFiles, glob)
    {
      var p := pattern;
      if pattern == "*" && fileType.Some? && fileType.value != "" {
        p := "**/*." + fileType.value;
      }
      var files := context.FindFilesByPattern(p, fileType, glob);
      if files == [] {
        return NoFilesText(p, fileType);
      }
      files := PyPrefix(files, maxFiles);
      var byDir, dirs := GroupByDir(files);
      var sortedDirs := Sort(dirs);
      assert forall d :: d in sortedDirs ==> d in multiset(dirs);
      var blocks := ListGroups(files, byDir, sortedDirs);
      var result := FoundFilesHeader(|files|, p) + blocks;
      r := Strip(result);
    }

    /** `analyze_file`: a relative path is taken from the working directory. */
    method AnalyzeFile(fs: Fs, filePath: string, includeContent: bool, analyze: Analyzer) returns (r: string)
      ensures r == AnalyzeReport(fs, workingDir, filePath, includeContent, analyze)
    {
      var full := filePath;
      if !StartsWith(filePath, "/") {
        full := JoinPath(workingDir, filePath);
      }
      var analysis := analyze(full);
      if analysis.AnalysisError? {
        return "Error analyzing " + full + ": " + analysis.error;
      }
      var a := analysis.record;
      var classes := ClassesPart(a.classes);
      var functions := FunctionsPart(a.functions);
      var imports := ImportsPart(a.imports);
      r := AnalysisSummary(full, a) + classes + functions + imports;
      if includeContent {
        r := r + ContentTail(fs, full);
      }
    }

    /** The "Classes:" section, one block per class. */
    static method ClassesPart(classes: seq<ClassInfo>) returns (t: string)
      ensures t == ClassesSection(classes)
    {
      t := "";
      if classes != [] {
        var blocks := ConcatEach(classes, ClassBlock);
        t := "Classes:\n" + blocks + "\n";
      }
    }

    /** The "Functions:" section, one block per function. */
    static method FunctionsPart(functions: seq<FuncInfo>) returns (t: string)
      ensures t == FunctionsSection(functions)
    {
      t := "";
      if functions != [] {
        var blocks := ConcatEach(functions, FunctionBlock);
        t := "Functions:\n" + blocks + "\n";
      }
    }

    /** The "Imports:" section: the first ten imports and the trailer. */
    static method ImportsPart(imports: seq<string>) returns (t: string)
      ensures t == ImportsSection(imports)
    {
      t := "";
      if imports != [] {
        var lines := ConcatEach(PyPrefix(imports, ImportLimit), ImportLine);
        t := "Imports:\n" + lines + MoreImports(|imports|);
      }
    }

    /** `find_code_patterns`: one context window per hit, under a header each time the file changes. */
    method FindCodePatterns(fs: Fs, pattern: string, fileTypes: seq<string>, contextLines: int) returns (r: string)
      requires context.structure.Some?
      ensures r == PatternReport(fs, context.rootPath, context.structure.value.files, pattern, fileTypes, contextLines)
    {
      var types := if fileTypes == [] then PatternTypes else fileTypes;
      var hits := context.FindFilesByContent(fs, pattern, types);
      if hits == [] {
        return "No matches found for pattern '" + pattern + "'";
      }
      var blocks := ListMatches(fs, hits, contextLines);
      r := MatchesHeader(|hits|, pattern) + blocks;
    }

    /** The hits in order, a file header each time the file changes. */
    method ListMatches(fs: Fs, hits: seq<Hit>, contextLines: int) returns (t: string)
      ensures t == MatchBlocks(fs, context.rootPath, hits, |hits|, contextLines)
    {
      t := "";
      var currentFile: Option<string> := None;
      for i := 0 to |hits|
        invariant t == MatchBlocks(fs, context.rootPath, hits, i, contextLines)
        invariant currentFile == if i == 0 then None else Some(hits[i - 1].file)
      {
        var block := MatchBlockAt(fs, hits, i, currentFile != Some(hits[i].file), contextLines);
        MatchBlocksSnoc(fs, context.rootPath, hits, i, contextLines);
        currentFile := Some(hits[i].file);
        t := t + block;
      }
    }

    /** The text for one hit, with the file header when `newFile`. */
    method MatchBlockAt(fs: Fs, hits: seq<Hit>, i: nat, newFile: bool, contextLines: int) returns (block: string)
      requires i < |hits| && newFile == (i == 0 || hits[i - 1].file != hits[i].file)
      ensures block == MatchBlock(fs, context.rootPath, hits, i, contextLines)
    {
      var header := if newFile then "📄 " + hits[i].file + ":\n" else "";
      var around := context.GetContextAroundLine(fs, hits[i].file, hits[i].line, contextLines);
      block := header + "  " + around + "\n";
    }

    /**
     * `get_file_dependencies`: the dependencies of the resolved path, each
     * listed once, in the set's iteration order.
     */
    method GetFileDependencies(filePath: string, analyze: Analyzer, glob: Glob) returns (r: string)
      requires context.structure.Some?
      ensures var full := Resolve(workingDir, filePath);
        exists order :: NoRepeats(order)
          && (forall d :: d in order <==> d in Dependencies(analyze(full), context.structure.value.files, glob))
          && r == DependencyReport(full, order)
    {
      var full := filePath;
      if !StartsWith(filePath, "/") {
        full := JoinPath(workingDir, filePath);
      }
      assert full == Resolve(workingDir, filePath);
      var deps := context.GetFileDependencies(full, analyze, glob);
      if deps == {} {
        assert NoRepeats<string>([]);
        assert DependencyReport(full, []) == "No dependencies found for " + full;
        return "No dependencies found for " + full;
      }
      var lines, order := ListDependencies(deps);
      r := "Dependencies for " + full + ":\n\n" + lines;
      var some :| some in deps;
      assert some in order;
    }

    /** One line per dependency, in the order the set is enumerated. */
    static method ListDependencies(deps: set<string>) returns (lines: string, ghost order: seq<string>)
      ensures NoRepeats(order) && (forall d :: d in order <==> d in deps)
      ensures lines == Concat(MapStr(order, DependencyLine))
    {
      lines := "";
      order := [];
      var rest := deps;
      while rest != {}
        invariant rest <= deps && NoRepeats(order)
        invariant forall d :: d in order <==> d in deps && d !in rest
        invariant lines == Concat(MapStr(order, DependencyLine))
        decreases rest
      {
        var d :| d in rest;
        assert MapStr(order + [d], DependencyLine) == MapStr(order, DependencyLine) + [DependencyLine(d)];
        ConcatSnoc(MapStr(order, DependencyLine), DependencyLine(d));
        lines := lines + DependencyLine(d);
        order := order + [d];
        rest := rest - {d};
      }
    }

    /** The classes of one file, then its functions; the first name containing the symbol wins. */
    static method SearchFile(file: string, analyze: Analyzer, symbol: string) returns (hit: Option<Symbol>)
      ensures hit == FileMatch(file, analyze(file), symbol)
    {
      var analysis := analyze(file);
      if analysis.AnalysisError? {
        return None;
      }
      var a := analysis.record;
      for i := 0 to |a.classes|
        invariant forall j :: 0 <= j < i ==> !NameMatches(a.classes[j].name, symbol)
      {
        var c := a.classes[i];
        if NameMatches(c.name, symbol) {
          ghost var first := FirstWhere(a.classes, ClassNamed(symbol));
          assert first == Some(c) by {
            var k :| 0 <= k < |a.classes| && a.classes[k] == first.value && ClassNamed(symbol)(a.classes[k])
              && forall j :: 0 <= j < k ==> !ClassNamed(symbol)(a.classes[j]);
            assert k == i;
          }
          return Some(Symbol(ClassSymbol, c.name, c.line, file));
        }
      }
      for i := 0 to |a.functions|
        invariant forall j :: 0 <= j < i ==> !NameMatches(a.functions[j].name, symbol)
      {
        var f := a.functions[i];
        if NameMatches(f.name, symbol) {
          ghost var first := FirstWhere(a.functions, FunctionNamed(symbol));
          assert first == Some(f) by {
            var k :| 0 <= k < |a.functions| && a.functions[k] == first.value && FunctionNamed(symbol)(a.functions[k])
              && forall j :: 0 <= j < k ==> !FunctionNamed(symbol)(a.functions[j]);
            assert k == i;
          }
          return Some(Symbol(FunctionSymbol, f.name, f.line, file));
        }
      }
      return None;
    }

    /** `navigate_to_symbol`: the hinted file first, then every Python file of the project in order. */
    method NavigateToSymbol(fs: Fs, symbol: string, fileHint: Option<string>, analyze: Analyzer, glob: Glob) returns (r: string)
      requires context.structure.Some?
      ensures r == NavigationReport(fs, context.rootPath, context.structure.value.files, symbol, fileHint, analyze, glob)
    {
      var pythonFiles := context.FindFilesByPattern("**/*.py", None, glob);
      ghost var candidates := Candidates(fileHint, pythonFiles);
      if fileHint.Some? && fileHint.value != "" {
        assert candidates[0] == fileHint.value && candidates[1..] == pythonFiles;
        var hit := SearchFile(fileHint.value, analyze, symbol);
        if hit.Some? {
          var around := context.GetContextAroundLine(fs, hit.value.file, hit.value.line, NavigationContext);
          return "Found " + KindWord(hit.value.kind) + " '" + hit.value.name + "' in " + hit.value.file
            + " at line " + IntToString(hit.value.line) + "\n" + around;
        }
      } else {
        assert candidates == pythonFiles;
      }
      for i := 0 to |pythonFiles|
        invariant FirstMatch(candidates, analyze, symbol) == FirstMatch(pythonFiles[i..], analyze, symbol)
      {
        assert pythonFiles[i..][0] == pythonFiles[i] && pythonFiles[i..][1..] == pythonFiles[i + 1..];
        var hit := SearchFile(pythonFiles[i], analyze, symbol);
        if hit.Some? {
          var around := context.GetContextAroundLine(fs, hit.value.file, hit.value.line, NavigationContext);
          return "Found " + KindWord(hit.value.kind) + " '" + hit.value.name + "' in " + hit.value.file
            + " at line " + IntToString(hit.value.line) + "\n" + around;
        }
      }
      assert pythonFiles[|pythonFiles|..] == [];
      r := NotFoundText(symbol);
    }

    /** `suggest_improvements`: the file is analysed as given, without resolving it. */
    static method SuggestImprovements(filePath: string, analyze: Analyzer) returns (r: string)
      ensures r == ImprovementsReport(filePath, analyze(filePath))
    {
      var analysis := analyze(filePath);
      if analysis.AnalysisError? {
        return "Error analyzing " + filePath + ": " + analysis.error;
      }
      var suggestions := Improvements(analysis.record);
      if suggestions == [] {
        return "No specific improvements suggested for " + filePath + ". The code looks well-structured!";
      }
      var numbered := Enumerate(suggestions);
      r := "Improvement suggestions for " + filePath + ":\n\n" + numbered;
    }

    /** The numbered suggestion lines. */
    static method Enumerate(items: seq<Improvement>) returns (t: string)
      ensures t == Enumerated(items, |items|)
    {
      t := "";
      for i := 0 to |items|
        invariant t == Enumerated(items, i)
      {
        t := t + NumberedSuggestion(i + 1, items[i]);
      }
    }

    /** `get_project_health` */
    method GetProjectHealth() returns (r: string)
      ensures r == HealthReport(context.structure)
    {
      if context.structure.None? {
        return "Unable to analyze project structure";
      }
      var ps := context.structure.value;
      r := HealthHeading + FileStatistics(ps.files);
      var languages := ConcatEach(SortByCountDesc(ps.languageStats), LanguageLine);
      r := r + "📈 Language Distribution:\n" + languages + "\n";
      var entries := ConcatEach(ps.entryPoints, EntryLine);
      r := r + "🚪 Entry Points:\n" + entries + "\n";
      r := r + GitSection(ps.gitInfo);
    }
  }
}
