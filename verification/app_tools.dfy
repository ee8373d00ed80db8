/**
 * The tool functions of the agent that touch files: reading and writing
 * over the modelled filesystem, listing a directory walk filtered by
 * `.criaignore`, and the text reports built from the coding workflows'
 * records and from a whole-project summary.
 */
module AppTools {
  import opened Json
  import opened Text
  import opened Paths
  import opened Sorting
  import opened FileSystem
  import opened CodeAnalysis
  import opened ProjectContext
  import CodingWorkflows
  import Intelligence
  import Agent
  import ET = EnhancedTools

  // ---------------------------------------------------------------------
  // get_ignore_patterns

  /** The patterns `.criaignore` gives: none when the file is missing. */
  function IgnoreFilePatterns(ignoreFile: Option<string>): seq<string> {
    if ignoreFile.Some? then PatternLines(ReadLines(ignoreFile.value)) else []
  }

  /** `get_ignore_patterns`, the file's text given as `ignoreFile` (`None` when it does not exist). */
  method GetIgnorePatterns(ignoreFile: Option<string>) returns (patterns: seq<string>)
    ensures patterns == IgnoreFilePatterns(ignoreFile)
  {
    if ignoreFile.None? {
      return [];
    }
    patterns := CollectPatterns([], ReadLines(ignoreFile.value));
  }

  /**
   * A pattern is a stripped line of the file that is neither blank nor a
   * comment, and every such line gives one; a missing file gives none.
   */
  lemma IgnoreFilePatternsAreCleanLines(ignoreFile: Option<string>, q: string)
    ensures ignoreFile.None? ==> IgnoreFilePatterns(ignoreFile) == []
    ensures q in IgnoreFilePatterns(ignoreFile) <==>
      ignoreFile.Some? && exists l :: l in ReadLines(ignoreFile.value) && KeepsLine(l) && Strip(l) == q
    ensures q in IgnoreFilePatterns(ignoreFile) ==> q != "" && !StartsWith(q, "#")
  {
    if ignoreFile.Some? {
      PatternLinesAreCleanLines(ReadLines(ignoreFile.value), q);
    }
  }

  // ---------------------------------------------------------------------
  // list_files

  /** Some ignore pattern matches the entry's full path. */
  predicate IgnoredEntry(patterns: seq<string>, glob: Glob, e: Listed) {
    exists k :: 0 <= k < |patterns| && glob(e.path, patterns[k])
  }

  /** Not ignored, and a file or a directory. */
  predicate ShownEntry(patterns: seq<string>, glob: Glob, e: Listed) {
    !IgnoredEntry(patterns, glob, e) && e.kind != Other
  }

  function ShownBy(patterns: seq<string>, glob: Glob): Listed -> bool {
    (e: Listed) => ShownEntry(patterns, glob, e)
  }

  /** "📄 name" for a file, "📁 name/" for a directory. */
  function EntryText(e: Listed): string {
    if e.kind == File then "📄 " + e.shown else "📁 " + e.shown + "/"
  }

  /** The lines collected from a walk, in walk order. */
  function WalkLines(items: seq<Listed>, patterns: seq<string>, glob: Glob): seq<string> {
    Select(items, ShownBy(patterns, glob), EntryText)
  }

  /** `list_files` for the walk it performs (`iterdir` or `rglob("*")`) and the ignore patterns. */
  function ListingReport(fs: Fs, path: string, listing: Listing, patterns: seq<string>, glob: Glob): string {
    if !Exists(fs, path) then "Error: Directory '" + path + "' does not exist"
    else
      match listing
      case WalkFailed(e) => "Error listing files: " + e
      case Entries(items) =>
        var lines := WalkLines(items, patterns, glob);
        if lines == [] then "No files found in '" + path + "'" else Join("\n", Sort(lines))
  }

  /**
   * `list_files(path, recursive)`: `children` is what `iterdir` yields and
   * `tree` what `rglob("*")` yields; `ignoreFile` is the text of `.criaignore`.
   */
  method ListFiles(fs: Fs, path: string, recursive: bool, children: Listing, tree: Listing,
                   ignoreFile: Option<string>, glob: Glob) returns (r: string)
    ensures r == ListingReport(fs, path, if recursive then tree else children, IgnoreFilePatterns(ignoreFile), glob)
  {
    if !Exists(fs, path) {
      return "Error: Directory '" + path + "' does not exist";
    }
    var patterns := GetIgnorePatterns(ignoreFile);
    var listing := if recursive then tree else children;
    if listing.WalkFailed? {
      return "Error listing files: " + listing.error;
    }
    var files := Collect(listing.items, ShownBy(patterns, glob), EntryText);
    if files == [] {
      return "No files found in '" + path + "'";
    }
    r := Join("\n", Sort(files));
  }

  /**
   * A line is listed exactly when an entry of the walk that is a file or a
   * directory and that no pattern matches gives it; the lines come out
   * sorted, each as often as the walk gives it.
   */
  lemma WalkLinesIff(items: seq<Listed>, patterns: seq<string>, glob: Glob, line: string)
    ensures line in WalkLines(items, patterns, glob) <==>
      exists e :: e in items && e.kind != Other && (forall k :: 0 <= k < |patterns| ==> !glob(e.path, patterns[k]))
        && line == EntryText(e)
    ensures Sorted(Sort(WalkLines(items, patterns, glob)))
      && multiset(Sort(WalkLines(items, patterns, glob))) == multiset(WalkLines(items, patterns, glob))
  {
    SelectIff(items, ShownBy(patterns, glob), EntryText, line);
  }

  // ---------------------------------------------------------------------
  // read_file and write_file

  function NotFoundText(path: string): string {
    "Error: File '" + path + "' not found"
  }

  /** `read_file(path)` */
  function ReadText(fs: Fs, path: string): string {
    match Open(fs, path)
    case Content(text) => "Contents of " + path + ":\n" + text
    case NotFound => NotFoundText(path)
    case IsADirectory | NotADirectory => "Error reading file '" + path + "': " + OpenError(Open(fs, path), path)
  }

  /** What `read_file` answers, case by case: only a path with no file or directory on its way is "not found". */
  lemma ReadTextCases(fs: Fs, path: string)
    ensures path in fs.files ==> ReadText(fs, path) == "Contents of " + path + ":\n" + fs.files[path]
    ensures path !in fs.files && path in fs.dirs
      ==> ReadText(fs, path) == "Error reading file '" + path + "': " + IsADirectoryError(path)
    ensures path !in fs.files && path !in fs.dirs && UnderFile(fs, path)
      ==> ReadText(fs, path) == "Error reading file '" + path + "': " + NotADirectoryError(path)
    ensures path !in fs.files && path !in fs.dirs && !UnderFile(fs, path) ==> ReadText(fs, path) == NotFoundText(path)
  {
  }

  method ReadFile(disk: Disk, path: string) returns (r: string)
    ensures r == ReadText(disk.state, path)
  {
    var outcome := Open(disk.state, path);
    match outcome
    case Content(text) => r := "Contents of " + path + ":\n" + text;
    case NotFound => r := NotFoundText(path);
    case IsADirectory | NotADirectory => r := "Error reading file '" + path + "': " + OpenError(outcome, path);
  }

  /** The filesystem after a write, and the text the tool returns. */
  datatype Written = Written(fs: Fs, message: string)

  function SuccessText(path: string): string {
    "Successfully wrote to '" + path + "'"
  }

  function WriteErrorText(path: string, error: string): string {
    "Error writing to file '" + path + "': " + error
  }

  /** Writes the file once its directory is ready; the directory work stays done if the write fails. */
  function CreateAfter(prepared: MakeDirsOutcome, fs: Fs, path: string, content: string): Written {
    match prepared
    case Failed(e) => Written(fs, WriteErrorText(path, e))
    case Made(ready) =>
      match CreateFile(ready, path, content)
      case Failed(e) => Written(ready, WriteErrorText(path, e))
      case Made(after) => Written(after, SuccessText(path))
  }

  /** `write_file(path, content)`: the parent directories are made only when `dirname(path)` is not empty. */
  function WriteOut(fs: Fs, path: string, content: string): Written {
    var dir := DirName(path);
    CreateAfter(if dir == "" then Made(fs) else MakeDirs(fs, dir), fs, path, content)
  }

  method WriteFile(disk: Disk, path: string, content: string) returns (r: string)
    modifies disk
    ensures disk.state == WriteOut(old(disk.state), path, content).fs
    ensures r == WriteOut(old(disk.state), path, content).message
  {
    var dir := DirName(path);
    var prepared := Made(disk.state);
    if dir != "" {
      prepared := MakeDirs(disk.state, dir);
    }
    var w := CreateAfter(prepared, disk.state, path, content);
    disk.state := w.fs;
    r := w.message;
  }

  /**
   * A successful write changes exactly the written file, and reading it back
   * gives the written content with its line ends read as "\n" (the content
   * itself when it holds no '\r'); a failed write changes no file and says why.
   */
  lemma WriteThenRead(fs: Fs, path: string, content: string)
    ensures var w := WriteOut(fs, path, content);
      w.message == SuccessText(path) ==>
        && w.fs.files == fs.files[path := ReadBack(content)]
        && ReadText(w.fs, path) == "Contents of " + path + ":\n" + ReadBack(content)
        && ('\r' !in content ==> ReadText(w.fs, path) == "Contents of " + path + ":\n" + content)
    ensures var w := WriteOut(fs, path, content);
      w.message != SuccessText(path) ==>
        w.fs.files == fs.files && StartsWith(w.message, "Error writing to file '" + path + "': ")
  {
    var w := WriteOut(fs, path, content);
    if w.message != SuccessText(path) {
      var dir := DirName(path);
      var prepared := if dir == "" then Made(fs) else MakeDirs(fs, dir);
      var e :| w.message == WriteErrorText(path, e);
      assert w.message[..|"Error writing to file '" + path + "': "|] == "Error writing to file '" + path + "': ";
    }
  }

  /** A path with no directory part creates no directory. */
  lemma BareNameMakesNoDirectory(fs: Fs, path: string, content: string)
    requires DirName(path) == ""
    ensures WriteOut(fs, path, content).fs.dirs == fs.dirs
  {
  }

  /** The lower-cased success message. */
  lemma LowerSuccessText(path: string)
    ensures Lower(SuccessText(path)) == "successfully wrote to '" + Lower(path) + "'"
  {
    var head := "Successfully wrote to '";
    LowerConcat(head + path, "'");
    LowerConcat(head, path);
    assert Lower(head) == "successfully wrote to '";
    assert Lower("'") == "'";
  }

  /** A write to a path naming README.md (in any case) that succeeds makes the agent's policy stop. */
  lemma ReadmeWriteStops(fs: Fs, path: string, content: string, iteration: int, maxIterations: int)
    requires Contains(Lower(path), "readme.md")
    requires WriteOut(fs, path, content).message == SuccessText(path)
    ensures !Intelligence.ShouldContinue(WriteOut(fs, path, content).message, iteration, maxIterations).cont
  {
    var head := "successfully wrote to '";
    LowerSuccessText(path);
    PrefixContains(head, "successfully wrote");
    ContainsConcat(head, Lower(path), "successfully wrote");
    ContainsConcat(head, Lower(path), "readme.md");
    ContainsConcat(head + Lower(path), "'", "successfully wrote");
    ContainsConcat(head + Lower(path), "'", "readme.md");
    assert Intelligence.ReadmeWritten(Lower(SuccessText(path)));
    Intelligence.ShouldContinueStopsExactly(SuccessText(path), iteration, maxIterations);
  }

  /** Reading a missing file yields the observation the agent recovers from. */
  lemma MissingFileIsRecognised(fs: Fs, path: string)
    requires Open(fs, path).NotFound?
    ensures Agent.NamesMissingFile(ReadText(fs, path))
  {
    var r := ReadText(fs, path);
    assert r == "Error: File" + (" '" + path + "' not found");
    PrefixContains(r, "Error: File");
    assert r == ("Error: File '" + path + "' ") + "not found";
    PrefixContains("not found", "not found");
    ContainsConcat("Error: File '" + path + "' ", "not found", "not found");
  }

  // ---------------------------------------------------------------------
  // read_multiple_files

  /** The chunk for one path: its contents under a banner, or the error. */
  function Chunk(fs: Fs, path: string): string {
    match Open(fs, path)
    case Content(text) => "--- Contents of " + path + " ---\n" + text
    case NotFound => NotFoundText(path)
    case IsADirectory | NotADirectory => "Error reading file '" + path + "': " + OpenError(Open(fs, path), path)
  }

  function ChunkOf(fs: Fs): string -> string {
    (p: string) => Chunk(fs, p)
  }

  /** `read_multiple_files(paths)` */
  function ReadMultipleText(fs: Fs, paths: seq<string>): string {
    Join("\n\n", MapStr(paths, ChunkOf(fs)))
  }

  method ReadMultipleFiles(disk: Disk, paths: seq<string>) returns (r: string)
    ensures r == ReadMultipleText(disk.state, paths)
  {
    var contents: seq<string> := [];
    for i := 0 to |paths|
      invariant contents == MapStr(paths[..i], ChunkOf(disk.state))
    {
      var chunk;
      var outcome := Open(disk.state, paths[i]);
      match outcome {
        case Content(text) => chunk := "--- Contents of " + paths[i] + " ---\n" + text;
        case NotFound => chunk := NotFoundText(paths[i]);
        case IsADirectory | NotADirectory => chunk := "Error reading file '" + paths[i] + "': " + OpenError(outcome, paths[i]);
      }
      assert chunk == ChunkOf(disk.state)(paths[i]);
      assert paths[..i + 1] == paths[..i] + [paths[i]];
      MapStrSnoc(paths[..i], paths[i], ChunkOf(disk.state));
      contents := contents + [chunk];
    }
    assert paths[..|paths|] == paths;
    r := Join("\n\n", contents);
  }

  /**
   * Each path's chunk depends on that path alone: reading two lists is
   * reading each, joined by a blank line, so a missing file does not stop
   * the files after it.
   */
  lemma ReadMultipleAppend(fs: Fs, a: seq<string>, b: seq<string>)
    requires a != [] && b != []
    ensures ReadMultipleText(fs, a + b) == ReadMultipleText(fs, a) + "\n\n" + ReadMultipleText(fs, b)
  {
    assert MapStr(a + b, ChunkOf(fs)) == MapStr(a, ChunkOf(fs)) + MapStr(b, ChunkOf(fs));
    JoinAppend("\n\n", MapStr(a, ChunkOf(fs)), MapStr(b, ChunkOf(fs)));
  }

  /** A path below a regular file gives the "Not a directory" chunk, not the "not found" one. */
  lemma ReadMultipleUnderFile(fs: Fs, path: string)
    requires Open(fs, path).NotADirectory?
    ensures ReadMultipleText(fs, [path]) == "Error reading file '" + path + "': " + NotADirectoryError(path)
  {
    assert MapStr([path], ChunkOf(fs)) == [Chunk(fs, path)];
  }

  /** A single missing file gives exactly the "not found" chunk. */
  lemma ReadMultipleMissing(fs: Fs, path: string)
    requires Open(fs, path).NotFound?
    ensures ReadMultipleText(fs, [path]) == NotFoundText(path)
  {
    assert MapStr([path], ChunkOf(fs)) == [Chunk(fs, path)];
  }

  // ---------------------------------------------------------------------
  // The coding-workflow reports

  const DefaultIcon: string := "⚪"

  /** `{"error": "🔴", "warning": "🟡", "info": "🔵"}.get(severity, "⚪")` */
  function SeverityIcon(severity: string): string {
    if severity == "error" then "🔴"
    else if severity == "warning" then "🟡"
    else if severity == "info" then "🔵"
    else DefaultIcon
  }

  /** `{"high": "🔴", "medium": "🟡", "low": "🟢"}.get(priority, "⚪")` */
  function PriorityIcon(priority: string): string {
    if priority == "high" then "🔴"
    else if priority == "medium" then "🟡"
    else if priority == "low" then "🟢"
    else DefaultIcon
  }

  /**
   * The default icon shows exactly for a level outside the map, and every
   * record the workflows produce carries a level inside it.
   */
  lemma IconsAreKnown(severity: string, priority: string)
    ensures SeverityIcon(severity) == DefaultIcon <==> severity !in ["error", "warning", "info"]
    ensures PriorityIcon(priority) == DefaultIcon <==> priority !in ["high", "medium", "low"]
    ensures forall s: CodingWorkflows.Smell :: SeverityIcon(CodingWorkflows.SmellSeverity(s)) != DefaultIcon
    ensures forall r: CodingWorkflows.Refactoring :: PriorityIcon(CodingWorkflows.RefactoringPriority(r)) != DefaultIcon
    ensures forall t: CodingWorkflows.TestIdea :: PriorityIcon(CodingWorkflows.TestPriority(t)) != DefaultIcon
    ensures PriorityIcon(CodingWorkflows.IssueSeverity) != DefaultIcon
    ensures forall d: CodingWorkflows.DocSuggestion :: PriorityIcon(CodingWorkflows.DocPriority(d)) != DefaultIcon
  {
  }

  /** The empty-list text, or the heading and one entry per item with the ends stripped. */
  function ListReport<T>(items: seq<T>, entry: T -> string, empty: string, heading: string): string {
    if items == [] then empty else Strip(heading + Concat(MapStr(items, entry)))
  }

  /** The empty-list text shows exactly when there is nothing to report. */
  lemma ListReportEmptyIff<T>(items: seq<T>, entry: T -> string, empty: string, heading: string)
    requires empty != "" && heading != "" && !IsSpace(heading[0]) && empty[0] != heading[0]
    ensures ListReport(items, entry, empty, heading) == empty <==> items == []
  {
    if items != [] {
      StripKeepsHead(heading + Concat(MapStr(items, entry)));
    }
  }

  /** The entries are built by the same loop in each report. */
  method ListReportOf<T>(items: seq<T>, entry: T -> string, empty: string, heading: string) returns (r: string)
    ensures r == ListReport(items, entry, empty, heading)
  {
    if items == [] {
      return empty;
    }
    var body := ConcatEach(items, entry);
    r := Strip(heading + body);
  }

  function SmellEntry(s: CodingWorkflows.Smell): string {
    SeverityIcon(CodingWorkflows.SmellSeverity(s)) + " Line " + NatToString(s.line) + ": "
    + CodingWorkflows.SmellMessage(s) + "\n" + "\n"
  }

  function SmellsText(path: string, smells: seq<CodingWorkflows.Smell>): string {
    ListReport(smells, SmellEntry, "No code smells found in " + path, "Code smells found in " + path + ":\n\n")
  }

  function RefactoringEntry(r: CodingWorkflows.Refactoring): string {
    PriorityIcon(CodingWorkflows.RefactoringPriority(r)) + " " + CodingWorkflows.RefactoringMessage(r) + "\n" + "\n"
  }

  function RefactoringText(path: string, items: seq<CodingWorkflows.Refactoring>): string {
    ListReport(items, RefactoringEntry, "No refactoring suggestions for " + path, "Refactoring suggestions for " + path + ":\n\n")
  }

  function TestEntry(t: CodingWorkflows.TestIdea): string {
    PriorityIcon(CodingWorkflows.TestPriority(t)) + " " + CodingWorkflows.TestMessage(t) + "\n"
    + "   💡 Example:\n" + CodingWorkflows.TestSkeleton(t) + "\n" + "\n"
  }

  function TestsText(path: string, items: seq<CodingWorkflows.TestIdea>): string {
    ListReport(items, TestEntry, "No test suggestions for " + path, "Test suggestions for " + path + ":\n\n")
  }

  function IssueEntry(i: CodingWorkflows.Issue): string {
    PriorityIcon(CodingWorkflows.IssueSeverity) + " Line " + NatToString(i.line) + ": "
    + CodingWorkflows.IssueMessage(i.kind) + "\n"
    + "   💡 Suggestion: " + CodingWorkflows.IssueSuggestion(i.kind) + "\n" + "\n"
  }

  function IssuesText(path: string, items: seq<CodingWorkflows.Issue>): string {
    ListReport(items, IssueEntry, "No security issues found in " + path, "Security issues found in " + path + ":\n\n")
  }

  function DocEntry(d: CodingWorkflows.DocSuggestion): string {
    PriorityIcon(CodingWorkflows.DocPriority(d)) + " " + CodingWorkflows.DocMessage(d) + "\n" + "\n"
  }

  function DocsText(path: string, items: seq<CodingWorkflows.DocSuggestion>): string {
    ListReport(items, DocEntry, "No documentation suggestions for " + path, "Documentation suggestions for " + path + ":\n\n")
  }

  /** `find_code_smells(file_path)` */
  method FindCodeSmells(fs: Fs, filePath: string) returns (r: string)
    ensures r == SmellsText(filePath, CodingWorkflows.CodeSmells(fs, filePath))
  {
    var smells := CodingWorkflows.FindCodeSmells(fs, filePath);
    r := ListReportOf(smells, SmellEntry, "No code smells found in " + filePath, "Code smells found in " + filePath + ":\n\n");
  }

  /** `suggest_refactoring(file_path)` */
  method SuggestRefactoring(analyze: Analyzer, filePath: string) returns (r: string)
    ensures r == RefactoringText(filePath, CodingWorkflows.Refactorings(analyze(filePath)))
  {
    var items := CodingWorkflows.SuggestRefactoring(analyze, filePath);
    r := ListReportOf(items, RefactoringEntry, "No refactoring suggestions for " + filePath,
                      "Refactoring suggestions for " + filePath + ":\n\n");
  }

  /** `generate_test_suggestions(file_path)` */
  method GenerateTestSuggestions(analyze: Analyzer, filePath: string) returns (r: string)
    ensures r == TestsText(filePath, CodingWorkflows.TestIdeas(analyze(filePath)))
  {
    var items := CodingWorkflows.GenerateTestSuggestions(analyze, filePath);
    r := ListReportOf(items, TestEntry, "No test suggestions for " + filePath, "Test suggestions for " + filePath + ":\n\n");
  }

  /** `find_security_issues(file_path)` */
  method FindSecurityIssues(fs: Fs, filePath: string, search: CodingWorkflows.Search) returns (r: string)
    ensures r == IssuesText(filePath, CodingWorkflows.SecurityIssues(fs, filePath, search))
  {
    var items := CodingWorkflows.FindSecurityIssues(fs, filePath, search);
    r := ListReportOf(items, IssueEntry, "No security issues found in " + filePath,
                      "Security issues found in " + filePath + ":\n\n");
  }

  /** `generate_documentation_suggestions(file_path)` */
  method GenerateDocumentationSuggestions(analyze: Analyzer, filePath: string) returns (r: string)
    ensures r == DocsText(filePath, CodingWorkflows.DocSuggestions(analyze(filePath)))
  {
    var items := CodingWorkflows.GenerateDocumentationSuggestions(analyze, filePath);
    r := ListReportOf(items, DocEntry, "No documentation suggestions for " + filePath,
                      "Documentation suggestions for " + filePath + ":\n\n");
  }

  // Each report says there is nothing exactly when its workflow found nothing.

  lemma SmellsEmptyIff(p: string, items: seq<CodingWorkflows.Smell>)
    ensures SmellsText(p, items) == "No code smells found in " + p <==> items == []
  {
    ListReportEmptyIff(items, SmellEntry, "No code smells found in " + p, "Code smells found in " + p + ":\n\n");
  }

  lemma RefactoringEmptyIff(p: string, items: seq<CodingWorkflows.Refactoring>)
    ensures RefactoringText(p, items) == "No refactoring suggestions for " + p <==> items == []
  {
    ListReportEmptyIff(items, RefactoringEntry, "No refactoring suggestions for " + p, "Refactoring suggestions for " + p + ":\n\n");
  }

  lemma TestsEmptyIff(p: string, items: seq<CodingWorkflows.TestIdea>)
    ensures TestsText(p, items) == "No test suggestions for " + p <==> items == []
  {
    ListReportEmptyIff(items, TestEntry, "No test suggestions for " + p, "Test suggestions for " + p + ":\n\n");
  }

  lemma IssuesEmptyIff(p: string, items: seq<CodingWorkflows.Issue>)
    ensures IssuesText(p, items) == "No security issues found in " + p <==> items == []
  {
    ListReportEmptyIff(items, IssueEntry, "No security issues found in " + p, "Security issues found in " + p + ":\n\n");
  }

  lemma DocsEmptyIff(p: string, items: seq<CodingWorkflows.DocSuggestion>)
    ensures DocsText(p, items) == "No documentation suggestions for " + p <==> items == []
  {
    ListReportEmptyIff(items, DocEntry, "No documentation suggestions for " + p, "Documentation suggestions for " + p + ":\n\n");
  }

  /**
   * There is no refactoring suggestion exactly when every function has a
   * docstring, no class has more than 10 methods and there are at most 15
   * imports.
   */
  lemma NoRefactoringExactly(a: Analysis)
    ensures CodingWorkflows.Refactorings(Analyzed(a)) == [] <==>
      && (forall f :: f in a.functions ==> HasDocstring(f.docstring))
      && (forall c :: c in a.classes ==> |c.methods| <= 10)
      && |a.imports| <= 15
  {
    CountZeroIff(a.functions, CodingWorkflows.Undocumented);
    CountZeroIff(a.classes, CodingWorkflows.Crowded);
    CodingWorkflows.RefactoringsFacts(a, CodingWorkflows.OrganizeImports(0));
  }

  /** `get_code_metrics(file_path)`: nothing when the file cannot be read. */
  function MetricsText(path: string, metrics: Option<CodingWorkflows.Metrics>): string {
    match metrics
    case None => "Could not analyze metrics for " + path
    case Some(m) =>
      "Code metrics for " + path + ":\n\n"
      + "📊 Lines of Code: " + NatToString(m.linesOfCode) + "\n"
      + "📄 Total Lines: " + NatToString(m.totalLines) + "\n"
      + "📝 Comment Lines: " + NatToString(m.commentLines) + "\n"
      + "🔧 Functions: " + NatToString(m.functions) + "\n"
      + "📦 Classes: " + NatToString(m.classes) + "\n"
      + "📥 Imports: " + NatToString(m.imports) + "\n"
      + "🧠 Complexity: " + Upper(m.complexity) + "\n"
  }

  method GetCodeMetrics(fs: Fs, analyze: Analyzer, filePath: string) returns (r: string)
    ensures r == MetricsText(filePath, CodingWorkflows.CodeMetrics(fs, filePath, analyze))
  {
    var metrics := CodingWorkflows.CodeMetrics(fs, filePath, analyze);
    if metrics.None? {
      return "Could not analyze metrics for " + filePath;
    }
    var m := metrics.value;
    r := "Code metrics for " + filePath + ":\n\n";
    r := r + "📊 Lines of Code: " + NatToString(m.linesOfCode) + "\n";
    r := r + "📄 Total Lines: " + NatToString(m.totalLines) + "\n";
    r := r + "📝 Comment Lines: " + NatToString(m.commentLines) + "\n";
    r := r + "🔧 Functions: " + NatToString(m.functions) + "\n";
    r := r + "📦 Classes: " + NatToString(m.classes) + "\n";
    r := r + "📥 Imports: " + NatToString(m.imports) + "\n";
    r := r + "🧠 Complexity: " + Upper(m.complexity) + "\n";
  }

  /** The report says metrics could not be computed exactly when the file cannot be read. */
  lemma MetricsMissingExactly(fs: Fs, analyze: Analyzer, p: string)
    ensures MetricsText(p, CodingWorkflows.CodeMetrics(fs, p, analyze)) == "Could not analyze metrics for " + p
      <==> !Open(fs, p).Content?
  {
    var m := CodingWorkflows.CodeMetrics(fs, p, analyze);
    if m.Some? {
      assert MetricsText(p, m)[0] == 'C';
    }
  }

  /** A computed report ends with the upper-cased rating. */
  lemma MetricsRatingLast(p: string, m: CodingWorkflows.Metrics)
    ensures EndsWith(MetricsText(p, Some(m)), "🧠 Complexity: " + Upper(m.complexity) + "\n")
  {
    var r := MetricsText(p, Some(m));
    var tail := "🧠 Complexity: " + Upper(m.complexity) + "\n";
    assert r[|r| - |tail|..] == tail;
  }

  /** The rating shown is HIGH, MEDIUM or LOW. */
  lemma RatingWords(functions: nat, linesOfCode: nat)
    ensures Upper(CodingWorkflows.Complexity(functions, linesOfCode)) in ["HIGH", "MEDIUM", "LOW"]
  {
    var c := CodingWorkflows.Complexity(functions, linesOfCode);
    if c == "high" {
      assert Upper(c) == "HIGH";
    } else if c == "medium" {
      assert Upper(c) == "MEDIUM";
    } else {
      assert Upper(c) == "LOW";
    }
  }

  // ---------------------------------------------------------------------
  // read_and_summarize_project

  /** Not a cache directory or a compiled file. */
  predicate Relevant(f: string) {
    !Contains(f, "__pycache__") && !Contains(f, ".pyc")
  }

  /** Only the first ten relevant files are detailed. */
  const SummaryLimit: nat := 10

  /** A longer file shows only its first thousand characters. */
  const ContentLimit: nat := 1000

  function SummaryHead(overview: string): string {
    "# Project Analysis Summary\n\n" + "## Project Overview\n" + overview + "\n\n" + "## File Analysis\n\n"
  }

  function ClassItem(c: ClassInfo): string {
    "- `" + c.name + "` (line " + IntToString(c.line) + ")\n"
  }

  function FunctionItem(f: FuncInfo): string {
    "- `" + f.name + "(" + Join(", ", f.args) + ")` (line " + IntToString(f.line) + ")\n"
  }

  /** The structure lines of a file's section: nothing when the analysis failed. */
  function StructureText(result: AnalysisResult): string {
    match result
    case AnalysisError(_) => ""
    case Analyzed(a) =>
      "**Structure:** " + NatToString(a.lines) + " lines, " + NatToString(|a.functions|) + " functions, "
      + NatToString(|a.classes|) + " classes\n\n"
      + (if a.classes != [] then "**Classes:**\n" + Concat(MapStr(a.classes, ClassItem)) + "\n" else "")
      + (if a.functions != [] then "**Functions:**\n" + Concat(MapStr(a.functions, FunctionItem)) + "\n" else "")
  }

  /** The part of the content shown: `content[:1000]` for a longer file, all of it otherwise. */
  function ShownContent(text: string): string {
    if |text| > ContentLimit then text[..ContentLimit] else text
  }

  function ContentBlock(text: string): string {
    if |text| > ContentLimit then "**Content (first 1000 chars):**\n```python\n" + ShownContent(text) + "...\n```\n\n"
    else "**Content:**\n```python\n" + ShownContent(text) + "\n```\n\n"
  }

  /** One file's section: the read happens first, so an unreadable file gives only the error. */
  function FileSection(fs: Fs, analyze: Analyzer, f: string): string {
    match Open(fs, f)
    case Content(text) => "### " + f + "\n\n" + StructureText(analyze(f)) + ContentBlock(text)
    case _ => "**Error reading " + f + ":** " + OpenError(Open(fs, f), f) + "\n\n"
  }

  function SectionOf(fs: Fs, analyze: Analyzer): string -> string {
    (f: string) => FileSection(fs, analyze, f)
  }

  function MoreFilesText(count: nat): string {
    if count > SummaryLimit then "\n*... and " + NatToString(count - SummaryLimit) + " more files*\n" else ""
  }

  /** The relevant Python files of the project, in project order. */
  function RelevantFiles(files: seq<string>, glob: Glob): seq<string> {
    Filter(PatternMatches(files, "**/*.py", None, glob), Relevant)
  }

  /** `read_and_summarize_project()`, the overview text given. */
  function ProjectSummary(fs: Fs, files: seq<string>, overview: string, analyze: Analyzer, glob: Glob): string {
    var relevant := RelevantFiles(files, glob);
    SummaryHead(overview) + Concat(MapStr(PyPrefix(relevant, SummaryLimit), SectionOf(fs, analyze)))
    + MoreFilesText(|relevant|)
  }

  /** One file's section, as the loop body builds it. */
  method Section(fs: Fs, analyze: Analyzer, f: string) returns (s: string)
    ensures s == FileSection(fs, analyze, f)
  {
    var outcome := Open(fs, f);
    match outcome
    case NotFound | IsADirectory | NotADirectory => s := "**Error reading " + f + ":** " + OpenError(outcome, f) + "\n\n";
    case Content(text) =>
      var structure := Structure(analyze(f));
      s := "### " + f + "\n\n" + structure + ContentBlock(text);
  }

  /** The structure lines of one analysis. */
  method Structure(analysis: AnalysisResult) returns (t: string)
    ensures t == StructureText(analysis)
  {
    if analysis.AnalysisError? {
      return "";
    }
    var a := analysis.record;
    var classes := "";
    if a.classes != [] {
      var items := ConcatEach(a.classes, ClassItem);
      classes := "**Classes:**\n" + items + "\n";
    }
    var functions := "";
    if a.functions != [] {
      var items := ConcatEach(a.functions, FunctionItem);
      functions := "**Functions:**\n" + items + "\n";
    }
    t := "**Structure:** " + NatToString(a.lines) + " lines, " + NatToString(|a.functions|) + " functions, "
      + NatToString(|a.classes|) + " classes\n\n" + classes + functions;
  }

  method ReadAndSummarizeProject(tools: ET.EnhancedTools, fs: Fs, overview: string, analyze: Analyzer, glob: Glob)
    returns (r: string)
    requires tools.context.structure.Some?
    ensures r == ProjectSummary(fs, tools.context.structure.value.files, overview, analyze, glob)
  {
    var pythonFiles := tools.context.FindFilesByPattern("**/*.py", None, glob);
    var relevant := Filter(pythonFiles, Relevant);
    var detailed := PyPrefix(relevant, SummaryLimit);
    var sections := "";
    for i := 0 to |detailed|
      invariant sections == Concat(MapStr(detailed[..i], SectionOf(fs, analyze)))
    {
      var s := Section(fs, analyze, detailed[i]);
      ConcatMapSnoc(detailed, SectionOf(fs, analyze), i);
      sections := sections + s;
    }
    assert detailed[..|detailed|] == detailed;
    r := SummaryHead(overview) + sections + MoreFilesText(|relevant|);
  }

  /**
   * At most ten files are detailed, the first relevant ones in order, each a
   * project Python file outside any cache; all of them when there are no more.
   */
  lemma SummaryFiles(files: seq<string>, glob: Glob)
    ensures var relevant := RelevantFiles(files, glob);
      var detailed := PyPrefix(relevant, SummaryLimit);
      && |detailed| <= SummaryLimit && detailed == relevant[..|detailed|]
      && (forall f :: f in detailed ==> f in files && glob(f, "**/*.py") && Relevant(f))
      && (|relevant| <= SummaryLimit ==> detailed == relevant)
  {
    var relevant := RelevantFiles(files, glob);
    var detailed := PyPrefix(relevant, SummaryLimit);
    forall f | f in detailed ensures f in files && glob(f, "**/*.py") && Relevant(f) {
      var k :| 0 <= k < |detailed| && detailed[k] == f;
      assert relevant[k] == f;
      PatternMatchesSelect(files, "**/*.py", None, glob, f);
    }
  }

  /** The trailer appears exactly when relevant files are left undetailed, and counts them. */
  lemma SummaryTrailer(relevant: seq<string>)
    ensures var detailed := PyPrefix(relevant, SummaryLimit);
      && (MoreFilesText(|relevant|) == "" <==> |detailed| == |relevant|)
      && (|detailed| < |relevant| ==>
            MoreFilesText(|relevant|) == "\n*... and " + NatToString(|relevant| - |detailed|) + " more files*\n")
  {
    var detailed := PyPrefix(relevant, SummaryLimit);
    if |relevant| > SummaryLimit {
      assert |detailed| == SummaryLimit;
      assert MoreFilesText(|relevant|)[0] == '\n';
    }
  }

  /** A long file shows only its first thousand characters; a shorter one shows whole. */
  lemma ContentCapped(text: string)
    ensures |ShownContent(text)| <= ContentLimit && StartsWith(text, ShownContent(text))
    ensures ShownContent(text) == text <==> |text| <= ContentLimit
  {
  }
}
