/**
 * `CodingWorkflows`: language detection, the line-based smell scan and
 * metrics, the security scan, and the suggestion lists built from the
 * analyser's record.  Files are read from a `FileSystem.Fs`; the analyser
 * and the regular-expression searches of the security scan are inputs.
 */
module CodingWorkflows {
  import opened Json
  import opened Text
  import opened FileSystem
  import opened CodeAnalysis
  import ProjectContext

  // ---------------------------------------------------------------------
  // Language detection

  /** The extension table of `detect_language`, keyed by lower-cased suffix. */
  const LanguageMap: map<string, string> := map[
    ".py" := "python", ".js" := "javascript", ".ts" := "typescript", ".tsx" := "typescript",
    ".jsx" := "javascript", ".java" := "java", ".cpp" := "cpp", ".c" := "c", ".go" := "go",
    ".rs" := "rust", ".php" := "php", ".rb" := "ruby", ".swift" := "swift", ".kt" := "kotlin"
  ]

  /** `detect_language`: the language of the lower-cased suffix, or "unknown". */
  function DetectLanguage(filePath: string): (r: string)
    ensures r == "unknown" <==> ProjectContext.Extension(filePath) !in LanguageMap
    ensures r in LanguageMap.Values || r == "unknown"
  {
    var ext := ProjectContext.Extension(filePath);
    if ext in LanguageMap then LanguageMap[ext] else "unknown"
  }

  // ---------------------------------------------------------------------
  // Regular expressions of the smell scan

  /** `\w`, restricted to ASCII: letters, digits and '_'. */
  predicate IsWordChar(c: char) {
    'a' <= c <= 'z' || 'A' <= c <= 'Z' || '0' <= c <= '9' || c == '_'
  }

  /** The length of the longest prefix of `s` whose characters all satisfy `p`. */
  function RunLength(s: string, p: char -> bool): (n: nat)
    ensures n <= |s|
    decreases |s|
  {
    if s != [] && p(s[0]) then 1 + RunLength(s[1..], p) else 0
  }

  /** The run is the longest prefix of characters satisfying `p`. */
  lemma {:induction false} RunLengthMaximal(s: string, p: char -> bool)
    ensures forall k :: 0 <= k < RunLength(s, p) ==> p(s[k])
    ensures RunLength(s, p) < |s| ==> !p(s[RunLength(s, p)])
    decreases |s|
  {
    if s != [] && p(s[0]) {
      RunLengthMaximal(s[1..], p);
    }
  }

  /**
   * `re.match(r'^def\s+(\w+)', s)`: the captured name, or `None`.  The
   * greedy `\s+` cannot give characters back to `\w+`, so the name is the
   * whole word run after the whole blank run.
   */
  function DefName(s: string): Option<string> {
    if !StartsWith(s, "def") then None
    else
      var gap := RunLength(s[3..], IsSpace);
      var rest := s[3 + gap..];
      var w := RunLength(rest, IsWordChar);
      if gap == 0 || w == 0 then None else Some(rest[..w])
  }

  /**
   * A match is "def", a blank, then a non-empty word; "def " followed by a
   * word character always matches.
   */
  lemma DefNameShape(s: string)
    ensures DefName(s).Some? ==> |s| > 3 && s[..3] == "def" && IsSpace(s[3])
    ensures DefName(s).Some? ==> DefName(s).value != [] && forall k :: 0 <= k < |DefName(s).value| ==> IsWordChar(DefName(s).value[k])
    ensures |s| > 4 && s[..4] == "def " && IsWordChar(s[4]) ==> DefName(s).Some?
  {
    if StartsWith(s, "def") {
      var gap := RunLength(s[3..], IsSpace);
      RunLengthMaximal(s[3..], IsSpace);
      var rest := s[3 + gap..];
      RunLengthMaximal(rest, IsWordChar);
      if |s| > 4 && s[..4] == "def " && IsWordChar(s[4]) {
        assert IsSpace(s[3..][0]);
        assert gap > 0;
        assert !IsWordChar(' ');
        assert forall c :: IsSpace(c) ==> !IsWordChar(c);
        assert s[3..][gap..] == rest;
      }
    }
  }

  // ---------------------------------------------------------------------
  // Code smells

  /**
   * One smell record.  Each kind keeps the line (1-based) and the data its
   * message is built from; `SmellType`, `SmellMessage` and `SmellSeverity`
   * give the record's "type", "message" and "severity" texts.
   */
  datatype Smell =
    | LongFunction(line: nat, name: string, length: nat)
    | DeepNesting(line: nat, level: int)
    | TodoComment(line: nat, text: string)
    | LongLine(line: nat, length: nat)
    | DuplicateFunction(line: nat, name: string)

  function SmellType(s: Smell): string {
    match s
    case LongFunction(_, _, _) => "long_function"
    case DeepNesting(_, _) => "deep_nesting"
    case TodoComment(_, _) => "todo_comment"
    case LongLine(_, _) => "long_line"
    case DuplicateFunction(_, _) => "duplicate_function"
  }

  function SmellMessage(s: Smell): string {
    match s
    case LongFunction(_, name, length) => "Function '" + name + "' is " + NatToString(length) + " lines long"
    case DeepNesting(_, level) => "Deep nesting detected (level " + IntToString(level) + ")"
    case TodoComment(_, text) => "TODO/FIXME comment: " + Strip(text)
    case LongLine(_, length) => "Line is " + NatToString(length) + " characters long"
    case DuplicateFunction(_, name) => "Function '" + name + "' appears to be duplicated"
  }

  function SmellSeverity(s: Smell): string {
    match s
    case TodoComment(_, _) => "info"
    case DuplicateFunction(_, _) => "error"
    case _ => "warning"
  }

  /** `len(line) - len(line.lstrip())` */
  function Indent(line: string): int {
    |line| - |LStrip(line)|
  }

  /** What the function pass and the duplicate pass see on one line. */
  datatype LineClass = DefLine(name: string) | NestedLine(level: int) | OtherLine

  /**
   * A line opening a function (the stripped line matches the def pattern), or
   * a non-blank, non-comment line indented more than 20 with its nesting
   * level `indent // 4`, or neither.
   */
  function Classify(line: string): LineClass {
    var stripped := Strip(line);
    var name := DefName(stripped);
    if name.Some? then DefLine(name.value)
    else if stripped != "" && !StartsWith(stripped, "#") && Indent(line) > 20 then NestedLine(Indent(line) / 4)
    else OtherLine
  }

  function Classes(lines: seq<string>): (cs: seq<LineClass>)
    ensures |cs| == |lines|
    ensures forall k :: 0 <= k < |lines| ==> cs[k] == Classify(lines[k])
  {
    seq(|lines|, k requires 0 <= k < |lines| => Classify(lines[k]))
  }

  /** The state of the function pass: the current function, the line it starts on, and the smells so far. */
  datatype FunctionPass = FunctionPass(current: Option<string>, start: nat, smells: seq<Smell>)

  /** One line (number `n`) of the function pass. */
  function FunctionStep(st: FunctionPass, n: nat, c: LineClass): FunctionPass {
    match c
    case DefLine(name) =>
      FunctionPass(Some(name), n, st.smells +
        if st.current.Some? && n - st.start > 50 then [LongFunction(st.start, st.current.value, n - st.start)] else [])
    case NestedLine(level) =>
      if st.current.Some? then st.(smells := st.smells + [DeepNesting(n, level)]) else st
    case OtherLine => st
  }

  /** The function pass over the classified lines, numbered from 1. */
  function FunctionScan(cs: seq<LineClass>): FunctionPass
    decreases |cs|
  {
    if cs == [] then FunctionPass(None, 0, [])
    else FunctionStep(FunctionScan(cs[..|cs| - 1]), |cs|, cs[|cs| - 1])
  }

  /** Line `n` (1-based) opens a function. */
  predicate IsDefAt(cs: seq<LineClass>, n: int) {
    1 <= n <= |cs| && cs[n - 1].DefLine?
  }

  /** Dropping the last line keeps the def lines before it. */
  lemma DefsOfPrefix(cs: seq<LineClass>)
    requires cs != []
    ensures forall m :: IsDefAt(cs[..|cs| - 1], m) <==> IsDefAt(cs, m) && m < |cs|
  {
  }

  /** No function opens strictly between lines `a` and `b`. */
  predicate NoDefBetween(cs: seq<LineClass>, a: int, b: int) {
    forall m :: a < m < b ==> !IsDefAt(cs, m)
  }

  /** The pass remembers the last function opened so far, or none. */
  lemma {:induction false} FunctionScanState(cs: seq<LineClass>)
    ensures var st := FunctionScan(cs);
      && (st.current.None? ==> st.start == 0 && forall n :: !IsDefAt(cs, n))
      && (st.current.Some? ==> IsDefAt(cs, st.start) && st.current.value == cs[st.start - 1].name
                               && NoDefBetween(cs, st.start, |cs| + 1))
    decreases |cs|
  {
    if cs != [] {
      FunctionScanState(cs[..|cs| - 1]);
      DefsOfPrefix(cs);
    }
  }

  /** Dropping the last line keeps a gap that ends before it. */
  lemma NoDefBetweenPrefix(cs: seq<LineClass>, a: int, b: int)
    requires cs != [] && b <= |cs|
    ensures NoDefBetween(cs[..|cs| - 1], a, b) <==> NoDefBetween(cs, a, b)
  {
    var init := cs[..|cs| - 1];
    if NoDefBetween(init, a, b) {
      forall m | a < m < b
        ensures !IsDefAt(cs, m)
      {
        assert !IsDefAt(init, m);
        if 1 <= m {
          assert init[m - 1] == cs[m - 1];
        }
      }
    }
    if NoDefBetween(cs, a, b) {
      forall m | a < m < b
        ensures !IsDefAt(init, m)
      {
        assert !IsDefAt(cs, m);
        if 1 <= m {
          assert init[m - 1] == cs[m - 1];
        }
      }
    }
  }

  /** One more line keeps every smell reported so far. */
  lemma FunctionScanGrows(cs: seq<LineClass>)
    requires cs != []
    ensures forall s :: s in FunctionScan(cs[..|cs| - 1]).smells ==> s in FunctionScan(cs).smells
  {
  }

  /**
   * A long_function smell is reported for a function opening at line `a`
   * exactly when the next function opens more than 50 lines later, at
   * `a + length`; it carries the function's name.  The last function of a
   * file is never reported.
   */
  lemma {:induction false} LongFunctionIff(cs: seq<LineClass>, s: Smell)
    requires s.LongFunction?
    ensures s in FunctionScan(cs).smells <==>
      IsDefAt(cs, s.line) && s.name == cs[s.line - 1].name && s.length > 50
      && IsDefAt(cs, s.line + s.length) && NoDefBetween(cs, s.line, s.line + s.length)
    decreases |cs|
  {
    if cs != [] {
      var init := cs[..|cs| - 1];
      var n := |cs|;
      var st0 := FunctionScan(init);
      var b := s.line + s.length;
      LongFunctionIff(init, s);
      FunctionScanState(init);
      DefsOfPrefix(cs);
      FunctionScanGrows(cs);
      if b < n {
        NoDefBetweenPrefix(cs, s.line, b);
      }
      if s in FunctionScan(cs).smells && s !in st0.smells {
        assert cs[n - 1].DefLine? && st0.current.Some?;
        assert s == LongFunction(st0.start, st0.current.value, n - st0.start);
        NoDefBetweenPrefix(cs, st0.start, n);
      }
      if IsDefAt(cs, s.line) && s.name == cs[s.line - 1].name && s.length > 50
         && IsDefAt(cs, b) && NoDefBetween(cs, s.line, b) {
        assert IsDefAt(init, s.line) && init[s.line - 1] == cs[s.line - 1];
        if b == n {
          assert st0.current.Some?;
          assert IsDefAt(cs, st0.start);
          assert st0.start == s.line;
        } else {
          assert IsDefAt(init, b);
        }
      }
    }
  }

  /**
   * A deep_nesting smell is reported for line `n` exactly when that line is
   * a nested line (not a def, blank or comment, indented more than 20) with
   * the smell's level, and some function opened before it.
   */
  lemma {:induction false} DeepNestingIff(cs: seq<LineClass>, s: Smell)
    requires s.DeepNesting?
    ensures s in FunctionScan(cs).smells <==>
      1 <= s.line <= |cs| && cs[s.line - 1] == NestedLine(s.level) && exists a :: 1 <= a < s.line && IsDefAt(cs, a)
    decreases |cs|
  {
    if cs != [] {
      var init := cs[..|cs| - 1];
      var n := |cs|;
      var st0 := FunctionScan(init);
      DeepNestingIff(init, s);
      FunctionScanState(init);
      DefsOfPrefix(cs);
      FunctionScanGrows(cs);
      if s in st0.smells {
        var a :| 1 <= a < s.line && IsDefAt(init, a);
        assert IsDefAt(cs, a) && init[s.line - 1] == cs[s.line - 1];
      } else if s in FunctionScan(cs).smells {
        assert st0.current.Some? && s == DeepNesting(n, cs[n - 1].level);
        assert IsDefAt(cs, st0.start);
      }
      if 1 <= s.line <= n && cs[s.line - 1] == NestedLine(s.level) && exists a :: 1 <= a < s.line && IsDefAt(cs, a) {
        var a :| 1 <= a < s.line && IsDefAt(cs, a);
        assert IsDefAt(init, a);
        if s.line < n {
          assert init[s.line - 1] == cs[s.line - 1];
        }
      }
    }
  }

  /** The smells the function pass reports are long functions and deep nesting only. */
  lemma {:induction false} FunctionScanKinds(cs: seq<LineClass>)
    ensures forall s :: s in FunctionScan(cs).smells ==> s.LongFunction? || s.DeepNesting?
    decreases |cs|
  {
    if cs != [] {
      FunctionScanKinds(cs[..|cs| - 1]);
    }
  }

  /** The words the TODO pass looks for, in lower case (the search ignores case). */
  const TodoWords: seq<string> := ["todo", "fixme", "hack", "xxx"]

  /**
   * What `re.IGNORECASE` compares with a lower-case ASCII letter: the
   * character's simple lower case, which is "i" for U+0130 and "k" for the
   * Kelvin sign U+212A, with U+0131 also matching "i" and U+017F "s".
   */
  function FoldChar(c: char): (r: char)
    ensures c < '\U{80}' ==> r == LowerChar(c)
  {
    if c == '\U{130}' || c == '\U{131}' then 'i'
    else if c == '\U{17F}' then 's'
    else if c == '\U{212A}' then 'k'
    else LowerChar(c)
  }

  function CaseFold(s: string): (r: string)
    ensures |r| == |s|
    ensures forall i :: 0 <= i < |s| ==> r[i] == FoldChar(s[i])
  {
    seq(|s|, i requires 0 <= i < |s| => FoldChar(s[i]))
  }

  /** On ASCII text the folding is plain lower-casing. */
  lemma CaseFoldAscii(s: string)
    requires forall i :: 0 <= i < |s| ==> s[i] < '\U{80}'
    ensures CaseFold(s) == Lower(s)
  {
  }

  /** The Kelvin sign and the dotted capital I complete a marker as Python's search finds it. */
  lemma TodoFolds(a: string, b: string)
    ensures Contains(CaseFold(a + "HAC\U{212A}" + b), "hack")
    ensures Contains(CaseFold(a + "F\U{130}XME" + b), "fixme")
  {
    var h := CaseFold(a + "HAC\U{212A}" + b);
    assert h[|a|..|a| + 4] == "hack";
    assert OccursAt(h, "hack", |a|);
    ContainsOccurrence(h, "hack", |a|);
    var m := CaseFold(a + "F\U{130}XME" + b);
    assert m[|a|..|a| + 5] == "fixme";
    assert OccursAt(m, "fixme", |a|);
    ContainsOccurrence(m, "fixme", |a|);
  }

  predicate IsTodoEntry(e: (nat, string)) {
    ContainsAny(CaseFold(e.1), TodoWords)
  }

  function TodoEntrySmell(e: (nat, string)): Smell {
    TodoComment(e.0, e.1)
  }

  predicate IsLongEntry(e: (nat, string)) {
    |e.1| > 120
  }

  function LongEntrySmell(e: (nat, string)): Smell {
    LongLine(e.0, |e.1|)
  }

  /** The TODO pass: one smell per line mentioning TODO, FIXME, HACK or XXX in any case. */
  function TodoSmells(lines: seq<string>): seq<Smell> {
    Select(Numbered(lines), IsTodoEntry, TodoEntrySmell)
  }

  /** The long-line pass. */
  function LongLineSmells(lines: seq<string>): seq<Smell> {
    Select(Numbered(lines), IsLongEntry, LongEntrySmell)
  }

  /** A long_line smell names a line longer than 120 characters and its length, and every such line has one. */
  lemma LongLineIff(lines: seq<string>, s: Smell)
    ensures s in LongLineSmells(lines) <==>
      s.LongLine? && 1 <= s.line <= |lines| && |lines[s.line - 1]| > 120 && s.length == |lines[s.line - 1]|
  {
    SelectIff(Numbered(lines), IsLongEntry, LongEntrySmell, s);
    if s.LongLine? && 1 <= s.line <= |lines| && |lines[s.line - 1]| > 120 && s.length == |lines[s.line - 1]| {
      assert Numbered(lines)[s.line - 1] in Numbered(lines);
    }
  }

  /** A todo_comment smell names a line with one of the four words, in any case, and every such line has one. */
  lemma TodoIff(lines: seq<string>, s: Smell)
    ensures s in TodoSmells(lines) <==>
      s.TodoComment? && 1 <= s.line <= |lines| && s.text == lines[s.line - 1] && ContainsAny(CaseFold(s.text), TodoWords)
  {
    SelectIff(Numbered(lines), IsTodoEntry, TodoEntrySmell, s);
    if s.TodoComment? && 1 <= s.line <= |lines| && s.text == lines[s.line - 1] && ContainsAny(CaseFold(s.text), TodoWords) {
      assert Numbered(lines)[s.line - 1] in Numbered(lines);
    }
  }

  /** The names of the functions opened so far (the keys of `function_patterns`). */
  function DefNames(cs: seq<LineClass>): set<string>
    decreases |cs|
  {
    if cs == [] then {}
    else
      var c := cs[|cs| - 1];
      DefNames(cs[..|cs| - 1]) + if c.DefLine? then {c.name} else {}
  }

  /** The duplicate pass: a def line whose name an earlier def line already used. */
  function DuplicateSmells(cs: seq<LineClass>): seq<Smell>
    decreases |cs|
  {
    if cs == [] then []
    else
      var init := cs[..|cs| - 1];
      var c := cs[|cs| - 1];
      DuplicateSmells(init) + if c.DefLine? && c.name in DefNames(init) then [DuplicateFunction(|cs|, c.name)] else []
  }

  lemma {:induction false} DefNamesIff(cs: seq<LineClass>, name: string)
    ensures name in DefNames(cs) <==> exists m :: IsDefAt(cs, m) && cs[m - 1].name == name
    decreases |cs|
  {
    if cs != [] {
      var init := cs[..|cs| - 1];
      var n := |cs|;
      DefNamesIff(init, name);
      DefsOfPrefix(cs);
      if name in DefNames(cs) {
        if name in DefNames(init) {
          var m :| IsDefAt(init, m) && init[m - 1].name == name;
          assert IsDefAt(cs, m) && cs[m - 1] == init[m - 1];
        } else {
          assert IsDefAt(cs, n) && cs[n - 1].name == name;
        }
      }
      if m :| IsDefAt(cs, m) && cs[m - 1].name == name {
        if m < n {
          assert IsDefAt(init, m) && init[m - 1] == cs[m - 1];
        }
      }
    }
  }

  /**
   * A def line yields a duplicate_function smell at that line exactly when
   * an earlier def line has the same name.
   */
  lemma {:induction false} DuplicateIff(cs: seq<LineClass>, s: Smell)
    requires s.DuplicateFunction?
    ensures s in DuplicateSmells(cs) <==>
      IsDefAt(cs, s.line) && cs[s.line - 1].name == s.name
      && exists m :: 1 <= m < s.line && IsDefAt(cs, m) && cs[m - 1].name == s.name
    decreases |cs|
  {
    if cs != [] {
      var init := cs[..|cs| - 1];
      var n := |cs|;
      var c := cs[n - 1];
      DuplicateIff(init, s);
      DefsOfPrefix(cs);
      if c.DefLine? {
        DefNamesIff(init, c.name);
      }
      if s in DuplicateSmells(init) {
        var m :| 1 <= m < s.line && IsDefAt(init, m) && init[m - 1].name == s.name;
        assert IsDefAt(cs, m) && cs[m - 1] == init[m - 1];
        assert init[s.line - 1] == cs[s.line - 1];
      } else if s in DuplicateSmells(cs) {
        assert c.DefLine? && c.name in DefNames(init) && s == DuplicateFunction(n, c.name);
        var m :| IsDefAt(init, m) && init[m - 1].name == c.name;
        assert IsDefAt(cs, m) && cs[m - 1] == init[m - 1];
      }
      if IsDefAt(cs, s.line) && cs[s.line - 1].name == s.name
         && exists m :: 1 <= m < s.line && IsDefAt(cs, m) && cs[m - 1].name == s.name {
        var m :| 1 <= m < s.line && IsDefAt(cs, m) && cs[m - 1].name == s.name;
        assert IsDefAt(init, m) && init[m - 1] == cs[m - 1];
        if s.line < n {
          assert IsDefAt(init, s.line) && init[s.line - 1] == cs[s.line - 1];
        }
      }
    }
  }

  /** `find_code_smells` on a readable file: the four passes, in order. */
  function SmellsOf(lines: seq<string>, python: bool): seq<Smell> {
    (if python then FunctionScan(Classes(lines)).smells else []) + TodoSmells(lines) + LongLineSmells(lines)
    + (if python then DuplicateSmells(Classes(lines)) else [])
  }

  /** `find_code_smells`: nothing when the file cannot be read. */
  function CodeSmells(fs: Fs, filePath: string): seq<Smell> {
    match Open(fs, filePath)
    case Content(text) => SmellsOf(SplitLines(text), DetectLanguage(filePath) == "python")
    case _ => []
  }

  /**
   * Each smell kind comes from its own pass: the long_line smells of a file
   * are exactly those of the long-line pass in every language, and the
   * duplicate_function, long_function and deep_nesting smells are those of
   * their passes in a Python file and absent elsewhere.
   */
  lemma SmellKinds(lines: seq<string>, python: bool, s: Smell)
    ensures s.LongLine? ==> (s in SmellsOf(lines, python) <==> s in LongLineSmells(lines))
    ensures s.TodoComment? ==> (s in SmellsOf(lines, python) <==> s in TodoSmells(lines))
    ensures s.DuplicateFunction? ==> (s in SmellsOf(lines, python) <==> python && s in DuplicateSmells(Classes(lines)))
    ensures s.LongFunction? || s.DeepNesting? ==>
      (s in SmellsOf(lines, python) <==> python && s in FunctionScan(Classes(lines)).smells)
  {
    var cs := Classes(lines);
    FunctionScanKinds(cs);
    SelectIff(Numbered(lines), IsTodoEntry, TodoEntrySmell, s);
    SelectIff(Numbered(lines), IsLongEntry, LongEntrySmell, s);
    if s.DuplicateFunction? {
      DuplicateIff(cs, s);
    } else if s in DuplicateSmells(cs) {
      DuplicateSmellsKind(cs, s);
    }
  }

  lemma {:induction false} DuplicateSmellsKind(cs: seq<LineClass>, s: Smell)
    requires s in DuplicateSmells(cs)
    ensures s.DuplicateFunction?
    decreases |cs|
  {
    if s in DuplicateSmells(cs[..|cs| - 1]) {
      DuplicateSmellsKind(cs[..|cs| - 1], s);
    }
  }

  /** `find_code_smells`: the function pass, the TODO pass, the long-line pass and the duplicate pass. */
  method FindCodeSmells(fs: Fs, filePath: string) returns (smells: seq<Smell>)
    ensures smells == CodeSmells(fs, filePath)
  {
    var read := Open(fs, filePath);
    if !read.Content? {
      return [];
    }
    var lines := SplitLines(read.text);
    var python := DetectLanguage(filePath) == "python";
    smells := [];
    if python {
      smells := FunctionSmells(lines);
    }
    var numbered := Numbered(lines);
    var todos := Collect(numbered, IsTodoEntry, TodoEntrySmell);
    var longLines := Collect(numbered, IsLongEntry, LongEntrySmell);
    smells := smells + todos + longLines;
    if python {
      var duplicates := DuplicatePass(lines);
      smells := smells + duplicates;
    }
  }

  /** The function pass: long functions and deep nesting inside a function. */
  method FunctionSmells(lines: seq<string>) returns (smells: seq<Smell>)
    ensures smells == FunctionScan(Classes(lines)).smells
  {
    ghost var cs := Classes(lines);
    smells := [];
    var currentFunction: Option<string> := None;
    var functionStart: nat := 0;
    for i := 0 to |lines|
      invariant FunctionScan(cs[..i]) == FunctionPass(currentFunction, functionStart, smells)
    {
      assert cs[..i + 1][..i] == cs[..i];
      currentFunction, functionStart, smells := FunctionLine(currentFunction, functionStart, smells, i + 1, lines[i]);
    }
    assert cs[..|lines|] == cs;
  }

  /** One line (number `n`) of the function pass. */
  method FunctionLine(currentFunction: Option<string>, functionStart: nat, smells: seq<Smell>, n: nat, line: string)
    returns (currentFunction': Option<string>, functionStart': nat, smells': seq<Smell>)
    ensures FunctionPass(currentFunction', functionStart', smells')
         == FunctionStep(FunctionPass(currentFunction, functionStart, smells), n, Classify(line))
  {
    currentFunction', functionStart', smells' := currentFunction, functionStart, smells;
    var stripped := Strip(line);
    var name := DefName(stripped);
    if name.Some? {
      if currentFunction.Some? && n - functionStart > 50 {
        smells' := smells + [LongFunction(functionStart, currentFunction.value, n - functionStart)];
      }
      currentFunction' := name;
      functionStart' := n;
    } else if stripped != "" && !StartsWith(stripped, "#") && currentFunction.Some? {
      var indentLevel := |line| - |LStrip(line)|;
      if indentLevel > 20 {
        smells' := smells + [DeepNesting(n, indentLevel / 4)];
      }
    }
  }

  /** The duplicate pass, remembering the line of each function name in `functionPatterns`. */
  method DuplicatePass(lines: seq<string>) returns (smells: seq<Smell>)
    ensures smells == DuplicateSmells(Classes(lines))
  {
    ghost var cs := Classes(lines);
    smells := [];
    var functionPatterns: map<string, nat> := map[];
    for i := 0 to |lines|
      invariant smells == DuplicateSmells(cs[..i])
      invariant functionPatterns.Keys == DefNames(cs[..i])
    {
      assert cs[..i + 1][..i] == cs[..i];
      var name := DefName(Strip(lines[i]));
      if name.Some? {
        if name.value in functionPatterns {
          smells := smells + [DuplicateFunction(i + 1, name.value)];
        }
        functionPatterns := functionPatterns[name.value := i + 1];
      }
    }
    assert cs[..|lines|] == cs;
  }

  // ---------------------------------------------------------------------
  // Refactoring suggestions

  /**
   * One refactoring suggestion, with the data its texts are built from;
   * `RefactoringType`, `RefactoringTarget`, `RefactoringLine`,
   * `RefactoringMessage` and `RefactoringPriority` give the record's fields.
   */
  datatype Refactoring =
    | AddDocstring(name: string, line: int)
    | SplitClass(name: string, line: int, methods: nat)
    | OrganizeImports(count: nat)

  function RefactoringType(r: Refactoring): string {
    match r
    case AddDocstring(_, _) => "add_docstring"
    case SplitClass(_, _, _) => "split_class"
    case OrganizeImports(_) => "organize_imports"
  }

  function RefactoringTarget(r: Refactoring): string {
    match r
    case AddDocstring(name, _) => name
    case SplitClass(name, _, _) => name
    case OrganizeImports(_) => "imports"
  }

  function RefactoringLine(r: Refactoring): int {
    match r
    case AddDocstring(_, line) => line
    case SplitClass(_, line, _) => line
    case OrganizeImports(_) => 1
  }

  function RefactoringMessage(r: Refactoring): string {
    match r
    case AddDocstring(name, _) => "Add docstring to function '" + name + "'"
    case SplitClass(name, _, methods) => "Class '" + name + "' has " + NatToString(methods) + " methods, consider splitting"
    case OrganizeImports(count) => "File has " + NatToString(count) + " imports, consider organizing them"
  }

  function RefactoringPriority(r: Refactoring): string {
    match r
    case AddDocstring(_, _) => "medium"
    case SplitClass(_, _, _) => "high"
    case OrganizeImports(_) => "low"
  }

  predicate Undocumented(f: FuncInfo) {
    !HasDocstring(f.docstring)
  }

  function DocstringFor(f: FuncInfo): Refactoring {
    AddDocstring(f.name, f.line)
  }

  predicate Crowded(c: ClassInfo) {
    |c.methods| > 10
  }

  function SplitFor(c: ClassInfo): Refactoring {
    SplitClass(c.name, c.line, |c.methods|)
  }

  /** `suggest_refactoring` as a value: nothing on an analysis error. */
  function Refactorings(result: AnalysisResult): seq<Refactoring> {
    match result
    case AnalysisError(_) => []
    case Analyzed(a) =>
      Select(a.functions, Undocumented, DocstringFor) + Select(a.classes, Crowded, SplitFor)
      + if |a.imports| > 15 then [OrganizeImports(|a.imports|)] else []
  }

  /**
   * One medium-priority docstring suggestion per undocumented function, one
   * high-priority split per class with more than 10 methods, then one
   * low-priority import suggestion when there are more than 15 imports.
   */
  lemma RefactoringsFacts(a: Analysis, r: Refactoring)
    ensures |Refactorings(Analyzed(a))| ==
      Count(a.functions, Undocumented) + Count(a.classes, Crowded) + if |a.imports| > 15 then 1 else 0
    ensures r in Refactorings(Analyzed(a)) <==>
      (exists f :: f in a.functions && !HasDocstring(f.docstring) && r == DocstringFor(f))
      || (exists c :: c in a.classes && |c.methods| > 10 && r == SplitFor(c))
      || (|a.imports| > 15 && r == OrganizeImports(|a.imports|))
  {
    SelectLength(a.functions, Undocumented, DocstringFor);
    SelectLength(a.classes, Crowded, SplitFor);
    SelectIff(a.functions, Undocumented, DocstringFor, r);
    SelectIff(a.classes, Crowded, SplitFor, r);
  }

  /** `suggest_refactoring` */
  method SuggestRefactoring(analyze: Analyzer, filePath: string) returns (suggestions: seq<Refactoring>)
    ensures suggestions == Refactorings(analyze(filePath))
  {
    var analysis := analyze(filePath);
    if analysis.AnalysisError? {
      return [];
    }
    var a := analysis.record;
    var docstrings := Collect(a.functions, Undocumented, DocstringFor);
    var splits := Collect(a.classes, Crowded, SplitFor);
    suggestions := docstrings + splits;
    if |a.imports| > 15 {
      suggestions := suggestions + [OrganizeImports(|a.imports|)];
    }
  }

  // ---------------------------------------------------------------------
  // Test suggestions

  /**
   * One test suggestion, for the function or class it names; `TestType`,
   * `TestMessage`, `TestPriority` and `TestSkeleton` give the record's
   * "type", "message", "priority" and "suggestion" texts.
   */
  datatype TestIdea = UnitTest(target: string) | IntegrationTest(target: string)

  function TestType(t: TestIdea): string {
    match t
    case UnitTest(_) => "unit_test"
    case IntegrationTest(_) => "integration_test"
  }

  function TestMessage(t: TestIdea): string {
    match t
    case UnitTest(name) => "Create unit test for function '" + name + "'"
    case IntegrationTest(name) => "Create integration test for class '" + name + "'"
  }

  function TestPriority(t: TestIdea): string {
    match t
    case UnitTest(_) => "high"
    case IntegrationTest(_) => "medium"
  }

  function TestSkeleton(t: TestIdea): string {
    match t
    case UnitTest(name) => "def test_" + name + "():\n    # Test " + name + "\n    pass"
    case IntegrationTest(name) => "def test_" + Lower(name) + "_integration():\n    # Test " + name + " integration\n    pass"
  }

  predicate NeedsUnitTest(f: FuncInfo) {
    !StartsWith(f.name, "_") && !StartsWith(f.name, "test")
  }

  function UnitTestFor(f: FuncInfo): TestIdea {
    UnitTest(f.name)
  }

  predicate NeedsIntegrationTest(c: ClassInfo) {
    !StartsWith(c.name, "_")
  }

  function IntegrationTestFor(c: ClassInfo): TestIdea {
    IntegrationTest(c.name)
  }

  /** `generate_test_suggestions` as a value: nothing on an analysis error. */
  function TestIdeas(result: AnalysisResult): seq<TestIdea> {
    match result
    case AnalysisError(_) => []
    case Analyzed(a) => Select(a.functions, NeedsUnitTest, UnitTestFor) + Select(a.classes, NeedsIntegrationTest, IntegrationTestFor)
  }

  /**
   * A high-priority unit test for each function whose name starts with
   * neither '_' nor "test", then a medium-priority integration test for each
   * class whose name does not start with '_'.
   */
  lemma TestIdeasFacts(a: Analysis, t: TestIdea)
    ensures |TestIdeas(Analyzed(a))| == Count(a.functions, NeedsUnitTest) + Count(a.classes, NeedsIntegrationTest)
    ensures t in TestIdeas(Analyzed(a)) <==>
      (exists f :: f in a.functions && !StartsWith(f.name, "_") && !StartsWith(f.name, "test") && t == UnitTestFor(f))
      || (exists c :: c in a.classes && !StartsWith(c.name, "_") && t == IntegrationTestFor(c))
  {
    SelectLength(a.functions, NeedsUnitTest, UnitTestFor);
    SelectLength(a.classes, NeedsIntegrationTest, IntegrationTestFor);
    SelectIff(a.functions, NeedsUnitTest, UnitTestFor, t);
    SelectIff(a.classes, NeedsIntegrationTest, IntegrationTestFor, t);
  }

  /** `generate_test_suggestions` */
  method GenerateTestSuggestions(analyze: Analyzer, filePath: string) returns (suggestions: seq<TestIdea>)
    ensures suggestions == TestIdeas(analyze(filePath))
  {
    var analysis := analyze(filePath);
    if analysis.AnalysisError? {
      return [];
    }
    var a := analysis.record;
    var unitTests := Collect(a.functions, NeedsUnitTest, UnitTestFor);
    var integrationTests := Collect(a.classes, NeedsIntegrationTest, IntegrationTestFor);
    suggestions := unitTests + integrationTests;
  }

  // ---------------------------------------------------------------------
  // Security issues

  /** `re.search(pattern, line, flags)`; the flag is `re.IGNORECASE`. */
  type Search = (string, string, bool) -> bool

  /** The hard-coded secret patterns, searched ignoring case. */
  const SecretPatterns: seq<string> := [
    @"password\s*=\s*[""'][^""']+[""']",
    @"api_key\s*=\s*[""'][^""']+[""']",
    @"secret\s*=\s*[""'][^""']+[""']",
    @"token\s*=\s*[""'][^""']+[""']"
  ]

  /** The SQL injection patterns, searched ignoring case. */
  const SqlPatterns: seq<string> := [
    @"execute\s*\(\s*[""'].*%s.*[""']",
    @"query\s*=\s*[""'].*\+.*[""']",
    @"cursor\.execute\s*\(\s*f[""']"
  ]

  /** The `eval` pattern, searched with case. */
  const EvalPattern: string := @"\beval\s*\("

  datatype IssueKind = HardcodedSecret | SqlInjection | EvalUsage

  /**
   * One security issue: its kind and line (1-based).  `IssueType`,
   * `IssueMessage` and `IssueSuggestion` give the record's texts; the
   * severity is "high" for every kind.
   */
  datatype Issue = Issue(kind: IssueKind, line: nat)

  const IssueSeverity: string := "high"

  function IssueType(k: IssueKind): string {
    match k
    case HardcodedSecret => "hardcoded_secret"
    case SqlInjection => "sql_injection"
    case EvalUsage => "eval_usage"
  }

  function IssueMessage(k: IssueKind): string {
    match k
    case HardcodedSecret => "Potential hardcoded secret detected"
    case SqlInjection => "Potential SQL injection vulnerability"
    case EvalUsage => "eval() usage detected - potential security risk"
  }

  function IssueSuggestion(k: IssueKind): string {
    match k
    case HardcodedSecret => "Use environment variables or secure configuration"
    case SqlInjection => "Use parameterized queries"
    case EvalUsage => "Avoid eval() - use safer alternatives"
  }

  /** One issue per pattern that `line` matches, in pattern order. */
  function PatternHits(patterns: seq<string>, line: string, ignoreCase: bool, search: Search, issue: Issue): seq<Issue>
    decreases |patterns|
  {
    if patterns == [] then []
    else PatternHits(patterns[..|patterns| - 1], line, ignoreCase, search, issue)
         + if search(patterns[|patterns| - 1], line, ignoreCase) then [issue] else []
  }

  /** One pass of the security scan over `lines`, numbered from 1. */
  function PassIssues(lines: seq<string>, patterns: seq<string>, ignoreCase: bool, search: Search, k: IssueKind): seq<Issue>
    decreases |lines|
  {
    if lines == [] then []
    else PassIssues(lines[..|lines| - 1], patterns, ignoreCase, search, k)
         + PatternHits(patterns, lines[|lines| - 1], ignoreCase, search, Issue(k, |lines|))
  }

  /** The patterns of each kind; only the `eval` pattern is searched with case. */
  function PatternsOf(k: IssueKind): seq<string> {
    match k
    case HardcodedSecret => SecretPatterns
    case SqlInjection => SqlPatterns
    case EvalUsage => [EvalPattern]
  }

  /** `find_security_issues` on a readable file: secrets, then SQL, then `eval`. */
  function IssuesOf(lines: seq<string>, search: Search): seq<Issue> {
    PassIssues(lines, PatternsOf(HardcodedSecret), true, search, HardcodedSecret)
    + PassIssues(lines, PatternsOf(SqlInjection), true, search, SqlInjection)
    + PassIssues(lines, PatternsOf(EvalUsage), false, search, EvalUsage)
  }

  /** `find_security_issues`: nothing when the file cannot be read. */
  function SecurityIssues(fs: Fs, filePath: string, search: Search): seq<Issue> {
    match Open(fs, filePath)
    case Content(text) => IssuesOf(SplitLines(text), search)
    case _ => []
  }

  lemma {:induction false} PatternHitsIff(patterns: seq<string>, line: string, ignoreCase: bool, search: Search, issue: Issue, x: Issue)
    ensures x in PatternHits(patterns, line, ignoreCase, search, issue) <==>
      x == issue && exists j :: 0 <= j < |patterns| && search(patterns[j], line, ignoreCase)
    decreases |patterns|
  {
    if patterns != [] {
      var init := patterns[..|patterns| - 1];
      PatternHitsIff(init, line, ignoreCase, search, issue, x);
      assert forall j :: 0 <= j < |init| ==> init[j] == patterns[j];
    }
  }

  /** A pass reports an issue of its kind at line `n` exactly when line `n` matches one of its patterns. */
  lemma {:induction false} PassIssuesIff(lines: seq<string>, patterns: seq<string>, ignoreCase: bool, search: Search, k: IssueKind, x: Issue)
    ensures x in PassIssues(lines, patterns, ignoreCase, search, k) <==>
      x.kind == k && 1 <= x.line <= |lines| && exists j :: 0 <= j < |patterns| && search(patterns[j], lines[x.line - 1], ignoreCase)
    decreases |lines|
  {
    if lines != [] {
      var init := lines[..|lines| - 1];
      PassIssuesIff(init, patterns, ignoreCase, search, k, x);
      PatternHitsIff(patterns, lines[|lines| - 1], ignoreCase, search, Issue(k, |lines|), x);
      if 1 <= x.line < |lines| {
        assert init[x.line - 1] == lines[x.line - 1];
      }
    }
  }

  /**
   * A line is reported with an issue of a kind exactly when it matches one
   * of that kind's patterns; the secret and SQL patterns ignore case, the
   * `eval` pattern does not.
   */
  lemma SecurityIssuesFacts(lines: seq<string>, search: Search, x: Issue)
    ensures x in IssuesOf(lines, search) <==>
      1 <= x.line <= |lines| &&
      exists j :: 0 <= j < |PatternsOf(x.kind)| && search(PatternsOf(x.kind)[j], lines[x.line - 1], x.kind != EvalUsage)
  {
    PassIssuesIff(lines, PatternsOf(HardcodedSecret), true, search, HardcodedSecret, x);
    PassIssuesIff(lines, PatternsOf(SqlInjection), true, search, SqlInjection, x);
    PassIssuesIff(lines, PatternsOf(EvalUsage), false, search, EvalUsage, x);
    match x.kind
    case HardcodedSecret =>
    case SqlInjection =>
    case EvalUsage =>
  }

  /** `find_security_issues` */
  method FindSecurityIssues(fs: Fs, filePath: string, search: Search) returns (issues: seq<Issue>)
    ensures issues == SecurityIssues(fs, filePath, search)
  {
    var read := Open(fs, filePath);
    if !read.Content? {
      return [];
    }
    var lines := SplitLines(read.text);
    issues := ScanPass(lines, PatternsOf(HardcodedSecret), true, search, HardcodedSecret);
    var sql := ScanPass(lines, PatternsOf(SqlInjection), true, search, SqlInjection);
    var eval := ScanPass(lines, PatternsOf(EvalUsage), false, search, EvalUsage);
    issues := issues + sql + eval;
  }

  /** One pattern pass of `find_security_issues`: every line against every pattern. */
  method ScanPass(lines: seq<string>, patterns: seq<string>, ignoreCase: bool, search: Search, k: IssueKind)
    returns (issues: seq<Issue>)
    ensures issues == PassIssues(lines, patterns, ignoreCase, search, k)
  {
    issues := [];
    for i := 0 to |lines|
      invariant issues == PassIssues(lines[..i], patterns, ignoreCase, search, k)
    {
      assert lines[..i + 1][..i] == lines[..i];
      var before := issues;
      for j := 0 to |patterns|
        invariant issues == before + PatternHits(patterns[..j], lines[i], ignoreCase, search, Issue(k, i + 1))
      {
        assert patterns[..j + 1][..j] == patterns[..j];
        if search(patterns[j], lines[i], ignoreCase) {
          issues := issues + [Issue(k, i + 1)];
        }
      }
      assert patterns[..|patterns|] == patterns;
    }
    assert lines[..|lines|] == lines;
  }

  // ---------------------------------------------------------------------
  // Metrics

  datatype Metrics = Metrics(
    linesOfCode: nat, totalLines: nat, blankLines: nat, commentLines: nat,
    functions: nat, classes: nat, imports: nat, complexity: string)

  predicate IsCodeLine(line: string) {
    Strip(line) != "" && !StartsWith(Strip(line), "#")
  }

  predicate IsBlankLine(line: string) {
    Strip(line) == ""
  }

  predicate IsCommentLine(line: string) {
    StartsWith(Strip(line), "#")
  }

  /** The complexity rating of `get_code_metrics`. */
  function Complexity(functions: nat, linesOfCode: nat): (r: string)
    ensures r == "high" <==> functions > 10 || linesOfCode > 200
    ensures r == "low" <==> functions <= 5 && linesOfCode <= 100
  {
    if functions > 10 || linesOfCode > 200 then "high"
    else if functions > 5 || linesOfCode > 100 then "medium"
    else "low"
  }

  function Rank(complexity: string): nat {
    if complexity == "high" then 2 else if complexity == "medium" then 1 else 0
  }

  /** More functions or more code never lowers the rating. */
  lemma ComplexityMonotone(f1: nat, l1: nat, f2: nat, l2: nat)
    requires f1 <= f2 && l1 <= l2
    ensures Rank(Complexity(f1, l1)) <= Rank(Complexity(f2, l2))
  {
  }

  /** `get_code_metrics`: `None` (the empty dict) when the file cannot be read; counts are 0 on an analysis error. */
  function CodeMetrics(fs: Fs, filePath: string, analyze: Analyzer): (r: Option<Metrics>)
    ensures r.Some? <==> Open(fs, filePath).Content?
  {
    match Open(fs, filePath)
    case Content(text) =>
      var lines := SplitLines(text);
      var loc := Count(lines, IsCodeLine);
      var result := analyze(filePath);
      var functions := if result.Analyzed? then |result.record.functions| else 0;
      var classes := if result.Analyzed? then |result.record.classes| else 0;
      var imports := if result.Analyzed? then |result.record.imports| else 0;
      Some(Metrics(loc, |lines|, Count(lines, IsBlankLine), Count(lines, IsCommentLine),
                   functions, classes, imports, Complexity(functions, loc)))
    case _ => None
  }

  /** Every line is exactly one of code, blank or comment. */
  lemma {:induction false} LineClassesPartition(lines: seq<string>)
    ensures Count(lines, IsCodeLine) + Count(lines, IsBlankLine) + Count(lines, IsCommentLine) == |lines|
    decreases |lines|
  {
    if lines != [] {
      LineClassesPartition(lines[..|lines| - 1]);
    }
  }

  /** Lines of code, blank lines and comment lines add up to the total. */
  lemma MetricsAddUp(fs: Fs, filePath: string, analyze: Analyzer)
    ensures var r := CodeMetrics(fs, filePath, analyze);
      r.Some? ==> r.value.linesOfCode + r.value.blankLines + r.value.commentLines == r.value.totalLines
  {
    if Open(fs, filePath).Content? {
      LineClassesPartition(SplitLines(Open(fs, filePath).text));
    }
  }

  // ---------------------------------------------------------------------
  // Documentation suggestions

  /**
   * One documentation suggestion; `DocType`, `DocMessage` and `DocPriority`
   * give its texts.  The module suggestion has no target and no line.
   */
  datatype DocSuggestion =
    | ModuleDocstring
    | FunctionDocstring(name: string, line: int)
    | ClassDocstring(name: string, line: int)

  function DocType(d: DocSuggestion): string {
    match d
    case ModuleDocstring => "module_docstring"
    case FunctionDocstring(_, _) => "function_docstring"
    case ClassDocstring(_, _) => "class_docstring"
  }

  function DocMessage(d: DocSuggestion): string {
    match d
    case ModuleDocstring => "Add module docstring at the top of the file"
    case FunctionDocstring(name, _) => "Add docstring to function '" + name + "'"
    case ClassDocstring(name, _) => "Add docstring to class '" + name + "'"
  }

  function DocPriority(d: DocSuggestion): string {
    if d.ModuleDocstring? then "medium" else "high"
  }

  /**
   * `analysis.get('content', '')`: the analysis record has no "content" key,
   * so the module-docstring check always sees an empty text.
   */
  function RecordContent(a: Analysis): string {
    ""
  }

  /** No line among the first five of `text` starts, once stripped, with a triple quote. */
  predicate LacksModuleDocstring(text: string) {
    var head := PyPrefix(SplitLines(text), 5);
    forall k :: 0 <= k < |head| ==> !StartsWith(Strip(head[k]), "\"\"\"")
  }

  predicate NeedsFunctionDoc(f: FuncInfo) {
    !HasDocstring(f.docstring) && !StartsWith(f.name, "_")
  }

  function FunctionDoc(f: FuncInfo): DocSuggestion {
    FunctionDocstring(f.name, f.line)
  }

  predicate NeedsClassDoc(c: ClassInfo) {
    !HasDocstring(c.docstring)
  }

  function ClassDoc(c: ClassInfo): DocSuggestion {
    ClassDocstring(c.name, c.line)
  }

  /** `generate_documentation_suggestions` as a value: nothing on an analysis error. */
  function DocSuggestions(result: AnalysisResult): seq<DocSuggestion> {
    match result
    case AnalysisError(_) => []
    case Analyzed(a) =>
      (if LacksModuleDocstring(RecordContent(a)) then [ModuleDocstring] else [])
      + Select(a.functions, NeedsFunctionDoc, FunctionDoc) + Select(a.classes, NeedsClassDoc, ClassDoc)
  }

  /**
   * On a successful analysis the module-docstring suggestion always comes
   * first, whatever the file holds; then one per undocumented public
   * function and one per undocumented class.
   */
  lemma DocSuggestionsFacts(a: Analysis, d: DocSuggestion)
    ensures DocSuggestions(Analyzed(a))[0] == ModuleDocstring
    ensures |DocSuggestions(Analyzed(a))| == 1 + Count(a.functions, NeedsFunctionDoc) + Count(a.classes, NeedsClassDoc)
    ensures d in DocSuggestions(Analyzed(a)) <==>
      d == ModuleDocstring
      || (exists f :: f in a.functions && !HasDocstring(f.docstring) && !StartsWith(f.name, "_") && d == FunctionDoc(f))
      || (exists c :: c in a.classes && !HasDocstring(c.docstring) && d == ClassDoc(c))
  {
    assert SplitLines(RecordContent(a)) == [];
    SelectLength(a.functions, NeedsFunctionDoc, FunctionDoc);
    SelectLength(a.classes, NeedsClassDoc, ClassDoc);
    SelectIff(a.functions, NeedsFunctionDoc, FunctionDoc, d);
    SelectIff(a.classes, NeedsClassDoc, ClassDoc, d);
  }

  /** `generate_documentation_suggestions` */
  method GenerateDocumentationSuggestions(analyze: Analyzer, filePath: string) returns (suggestions: seq<DocSuggestion>)
    ensures suggestions == DocSuggestions(analyze(filePath))
  {
    var analysis := analyze(filePath);
    if analysis.AnalysisError? {
      return [];
    }
    var a := analysis.record;
    suggestions := [];
    if LacksModuleDocstring(RecordContent(a)) {
      suggestions := [ModuleDocstring];
    }
    var functionDocs := Collect(a.functions, NeedsFunctionDoc, FunctionDoc);
    var classDocs := Collect(a.classes, NeedsClassDoc, ClassDoc);
    suggestions := suggestions + functionDocs + classDocs;
  }
}
