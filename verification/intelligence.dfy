/**
 * The agent's decision heuristics: intent classification, next-tool
 * suggestion, key-term extraction, plan generation, the continuation
 * policy, contextual suggestions, and the learning store that is updated in
 * place.  Every test is a substring test on the lower-cased text.
 */
module Intelligence {
  import opened Text
  import opened Json
  import opened Registry

  // ---------------------------------------------------------------------
  // Intent analysis

  /** Confidence values are kept exact, in tenths (0.5 is 5). */
  datatype Intent = Intent(
    intentType: string,
    complexity: string,
    suggestedTools: seq<string>,
    approach: string,
    confidenceTenths: nat)

  const SearchWords: seq<string> := ["find", "search", "locate", "where", "which"]
  const AnalysisWords: seq<string> := ["analyze", "understand", "explain", "what", "how"]
  const CreationWords: seq<string> := ["create", "write", "add", "implement", "build"]
  const DebuggingWords: seq<string> := ["fix", "debug", "error", "problem", "issue"]
  const ImprovementWords: seq<string> := ["improve", "optimize", "refactor", "better"]
  const HighWords: seq<string> := ["all", "entire", "everything", "complete", "comprehensive"]
  const LowWords: seq<string> := ["simple", "quick", "just", "only"]

  /** The first category, in the order they are tried, whose keywords occur in the lower-cased goal. */
  function IntentType(g: string): string {
    if ContainsAny(g, SearchWords) then "search"
    else if ContainsAny(g, AnalysisWords) then "analysis"
    else if ContainsAny(g, CreationWords) then "creation"
    else if ContainsAny(g, DebuggingWords) then "debugging"
    else if ContainsAny(g, ImprovementWords) then "improvement"
    else "unknown"
  }

  function ToolsFor(intentType: string): seq<string> {
    match intentType
    case "search" => ["get_project_overview", "explore_codebase", "find_code_patterns", "navigate_to_symbol"]
    case "analysis" => ["get_project_overview", "analyze_file", "get_code_flow", "get_file_dependencies"]
    case "creation" => ["get_project_overview", "analyze_file", "write_file", "execute_with_context"]
    case "debugging" => ["get_project_overview", "find_code_patterns", "analyze_file", "execute_with_context"]
    case "improvement" => ["get_project_overview", "analyze_file", "suggest_improvements", "get_project_health"]
    case _ => []
  }

  function ApproachFor(intentType: string): string {
    match intentType
    case "search" => "pattern_matching"
    case "analysis" => "deep_dive"
    case "creation" => "iterative_build"
    case "debugging" => "systematic_investigation"
    case "improvement" => "assessment_first"
    case _ => "exploratory"
  }

  function ConfidenceFor(intentType: string): nat {
    match intentType
    case "search" => 8
    case "analysis" => 8
    case "creation" => 7
    case "debugging" => 8
    case "improvement" => 7
    case _ => 5
  }

  function Complexity(g: string): string {
    if ContainsAny(g, HighWords) then "high"
    else if ContainsAny(g, LowWords) then "low"
    else "medium"
  }

  /**
   * `analyze_user_intent`: the first category, in the order search,
   * analysis, creation, debugging, improvement, with a keyword in the
   * lower-cased goal decides the type, and the type alone decides the tools,
   * approach and confidence; the complexity is decided separately.
   */
  function AnalyzeUserIntent(goal: string): (r: Intent)
    ensures var g := Lower(goal);
      && (ContainsAny(g, SearchWords) ==> r.intentType == "search")
      && (!ContainsAny(g, SearchWords) && ContainsAny(g, AnalysisWords) ==> r.intentType == "analysis")
      && ((!ContainsAny(g, SearchWords) && !ContainsAny(g, AnalysisWords) && ContainsAny(g, CreationWords))
            ==> r.intentType == "creation")
      && ((!ContainsAny(g, SearchWords) && !ContainsAny(g, AnalysisWords) && !ContainsAny(g, CreationWords)
            && ContainsAny(g, DebuggingWords)) ==> r.intentType == "debugging")
      && ((!ContainsAny(g, SearchWords) && !ContainsAny(g, AnalysisWords) && !ContainsAny(g, CreationWords)
            && !ContainsAny(g, DebuggingWords) && ContainsAny(g, ImprovementWords)) ==> r.intentType == "improvement")
      && ((!ContainsAny(g, SearchWords) && !ContainsAny(g, AnalysisWords) && !ContainsAny(g, CreationWords)
            && !ContainsAny(g, DebuggingWords) && !ContainsAny(g, ImprovementWords)) ==> r.intentType == "unknown")
    ensures var g := Lower(goal);
      && (ContainsAny(g, HighWords) ==> r.complexity == "high")
      && (!ContainsAny(g, HighWords) && ContainsAny(g, LowWords) ==> r.complexity == "low")
      && (!ContainsAny(g, HighWords) && !ContainsAny(g, LowWords) ==> r.complexity == "medium")
    ensures r.suggestedTools == ToolsFor(r.intentType) && r.approach == ApproachFor(r.intentType)
      && r.confidenceTenths == ConfidenceFor(r.intentType)
    ensures r.intentType == "unknown" ==>
      r.suggestedTools == [] && r.approach == "exploratory" && r.confidenceTenths == 5
    ensures r.intentType != "unknown" ==>
      |r.suggestedTools| == 4 && r.suggestedTools[0] == "get_project_overview"
      && (forall k :: 0 <= k < 4 ==> IsRegistered(r.suggestedTools[k]))
  {
    var g := Lower(goal);
    var t := IntentType(g);
    Intent(t, Complexity(g), ToolsFor(t), ApproachFor(t), ConfidenceFor(t))
  }

  /** The six intent types are told apart, so each is chosen exactly when its condition holds. */
  lemma IntentTypeIff(goal: string)
    ensures var g := Lower(goal); var t := AnalyzeUserIntent(goal).intentType;
      && (t == "search" <==> ContainsAny(g, SearchWords))
      && (t == "analysis" <==> !ContainsAny(g, SearchWords) && ContainsAny(g, AnalysisWords))
      && (t == "creation" <==>
            !ContainsAny(g, SearchWords) && !ContainsAny(g, AnalysisWords) && ContainsAny(g, CreationWords))
      && (t == "debugging" <==>
            !ContainsAny(g, SearchWords) && !ContainsAny(g, AnalysisWords) && !ContainsAny(g, CreationWords)
            && ContainsAny(g, DebuggingWords))
      && (t == "improvement" <==>
            !ContainsAny(g, SearchWords) && !ContainsAny(g, AnalysisWords) && !ContainsAny(g, CreationWords)
            && !ContainsAny(g, DebuggingWords) && ContainsAny(g, ImprovementWords))
      && (t == "unknown" <==>
            !ContainsAny(g, SearchWords) && !ContainsAny(g, AnalysisWords) && !ContainsAny(g, CreationWords)
            && !ContainsAny(g, DebuggingWords) && !ContainsAny(g, ImprovementWords))
  {
  }

  /** Two goals of the same intent type get the same tools, approach and confidence. */
  lemma IntentDeterminesRecommendation(goal1: string, goal2: string)
    requires AnalyzeUserIntent(goal1).intentType == AnalyzeUserIntent(goal2).intentType
    ensures AnalyzeUserIntent(goal1).suggestedTools == AnalyzeUserIntent(goal2).suggestedTools
    ensures AnalyzeUserIntent(goal1).approach == AnalyzeUserIntent(goal2).approach
    ensures AnalyzeUserIntent(goal1).confidenceTenths == AnalyzeUserIntent(goal2).confidenceTenths
  {
  }

  /**
   * A goal that opens with "find" (in any case), such as "find the function
   * named parse_config", is a search, handled by pattern matching with the
   * overview, exploration, pattern and symbol tools.
   */
  lemma FindGoalIsSearch(rest: string)
    ensures var r := AnalyzeUserIntent("find" + rest);
      r.intentType == "search" && r.approach == "pattern_matching" && r.confidenceTenths == 8
      && r.suggestedTools == ["get_project_overview", "explore_codebase", "find_code_patterns", "navigate_to_symbol"]
  {
    LowerConcat("find", rest);
    assert Lower("find") == "find";
    PrefixContains("find", "find");
    ContainsConcat("find", Lower(rest), "find");
    assert Contains(Lower("find" + rest), SearchWords[0]);
  }

  // ---------------------------------------------------------------------
  // Next-tool suggestion

  /** `str(xs)` for a list whose elements have the given reprs. */
  function ListStr(reprs: seq<string>): string {
    "[" + Join(", ", reprs) + "]"
  }

  const PatternHints: seq<string> := ["pattern", "search", "find"]
  const SymbolHints: seq<string> := ["function", "class", "method"]
  const DependencyHints: seq<string> := ["import", "dependency", "reference"]
  const FlowHints: seq<string> := ["flow", "entry", "main", "start"]

  /** Some previous action, by its repr, mentions the project overview (`"project_overview" in str(previous_actions)`). */
  predicate OverviewSeen(previousActions: seq<string>) {
    previousActions != [] && Contains(ListStr(previousActions), "project_overview")
  }

  /** One of the last three previous actions mentions analyze_file. */
  predicate AnalyzedRecently(previousActions: seq<string>) {
    var recent := PyLast(previousActions, 3);
    exists k :: 0 <= k < |recent| && Contains(recent[k], "analyze_file")
  }

  /** The context reports files found that none of the last three actions analysed. */
  predicate FilesAwaitAnalysis(c: string, previousActions: seq<string>) {
    Contains(c, "files found") && !AnalyzedRecently(previousActions)
  }

  /**
   * `suggest_next_tool`: previous actions are given by their reprs; the list
   * of available tools is not consulted.  The rules are tried in order and
   * the first that applies names the tool.
   */
  function SuggestNextTool(context: string, availableTools: seq<string>, previousActions: seq<string>): (r: string)
    ensures IsRegistered(r)
    ensures previousActions == [] ==> r == "get_project_overview"
    ensures var c := Lower(context); var seen := OverviewSeen(previousActions);
      var waiting := FilesAwaitAnalysis(c, previousActions);
      && (r == "get_project_overview" <==> !seen)
      && (r == "analyze_file" <==> seen && waiting)
      && (r == "find_code_patterns" <==> seen && !waiting && ContainsAny(c, PatternHints))
      && (r == "navigate_to_symbol" <==>
            seen && !waiting && !ContainsAny(c, PatternHints) && ContainsAny(c, SymbolHints))
      && (r == "get_file_dependencies" <==>
            seen && !waiting && !ContainsAny(c, PatternHints) && !ContainsAny(c, SymbolHints)
            && ContainsAny(c, DependencyHints))
      && (r == "get_code_flow" <==>
            seen && !waiting && !ContainsAny(c, PatternHints) && !ContainsAny(c, SymbolHints)
            && !ContainsAny(c, DependencyHints) && ContainsAny(c, FlowHints))
      && (r == "explore_codebase" <==>
            seen && !waiting && !ContainsAny(c, PatternHints) && !ContainsAny(c, SymbolHints)
            && !ContainsAny(c, DependencyHints) && !ContainsAny(c, FlowHints))
  {
    var c := Lower(context);
    if !OverviewSeen(previousActions) then "get_project_overview"
    else if FilesAwaitAnalysis(c, previousActions) then "analyze_file"
    else if ContainsAny(c, PatternHints) then "find_code_patterns"
    else if ContainsAny(c, SymbolHints) then "navigate_to_symbol"
    else if ContainsAny(c, DependencyHints) then "get_file_dependencies"
    else if ContainsAny(c, FlowHints) then "get_code_flow"
    else "explore_codebase"
  }

  /** `xs[-n:]` */
  function PyLast<T>(xs: seq<T>, n: nat): (r: seq<T>)
    ensures |r| <= n && |r| <= |xs| && r == xs[|xs| - |r|..]
  {
    if |xs| <= n then xs else xs[|xs| - n..]
  }

  /**
   * A needle without '[', ']', ',' or ' ' occurs in `str(xs)` exactly when
   * it occurs in the repr of one element: it cannot span a separator.
   */
  lemma {:induction false} ListStrContains(reprs: seq<string>, t: string)
    requires t != [] && '[' !in t && ']' !in t && ',' !in t && ' ' !in t
    ensures Contains(ListStr(reprs), t) <==> exists k :: 0 <= k < |reprs| && Contains(reprs[k], t)
  {
    var j := Join(", ", reprs);
    assert ListStr(reprs) == [] + ['['] + (j + [']'] + []);
    ContainsAroundSeparator([], '[', j + [']'] + [], t);
    ContainsAroundSeparator(j, ']', [], t);
    EmptyContainsNothing(t);
    JoinContains(reprs, t);
  }

  lemma EmptyContainsNothing(t: string)
    requires t != []
    ensures !Contains([], t)
  {
  }

  lemma {:induction false} JoinContains(reprs: seq<string>, t: string)
    requires t != [] && ',' !in t && ' ' !in t
    ensures Contains(Join(", ", reprs), t) <==> exists k :: 0 <= k < |reprs| && Contains(reprs[k], t)
    decreases |reprs|
  {
    if |reprs| == 0 {
      EmptyContainsNothing(t);
    } else if |reprs| == 1 {
    } else {
      var rest := Join(", ", reprs[1..]);
      assert Join(", ", reprs) == reprs[0] + [','] + ([] + [' '] + rest);
      ContainsAroundSeparator(reprs[0], ',', [] + [' '] + rest, t);
      ContainsAroundSeparator([], ' ', rest, t);
      EmptyContainsNothing(t);
      JoinContains(reprs[1..], t);
      if exists k :: 0 <= k < |reprs[1..]| && Contains(reprs[1..][k], t) {
        var k :| 0 <= k < |reprs[1..]| && Contains(reprs[1..][k], t);
        assert Contains(reprs[k + 1], t);
      }
      if exists k :: 0 <= k < |reprs| && Contains(reprs[k], t) {
        var k :| 0 <= k < |reprs| && Contains(reprs[k], t);
        if k > 0 {
          assert Contains(reprs[1..][k - 1], t);
        }
      }
    }
  }

  /**
   * The overview is suggested exactly when no previous action's repr
   * mentions "project_overview" (or there is no previous action).
   */
  lemma OverviewFirst(context: string, tools: seq<string>, previousActions: seq<string>)
    ensures SuggestNextTool(context, tools, previousActions) == "get_project_overview"
      <==> forall k :: 0 <= k < |previousActions| ==> !Contains(previousActions[k], "project_overview")
  {
    ListStrContains(previousActions, "project_overview");
  }

  // ---------------------------------------------------------------------
  // Key terms

  predicate IsWordChar(c: char) {
    'a' <= c <= 'z' || 'A' <= c <= 'Z' || '0' <= c <= '9' || c == '_'
  }

  predicate IsTermStart(c: char) {
    'a' <= c <= 'z' || 'A' <= c <= 'Z' || c == '_'
  }

  /** Length of the run of word characters at the start of `s`. */
  function RunLength(s: string): (k: nat)
    ensures k <= |s|
    ensures forall j :: 0 <= j < k ==> IsWordChar(s[j])
    ensures k < |s| ==> !IsWordChar(s[k])
    decreases |s|
  {
    if s == [] || !IsWordChar(s[0]) then 0 else 1 + RunLength(s[1..])
  }

  /** The maximal runs of word characters of `s`, left to right. */
  function Words(s: string): (r: seq<string>)
    ensures forall k :: 0 <= k < |r| ==> r[k] != [] && Contains(s, r[k])
    ensures forall k, j :: 0 <= k < |r| && 0 <= j < |r[k]| ==> IsWordChar(r[k][j])
    decreases |s|
  {
    if s == [] then []
    else if !IsWordChar(s[0]) then
      var rest := Words(s[1..]);
      forall k | 0 <= k < |rest| ensures Contains(s, rest[k]) {
        assert s == [s[0]] + s[1..];
        ContainsConcat([s[0]], s[1..], rest[k]);
      }
      rest
    else
      var n := RunLength(s);
      var rest := Words(s[n..]);
      assert s == s[..n] + s[n..];
      forall k | 0 <= k < |rest| ensures Contains(s, rest[k]) {
        ContainsConcat(s[..n], s[n..], rest[k]);
      }
      PrefixContains(s, s[..n]);
      [s[..n]] + rest
  }

  const StopWords: set<string> := {
    "the", "a", "an", "and", "or", "but", "in", "on", "at", "to", "for",
    "of", "with", "by", "is", "are", "was", "were", "be", "been", "have",
    "has", "had", "do", "does", "did", "will", "would", "could", "should",
    "this", "that", "these", "those", "i", "you", "he", "she", "it", "we", "they"
  }

  /**
   * The identifier-like words of the lower-cased text (a letter or '_'
   * followed by letters, digits or '_', as a whole word) that are longer
   * than two characters and not stop words.
   */
  function KeyTerms(text: string): set<string> {
    var ws := Words(Lower(text));
    set k | 0 <= k < |ws| && IsTermStart(ws[k][0]) && ws[k] !in StopWords && |ws[k]| > 2 :: ws[k]
  }

  /** Every key term is a long, non-stop identifier word occurring in the lower-cased text. */
  lemma KeyTermsAreWords(text: string)
    ensures forall t :: t in KeyTerms(text) ==>
      |t| > 2 && t !in StopWords && IsTermStart(t[0]) && Contains(Lower(text), t)
      && forall j :: 0 <= j < |t| ==> IsWordChar(t[j])
  {
  }

  /** Key terms do not depend on letter case. */
  lemma KeyTermsIgnoreCase(text: string)
    ensures KeyTerms(Lower(text)) == KeyTerms(text)
  {
    LowerIdempotent(text);
  }

  /**
   * `extract_key_terms`: the key terms as a list without duplicates, in the
   * unspecified order of `list(set(...))`.
   */
  method ExtractKeyTerms(text: string) returns (terms: seq<string>)
    ensures forall t :: t in terms <==> t in KeyTerms(text)
    ensures forall j, k :: 0 <= j < k < |terms| ==> terms[j] != terms[k]
  {
    terms := ListOfSet(KeyTerms(text));
  }

  /** A list holding exactly the elements of a set is that set when its positions are collected. */
  lemma ListedSet(r: seq<string>, s: set<string>)
    requires forall t :: t in r <==> t in s
    ensures (set t | t in r) == s
  {
  }

  lemma ListedSetEmpty(r: seq<string>, s: set<string>)
    requires forall t :: t in r <==> t in s
    ensures r == [] <==> s == {}
  {
    if r != [] { assert r[0] in s; }
    if s != {} { var t :| t in s; assert t in r; }
  }

  /** `list(s)` for a set: every element once, in an order the set does not fix. */
  method ListOfSet(s: set<string>) returns (r: seq<string>)
    ensures forall t :: t in r <==> t in s
    ensures forall j, k :: 0 <= j < k < |r| ==> r[j] != r[k]
  {
    var remaining := s;
    r := [];
    while remaining != {}
      invariant forall t :: t in s <==> t in r || t in remaining
      invariant forall t :: t in r ==> t !in remaining
      invariant forall j, k :: 0 <= j < k < |r| ==> r[j] != r[k]
      decreases |remaining|
    {
      var t :| t in remaining;
      r := r + [t];
      remaining := remaining - {t};
    }
  }

  // ---------------------------------------------------------------------
  // Plan generation

  datatype PlanStep = PlanStep(tool: string, args: Option<Fields>, reason: string, priority: string)

  function StepTools(plan: seq<PlanStep>): (r: seq<string>)
    ensures |r| == |plan|
    ensures forall k :: 0 <= k < |plan| ==> r[k] == plan[k].tool
  {
    seq(|plan|, k requires 0 <= k < |plan| => plan[k].tool)
  }

  lemma StepToolsAppend(a: seq<PlanStep>, b: seq<PlanStep>)
    ensures StepTools(a + b) == StepTools(a) + StepTools(b)
  {
  }

  predicate ReadsFiles(goal: string) {
    Contains(Lower(goal), "read") && Contains(Lower(goal), "file")
  }

  predicate WritesReadme(goal: string) {
    Contains(Lower(goal), "write") && Contains(Lower(goal), "readme")
  }

  /** The tools of the plan's opening steps. */
  function HeadTools(goal: string): (r: seq<string>)
    ensures 1 <= |r| <= 3
    ensures r[0] == (if ReadsFiles(goal) then "explore_codebase" else "get_project_overview")
    ensures "write_file" in r <==> ReadsFiles(goal) && WritesReadme(goal)
    ensures forall k :: 0 <= k < |r| ==> IsRegistered(r[k])
  {
    if ReadsFiles(goal) then
      ["explore_codebase", "read_multiple_files"] + (if WritesReadme(goal) then ["write_file"] else [])
    else ["get_project_overview"]
  }

  /** The tools of the steps added for the goal's intent type. */
  function TailTools(intentType: string, hasKeyTerms: bool): (r: seq<string>)
    ensures |r| <= 2
    ensures "write_file" !in r
    ensures forall k :: 0 <= k < |r| ==> IsRegistered(r[k])
  {
    if intentType == "search" then (if hasKeyTerms then ["find_code_patterns"] else []) + ["explore_codebase"]
    else if intentType == "analysis" then ["explore_codebase", "analyze_file"]
    else if intentType == "creation" then ["get_project_health", "explore_codebase"]
    else if intentType == "debugging" then ["find_code_patterns", "get_project_health"]
    else if intentType == "improvement" then ["get_project_health", "suggest_improvements"]
    else []
  }

  /** The tools of the plan `generate_smart_plan` builds for `goal`, in order. */
  function PlanTools(goal: string): (r: seq<string>)
    ensures 1 <= |r| <= 5
    ensures r[0] == (if ReadsFiles(goal) then "explore_codebase" else "get_project_overview")
    ensures "write_file" in r <==> ReadsFiles(goal) && WritesReadme(goal)
    ensures forall k :: 0 <= k < |r| ==> IsRegistered(r[k])
  {
    var intentType := IntentType(Lower(goal));
    var hasKeyTerms := KeyTerms(goal) != {};
    PlanShape(goal, intentType, hasKeyTerms);
    HeadTools(goal) + TailTools(intentType, hasKeyTerms)
  }

  lemma PlanShape(goal: string, intentType: string, hasKeyTerms: bool)
    ensures var r := HeadTools(goal) + TailTools(intentType, hasKeyTerms);
      && 1 <= |r| <= 5
      && r[0] == (if ReadsFiles(goal) then "explore_codebase" else "get_project_overview")
      && ("write_file" in r <==> ReadsFiles(goal) && WritesReadme(goal))
      && (forall k :: 0 <= k < |r| ==> IsRegistered(r[k]))
  {
    var head := HeadTools(goal);
    var tail := TailTools(intentType, hasKeyTerms);
    assert "write_file" in head + tail <==> "write_file" in head || "write_file" in tail;
  }

  /** `generate_smart_plan`: builds the plan step by step; its tools are `PlanTools(goal)`. */
  method GenerateSmartPlan(goal: string) returns (plan: seq<PlanStep>)
    ensures StepTools(plan) == PlanTools(goal)
  {
    var intent := AnalyzeUserIntent(goal);
    var keyTerms := ExtractKeyTerms(goal);
    plan := OpeningSteps(goal);
    ListedSetEmpty(keyTerms, KeyTerms(goal));
    var steps := IntentSteps(intent.intentType, keyTerms);
    StepToolsAppend(plan, steps);
    plan := plan + steps;
  }

  /** The steps `generate_smart_plan` starts with: a read-files goal gets file discovery and reading. */
  method OpeningSteps(goal: string) returns (steps: seq<PlanStep>)
    ensures StepTools(steps) == HeadTools(goal)
  {
    steps := [];
    if ReadsFiles(goal) {
      steps := steps + [PlanStep("explore_codebase", Some([("pattern", Str("**/*.py")), ("max_files", Num(50))]),
                                 "Find all Python files to read and analyze", "high")];
      steps := steps + [PlanStep("read_multiple_files", None, "Read all relevant files to understand the project", "high")];
      if WritesReadme(goal) {
        steps := steps + [PlanStep("write_file", None, "Write comprehensive description to README.md", "high")];
      }
    } else {
      steps := steps + [PlanStep("get_project_overview", None, "Understand project structure and context", "high")];
    }
  }

  /** The steps `generate_smart_plan` appends for the goal's intent type. */
  method IntentSteps(intentType: string, keyTerms: seq<string>) returns (steps: seq<PlanStep>)
    ensures StepTools(steps) == TailTools(intentType, keyTerms != [])
  {
    if intentType == "search" {
      var explore := PlanStep("explore_codebase", None, "Explore codebase structure to find relevant files", "medium");
      if keyTerms != [] {
        var search := PlanStep("find_code_patterns", Some([("pattern", Str(Join("|", keyTerms)))]),
                               "Search for patterns related to: " + Join(", ", keyTerms), "high");
        steps := [search, explore];
      } else {
        steps := [explore];
      }
    } else if intentType == "analysis" {
      steps := [PlanStep("explore_codebase", Some([("file_type", Str("py")), ("max_files", Num(10))]),
                         "Find Python files to analyze", "high"),
                PlanStep("analyze_file", None, "Analyze key files for structure and functionality", "high")];
    } else if intentType == "creation" {
      steps := [PlanStep("get_project_health", None, "Assess project health before making changes", "medium"),
                PlanStep("explore_codebase", Some([("file_type", Str("py"))]), "Understand existing code structure", "high")];
    } else if intentType == "debugging" {
      steps := [PlanStep("find_code_patterns", Some([("pattern", Str("error|exception|traceback|debug"))]),
                         "Look for error-related code patterns", "high"),
                PlanStep("get_project_health", None, "Check overall project health for issues", "medium")];
    } else if intentType == "improvement" {
      steps := [PlanStep("get_project_health", None, "Get comprehensive health assessment", "high"),
                PlanStep("suggest_improvements", None, "Get specific improvement suggestions", "high")];
    } else {
      steps := [];
    }
  }


  // ---------------------------------------------------------------------
  // Continuation policy

  datatype Decision = Decision(cont: bool, reason: string)

  predicate ReadmeWritten(o: string) {
    Contains(o, "successfully wrote") && Contains(o, "readme.md")
  }

  predicate FoundFiles(o: string) {
    Contains(o, "found") && Contains(o, "files") && Contains(o, "matching")
  }

  predicate ReadSummary(o: string) {
    Contains(o, "project analysis summary") || Contains(o, "file analysis")
  }

  /** `should_continue`: the first matching rule decides. */
  function ShouldContinue(observation: string, iteration: int, maxIterations: int): Decision {
    var o := Lower(observation);
    if iteration >= maxIterations then Decision(false, "Maximum iterations reached")
    else if ReadmeWritten(o) then Decision(false, "Task completed - README.md has been written")
    else if FoundFiles(o) then Decision(true, "Found files, need to read and process them")
    else if ReadSummary(o) then Decision(true, "Read files, need to write summary to README.md")
    else if Contains(o, "error") && iteration > 3 then Decision(false, "Too many errors encountered")
    else if Contains(o, "no files found") && iteration < 5 then Decision(true, "Still searching for files")
    else if ContainsAny(o, ["analyzing", "exploring", "searching", "processing"]) then Decision(true, "Still processing")
    else if ContainsAny(o, ["next", "continue", "more", "additional"]) then Decision(true, "More work indicated")
    else Decision(true, "Continuing exploration")
  }

  /**
   * The policy stops exactly on the cap, on a README write, or on an error
   * after iteration 3 that is not a found-files or summary observation.
   */
  lemma ShouldContinueStopsExactly(observation: string, iteration: int, maxIterations: int)
    ensures var r := ShouldContinue(observation, iteration, maxIterations);
      iteration >= maxIterations ==> r == Decision(false, "Maximum iterations reached")
    ensures var r := ShouldContinue(observation, iteration, maxIterations);
      var o := Lower(observation);
      !r.cont <==>
        iteration >= maxIterations || ReadmeWritten(o)
        || (!FoundFiles(o) && !ReadSummary(o) && Contains(o, "error") && iteration > 3)
    ensures var o := Lower(observation);
      iteration < maxIterations && !ReadmeWritten(o) && FoundFiles(o) ==>
        ShouldContinue(observation, iteration, maxIterations).cont
  {
  }

  /** Below the cap the cap rule never fires, whatever the observation. */
  lemma BelowCapNeverCapReason(observation: string, iteration: int, maxIterations: int)
    requires iteration < maxIterations
    ensures ShouldContinue(observation, iteration, maxIterations).reason != "Maximum iterations reached"
  {
  }

  // ---------------------------------------------------------------------
  // Contextual suggestions

  const NotFoundAdvice: seq<string> := [
    "Try using explore_codebase to find similar files",
    "Check the project structure with get_project_overview",
    "Use find_code_patterns to search for related content"]

  const ErrorAdvice: seq<string> := [
    "Analyze the error context with analyze_file",
    "Search for similar error patterns with find_code_patterns",
    "Check project health with get_project_health"]

  const ImportAdvice: seq<string> := [
    "Use get_file_dependencies to understand import relationships",
    "Navigate to the imported symbol with navigate_to_symbol",
    "Check if the module exists in the project"]

  const SymbolAdvice: seq<string> := [
    "Use navigate_to_symbol to find the specific function/class",
    "Analyze the file containing the symbol",
    "Check dependencies and usage patterns"]

  /** `get_contextual_suggestions`: the first matching branch's three suggestions, or none. */
  function GetContextualSuggestions(state: string): (r: seq<string>)
    ensures |r| == 0 || |r| == 3
    ensures var s := Lower(state);
      && (r == NotFoundAdvice <==> Contains(s, "file not found"))
      && (r == ErrorAdvice <==> !Contains(s, "file not found") && Contains(s, "error"))
      && (r == ImportAdvice <==> !Contains(s, "file not found") && !Contains(s, "error") && Contains(s, "import"))
      && (r == SymbolAdvice <==>
            !Contains(s, "file not found") && !Contains(s, "error") && !Contains(s, "import")
            && (Contains(s, "function") || Contains(s, "class")))
      && (r == [] <==>
            !Contains(s, "file not found") && !Contains(s, "error") && !Contains(s, "import")
            && !Contains(s, "function") && !Contains(s, "class"))
  {
    var s := Lower(state);
    if Contains(s, "file not found") then NotFoundAdvice
    else if Contains(s, "error") then ErrorAdvice
    else if Contains(s, "import") then ImportAdvice
    else if Contains(s, "function") || Contains(s, "class") then SymbolAdvice
    else []
  }

  /**
   * The read tool's missing-file observation reaches the "error" branch, not
   * the "file not found" one: the quote after the path separates "file" from
   * "not found".
   */
  lemma MissingFileObservationGetsErrorAdvice(p: string)
    requires !Contains(Lower(p), "file not found")
    ensures GetContextualSuggestions("Error: File '" + p + "' not found") == ErrorAdvice
  {
    MissingFileLower(p);
    MissingFileMentionsOnlyError(Lower(p));
  }

  lemma MissingFileMentionsOnlyError(lp: string)
    requires !Contains(lp, "file not found")
    ensures var s := "error: file '" + lp + "' not found";
      !Contains(s, "file not found") && Contains(s, "error")
  {
    var s := "error: file '" + lp + "' not found";
    assert s == "error: file " + ['\''] + (lp + ['\''] + " not found");
    ShieldedNeedle("error: file ", '\'', lp, " not found", "file not found");
    assert StartsWith(s, "error");
  }

  lemma MissingFileLower(p: string)
    ensures Lower("Error: File '" + p + "' not found") == "error: file '" + Lower(p) + "' not found"
  {
    LowerConcat("Error: File '" + p, "' not found");
    LowerConcat("Error: File '", p);
    assert Lower("Error: File '") == "error: file '";
    assert Lower("' not found") == "' not found";
  }

  // ---------------------------------------------------------------------
  // Learning store

  datatype Insight = Insight(success: bool, actions: nat, resultLength: nat)

  /** Each term's list extended by `tools` (created empty first); other entries unchanged. */
  function ExtendPatterns(patterns: map<string, seq<string>>, terms: set<string>, tools: seq<string>)
    : map<string, seq<string>>
  {
    map t | t in patterns.Keys + terms ::
      if t in terms then (if t in patterns then patterns[t] else []) + tools else patterns[t]
  }

  /** The pattern store after an interaction: extended only on success. */
  function LearnedPatterns(patterns: map<string, seq<string>>, goal: string, tools: seq<string>, success: bool)
    : map<string, seq<string>>
  {
    if success then ExtendPatterns(patterns, KeyTerms(goal), tools) else patterns
  }

  /** The insight store after an interaction: recorded only when the result mentions "project". */
  function LearnedInsights(insights: map<string, Insight>, goal: string, actions: nat, finalResult: string, success: bool)
    : map<string, Insight>
  {
    if Contains(Lower(finalResult), "project") then insights[goal := Insight(success, actions, |finalResult|)]
    else insights
  }

  /**
   * Learning never forgets: every stored term keeps its list as a prefix, and
   * a successful interaction gives every key term of the goal the tools just used
   * as the end of its list.
   */
  lemma LearningOnlyAppends(patterns: map<string, seq<string>>, goal: string, tools: seq<string>, success: bool)
    ensures var r := LearnedPatterns(patterns, goal, tools, success);
      && patterns.Keys <= r.Keys
      && (forall t :: t in patterns ==> |patterns[t]| <= |r[t]| && r[t][..|patterns[t]|] == patterns[t])
      && (success ==> forall t :: t in KeyTerms(goal) ==> t in r && |tools| <= |r[t]| && r[t][|r[t]| - |tools|..] == tools)
      && (!success ==> r == patterns)
  {
  }

  /** The learning call made when the iteration cap is reached changes neither store. */
  lemma CapLearningIsNoOp(patterns: map<string, seq<string>>, insights: map<string, Insight>, goal: string, tools: seq<string>)
    ensures LearnedPatterns(patterns, goal, tools, false) == patterns
    ensures LearnedInsights(insights, goal, |tools|, "Maximum iterations reached", false) == insights
  {
    CapResultNotAboutProject();
  }

  lemma CapResultNotAboutProject()
    ensures !Contains(Lower("Maximum iterations reached"), "project")
  {
    assert Lower("Maximum iterations reached") == "maximum iterations reached";
    MissingFirstChar("maximum iterations reached", "project");
  }


  /** One term's entry extended by `tools`, created empty first when missing. */
  function Upsert(patterns: map<string, seq<string>>, t: string, tools: seq<string>): map<string, seq<string>> {
    patterns[t := (if t in patterns then patterns[t] else []) + tools]
  }

  /** The store after extending the terms' entries one at a time, in list order. */
  function ExtendInOrder(patterns: map<string, seq<string>>, terms: seq<string>, tools: seq<string>)
    : map<string, seq<string>>
    decreases |terms|
  {
    if terms == [] then patterns
    else Upsert(ExtendInOrder(patterns, terms[..|terms| - 1], tools), terms[|terms| - 1], tools)
  }

  /**
   * Extending distinct terms one at a time gives the same store whatever
   * their order: the set-wise extension of the terms.
   */
  lemma {:induction false} InOrderIsSetwise(start: map<string, seq<string>>, terms: seq<string>, tools: seq<string>)
    requires forall a, b :: 0 <= a < b < |terms| ==> terms[a] != terms[b]
    ensures ExtendInOrder(start, terms, tools) == ExtendPatterns(start, (set t | t in terms), tools)
  {
    if terms == [] {
      assert (set t | t in terms) == {};
    } else {
      var n := |terms| - 1;
      var init := terms[..n];
      InOrderIsSetwise(start, init, tools);
      assert terms == init + [terms[n]];
      assert (set t | t in terms) == (set t | t in init) + {terms[n]};
      assert terms[n] !in init;
      ExtendOneMore(start, (set t | t in init), terms[n], tools);
    }
  }

  /** Extending by one more, new term updates exactly that term's entry. */
  lemma ExtendOneMore(start: map<string, seq<string>>, done: set<string>, t: string, tools: seq<string>)
    requires t !in done
    ensures ExtendPatterns(start, done + {t}, tools) == Upsert(ExtendPatterns(start, done, tools), t, tools)
  {
  }

  class AgentIntelligence {
    var learnedPatterns: map<string, seq<string>>
    var projectInsights: map<string, Insight>

    constructor()
      ensures learnedPatterns == map[] && projectInsights == map[]
    {
      learnedPatterns := map[];
      projectInsights := map[];
    }

    /**
     * `learn_from_interaction`, given the tool names of the actions taken in
     * order: updates both stores in place.
     */
    method LearnFromInteraction(goal: string, actionTools: seq<string>, finalResult: string, success: bool)
      modifies this
      ensures learnedPatterns == LearnedPatterns(old(learnedPatterns), goal, actionTools, success)
      ensures projectInsights == LearnedInsights(old(projectInsights), goal, |actionTools|, finalResult, success)
    {
      if success {
        var terms := ExtractKeyTerms(goal);
        ListedSet(terms, KeyTerms(goal));
        ExtendAll(terms, actionTools);
      }
      if Contains(Lower(finalResult), "project") {
        projectInsights := projectInsights[goal := Insight(success, |actionTools|, |finalResult|)];
      }
    }

    /** Appends `tools` to the entry of each of the distinct `terms`, creating missing entries. */
    method ExtendAll(terms: seq<string>, tools: seq<string>)
      requires forall j, k :: 0 <= j < k < |terms| ==> terms[j] != terms[k]
      modifies this
      ensures learnedPatterns == ExtendPatterns(old(learnedPatterns), (set t | t in terms), tools)
      ensures projectInsights == old(projectInsights)
    {
      ghost var start := learnedPatterns;
      for j := 0 to |terms|
        invariant learnedPatterns == ExtendInOrder(start, terms[..j], tools)
        invariant projectInsights == old(projectInsights)
      {
        assert terms[..j + 1][..j] == terms[..j];
        ExtendOne(terms[j], tools);
      }
      assert terms[..|terms|] == terms;
      InOrderIsSetwise(start, terms, tools);
    }

    /** One term's entry, created empty if missing, extended by `tools`. */
    method ExtendOne(term: string, tools: seq<string>)
      modifies this
      ensures learnedPatterns == Upsert(old(learnedPatterns), term, tools)
      ensures projectInsights == old(projectInsights)
    {
      if term !in learnedPatterns {
        learnedPatterns := learnedPatterns[term := []];
      }
      learnedPatterns := learnedPatterns[term := learnedPatterns[term] + tools];
    }
  }
}
