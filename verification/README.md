# cria: a tool-using coding agent, modelled in Dafny

cria is a command-line coding assistant. A language model proposes one
JSON action per turn ("call tool X with arguments Y", or "finish"). The
agent checks the action against the tool registry, asks the user before
running a tool that is not on the auto-execute list, runs the tool,
applies a continuation policy, and feeds the observation back to the
model. The tools read and write files, list directories, search and
analyse Python source, and format text reports. A small learning store
remembers which tools served which goal words.

This project models the core of the agent and its tools and proves
properties of that model:

- `Agent` and `AgentProperties`: the main loop of the newer agent,
  `run_agent`. It is modelled twice and the two are proved equal. The
  first form is a function of its inputs: the goal, the model's replies,
  the user's answers, the tools' outcomes and `json.dumps`. The second is
  the imperative loop over the conversation memory. On top of them sit
  the loop invariants: the conversation only grows, every call made was
  validated and confirmed, the loop stops only for the stated reasons,
  and learning happens only after `finish` or the iteration cap.
- `Intelligence`: the heuristics. These are intent classification,
  next-tool suggestion, key-term extraction, plan generation, the
  continuation policy, contextual suggestions and the learning store, a
  class updated in place.
- `AgentMemory`: the conversation log.
- `Registry`: the 22 registered tools and their signatures.
- `ProjectContext`: the project scan. It covers the ignore patterns, the
  directory walk, the file statistics, pattern and content search,
  import resolution and context around a line.
- `CodeAnalysis`: what the Python analyser reports, given as an input.
- `CodingWorkflows`: code smells, refactorings, test ideas, security
  issues, metrics and documentation suggestions.
- `EnhancedTools`: the exploration tools (analyse a file, find patterns,
  dependencies, navigate to a symbol, improvements, project health).
- `AppTools`: the tool functions the agent calls, with their report
  texts.
- `CriaAgent` and `CriaTools`: the older agent's dispatch and its three
  file tools.
- Shared helpers: `Text` (Python string operations), `Sorting`
  (`sorted`), `Grouping` (dictionaries of lists), `Paths` (`os.path`)
  and `FileSystem`.

## Model

The filesystem is a value: a map from path to text, plus a set of
directories. The tools take it as a parameter, or change it through the
`Disk` object. The model's replies, the user's answers, tool outcomes,
directory walks, glob matching, the Python analyser and JSON decoding
are inputs.

| member | source | states |
|---|---|---|
| AgentMemory.Memory.constructor | src/app/cli/memory.py:12-13 | a new log is empty |
| AgentMemory.Memory.AddMessage | src/app/cli/memory.py:15-23 | appends exactly one role/content message at the end and keeps the earlier messages |
| AgentMemory.Memory.GetHistory | src/app/cli/memory.py:25-32 | returns the log itself |
| AgentMemory.Replay | src/app/cli/memory.py:15-23 | the log after a series of add_message calls holds one message per call, in call order |
| AgentMemory.ReplaySnoc | src/app/cli/memory.py:15-23 | one more call extends the replayed log by exactly that message |
| AgentMemory.ReplayOnFresh | src/app/cli/memory.py:12-23 | issuing calls one by one on a new memory yields Replay of the calls |
| Registry.OnlyCommandsAskForConfirmation | src/app/cli/agent.py:268-285 | exactly execute_command and execute_with_context need the user's confirmation; every auto-executed tool is registered; write_file runs without asking |
| Json.Get | src/app/cli/agent.py:175-176 | dict.get finds a value exactly when the key is present, and the value is stored under that key |
| Json.SetField | src/app/cli/agent.py:248-250 | d[k] = v makes k map to v, leaves every other key alone, and appends a new key at the end |
| Agent.TagWritesGoalAndIteration | src/app/cli/agent.py:247-250 | an object-valued thought gets original_goal and the 1-based iteration with all other entries kept; any other action is unchanged |
| Agent.FirstMissing | src/app/cli/agent.py:192-196 | None exactly when every parameter without a default is supplied; otherwise the first missing one in declaration order |
| Agent.FirstUnexpected | src/app/cli/agent.py:198-201 | None exactly when every argument names a parameter; otherwise the first argument, in order, that does not |
| Agent.CriticizeAcceptsExactly | src/app/cli/agent.py:170-205 | the validator accepts exactly a finish with a response, or a registered tool whose arguments supply every required parameter and nothing else; a missing tool name and an unknown tool get their own criticism |
| Agent.EmptyNameUnregistered | src/app/cli/agent.py:12-44 | neither the empty name nor "finish" is a registered tool |
| Agent.WriteFileSignature | src/app/cli/tools.py:121 | write_file takes the required parameters path and content |
| Agent.ReadFileSignature | src/app/cli/tools.py:80 | read_file takes exactly the parameter path |
| Agent.WriteFileWithoutContent | src/app/cli/agent.py:192-196 | a write_file call with a path but no content is told that 'content' is missing, whatever else it holds |
| Agent.MissingContentText | src/app/cli/agent.py:196 | the exact text of that criticism |
| Agent.ReadFileWithExtraArgument | src/app/cli/agent.py:198-201 | a read_file call with its path and one more key is told about that key |
| Agent.ExecuteTool | src/app/cli/agent.py:208-217 | a returned string is the observation; a raised exception becomes "Error executing tool 'n': " followed by its message |
| Agent.Fetch | src/app/cli/agent.py:151-168 | skips undecodable replies and adds one "Invalid JSON" note per skipped reply; returns the first decodable reply, or None once the replies run out |
| Agent.RunFromStep | src/app/cli/agent.py:238-313 | an iteration that halts ends the run; one that goes on hands its state to the next iteration |
| Agent.ActionTools | src/app/cli/agent.py:264 | the tool names of the actions taken, one per action, in order |
| Agent.GetNextAction | src/app/cli/agent.py:151-168 | the retrying loop leaves the memory and returns the action exactly as Fetch describes |
| Agent.Iterate | src/app/cli/agent.py:238-259 | one loop iteration on the memory equals Step on the same state |
| Agent.HandleAction | src/app/cli/agent.py:254-287 | criticism, finish, confirmation and the missing-args crash, as Handle states them |
| Agent.ExecuteAction | src/app/cli/agent.py:287-313 | execution, the one-shot pwd recovery, the policy check and the record of the step, as Execute states them |
| Agent.RunLoop | src/app/cli/agent.py:238-318 | the for loop over the memory ends with the same exit and state as RunFrom from iteration 0 |
| Agent.RunAgent | src/app/cli/agent.py:219-318 | run_agent gives Run's exit and conversation; after finish the learning store holds what learn_from_interaction records, and after any other exit both stores stay empty |
| Agent.Converse | src/app/cli/agent.py:223-238 | the memory is seeded with the system prompt and the goal, and the loop's outcome is Run's |
| Agent.RunIsFromSeed | src/app/cli/agent.py:231-234 | the loop starts from exactly the system prompt, which carries the goal, followed by the goal as the user's message |
| Agent.Learn | src/app/cli/agent.py:261-318 | learning happens after finish with success; after the cap it is called without success and changes neither store |
| AgentProperties.ConfirmationAnswers | src/app/cli/agent.py:282-283 | the lower-cased answer is "y" exactly for "y" and "Y" |
| AgentProperties.PwdCallConforms | src/app/cli/agent.py:300-302 | the recovery pwd call matches execute_command's signature |
| AgentProperties.ValidatedCallConforms | src/app/cli/agent.py:254-287 | the call made for a validated, non-finish action with arguments is registered and matches its signature |
| AgentProperties.SettleFacts | src/app/cli/agent.py:306-313 | the policy check either records the step with two messages or stops with the state unchanged; it never stops with the cap's reason below the cap, and in iterations 0-3 it stops only after a README write |
| AgentProperties.ExecuteFacts | src/app/cli/agent.py:287-313 | execution records the action and its call and adds the pwd call exactly when the first observation names a missing file; going on adds two messages, or four after that recovery (the action and recovery note first); a policy stop adds none, or the two recovery messages |
| AgentProperties.HandleFacts | src/app/cli/agent.py:254-313 | handling keeps the reply position and only appends to the conversation, two or four messages when the loop goes on; an invalid action goes on with exactly itself and the criticism appended and makes no call; the cap's exits never come from handling |
| AgentProperties.HandleTakes | src/app/cli/agent.py:254-288 | handling either leaves the actions and calls alone or takes the action: validated, not finish, with arguments, auto-executed or confirmed |
| AgentProperties.HandleKeepsVetted | src/app/cli/agent.py:254-302 | handling keeps every action validated and every call matching its signature |
| AgentProperties.TookKeepsVetted | src/app/cli/agent.py:287-302 | taking a validated action keeps that invariant |
| AgentProperties.VettedExtend | src/app/cli/agent.py:287-288 | appending a validated action and conforming calls keeps that invariant |
| AgentProperties.HandleConfirmsCalls | src/app/cli/agent.py:278-302 | every call is pwd, auto-executed or confirmed; at most two calls, the second being pwd after a missing-file observation |
| AgentProperties.StepCases | src/app/cli/agent.py:242-254 | an iteration fetches first, stops with no action when the reply is missing or empty, and otherwise handles the tagged action |
| AgentProperties.StepOnlyAppends | src/app/cli/agent.py:238-313 | an iteration only appends to the conversation, the actions and the calls, never moves back in the replies, and one that goes on has consumed a reply |
| AgentProperties.StepKeepsVetted | src/app/cli/agent.py:238-313 | an iteration keeps every action validated and every call conforming |
| AgentProperties.StepConfirmsCalls | src/app/cli/agent.py:267-302 | confirmation holds for every call an iteration makes |
| AgentProperties.StepExits | src/app/cli/agent.py:306-310 | below the cap an iteration never halts with the cap's exit or reason; in iterations 0-3 a policy stop is the README stop |
| AgentProperties.DriveOnlyAppends | src/app/cli/agent.py:238-318 | a loop of such iterations only extends the state; reaching the cap consumes one reply per iteration |
| AgentProperties.DriveKeepsVetted | src/app/cli/agent.py:238-318 | a loop of iterations that keep the invariant keeps it |
| AgentProperties.DriveNoCapStop | src/app/cli/agent.py:238-318 | a loop whose iterations never stop with the cap's reason never ends with it |
| AgentProperties.RunKeeps | src/app/cli/agent.py:219-318 | a whole run keeps the seed messages first, every action validated, every call conforming, never reports the cap as a policy stop, and reaches the cap only with at least 10 decodable replies |
| Intelligence.AnalyzeUserIntent | src/app/cli/intelligence.py:19-79 | the intent type is the first category, in the order search, analysis, creation, debugging, improvement, whose keywords occur in the lower-cased goal, and "unknown" when none does; complexity is "high" with a high keyword, else "low" with a low keyword, else "medium"; the tools, approach and confidence are those of the type (four registered tools opening with the overview for a known type; none, "exploratory" and 0.5 for "unknown") |
| Intelligence.IntentTypeIff | src/app/cli/intelligence.py:40-59 | each of the six intent types is chosen exactly when its keywords occur in the lower-cased goal and no earlier category's do |
| Intelligence.IntentDeterminesRecommendation | src/app/cli/intelligence.py:67-77 | tools, approach and confidence depend on the goal only through its intent type |
| Intelligence.FindGoalIsSearch | src/app/cli/intelligence.py:40-43 | a goal opening with "find" in any case (such as "find the function named parse_config") is a search, handled by pattern matching with confidence 0.8 and the overview, exploration, pattern and symbol tools |
| Intelligence.SuggestNextTool | src/app/cli/intelligence.py:81-121 | the rules apply in order and the first names the tool: the overview exactly when no previous action mentions it; then analyze_file exactly when files were found and none of the last three actions analysed them; then the pattern, symbol, dependency and flow keywords pick find_code_patterns, navigate_to_symbol, get_file_dependencies and get_code_flow; otherwise explore_codebase; the result is always registered |
| Intelligence.PyLast | src/app/cli/intelligence.py:101 | xs[-n:] is the suffix of xs of length at most n |
| Intelligence.ListStrContains | src/app/cli/intelligence.py:97-98 | a word without brackets, commas or spaces occurs in str(list) exactly when it occurs in one element's repr |
| Intelligence.EmptyContainsNothing | src/app/cli/intelligence.py:97-98 | no non-empty word occurs in the empty text |
| Intelligence.JoinContains | src/app/cli/intelligence.py:97-98 | a word without commas or spaces occurs in ", ".join(parts) exactly when it occurs in one part |
| Intelligence.OverviewFirst | src/app/cli/intelligence.py:97-98 | the overview is suggested exactly when no previous action mentions project_overview |
| Intelligence.RunLength | src/app/cli/intelligence.py:134-135 | the longest prefix made of word characters |
| Intelligence.Words | src/app/cli/intelligence.py:134-135 | the maximal runs of word characters, each non-empty and occurring in the text |
| Intelligence.KeyTermsAreWords | src/app/cli/intelligence.py:123-137 | every key term is longer than two characters, not a stop word, starts with a letter or underscore, is made of word characters and occurs in the lower-cased text |
| Intelligence.KeyTermsIgnoreCase | src/app/cli/intelligence.py:126-135 | the key terms of a text and of its lower-cased form are the same |
| Intelligence.ExtractKeyTerms | src/app/cli/intelligence.py:123-137 | returns every key term exactly once |
| Intelligence.ListedSet | src/app/cli/intelligence.py:137 | a list with exactly a set's elements has that set as its elements |
| Intelligence.ListedSetEmpty | src/app/cli/intelligence.py:137 | such a list is empty exactly when the set is |
| Intelligence.ListOfSet | src/app/cli/intelligence.py:137 | list(s) holds every element of the set once and nothing else |
| Intelligence.StepTools | src/app/cli/intelligence.py:139-248 | one tool name per plan step, in step order |
| Intelligence.StepToolsAppend | src/app/cli/intelligence.py:139-248 | the tools of two plans joined are the two tool lists joined |
| Intelligence.HeadTools | src/app/cli/intelligence.py:155-180 | one to three registered tools, opening with exploration for a read-files goal and with the overview otherwise; write_file among them exactly for a read-files goal that writes a README |
| Intelligence.TailTools | src/app/cli/intelligence.py:182-246 | at most two registered tools, never write_file |
| Intelligence.PlanTools | src/app/cli/intelligence.py:139-248 | one to five registered tools with the same opening and write_file rule as the opening steps |
| Intelligence.PlanShape | src/app/cli/intelligence.py:139-248 | any opening followed by any intent steps has that shape |
| Intelligence.GenerateSmartPlan | src/app/cli/intelligence.py:139-248 | the plan built step by step has PlanTools' tools |
| Intelligence.OpeningSteps | src/app/cli/intelligence.py:155-180 | the opening steps have HeadTools' tools |
| Intelligence.IntentSteps | src/app/cli/intelligence.py:182-246 | the intent steps have TailTools' tools |
| Intelligence.ShouldContinueStopsExactly | src/app/cli/intelligence.py:250-296 | the policy stops exactly at the cap, after a README write, or on an error observation after iteration 3 that does not report found files or a summary; found files below the cap always continue |
| Intelligence.BelowCapNeverCapReason | src/app/cli/intelligence.py:262-263 | below the cap the stop reason is never the cap's |
| Intelligence.GetContextualSuggestions | src/app/cli/intelligence.py:325-366 | three suggestions or none, by the first rule that applies: the missing-file advice exactly when the lowered state mentions "file not found", then the error advice for "error", then the import advice for "import", then the symbol advice for "function" or "class", and none exactly when no keyword occurs |
| Intelligence.MissingFileObservationGetsErrorAdvice | src/app/cli/intelligence.py:336-350 | the read tool's "Error: File '...' not found" text gets the general error advice, never the missing-file advice (see src/app/cli/tools.py:95) |
| Intelligence.MissingFileMentionsOnlyError | src/app/cli/intelligence.py:338-345 | the lower-cased missing-file text contains "error" but not "file not found" |
| Intelligence.MissingFileLower | src/app/cli/intelligence.py:336 | lower-casing that text lower-cases only the path |
| Intelligence.LearningOnlyAppends | src/app/cli/intelligence.py:310-315 | learning keeps every stored list as a prefix, ends every key term's list with the tools just used after success, and changes nothing otherwise |
| Intelligence.CapLearningIsNoOp | src/app/cli/intelligence.py:309-323 | the learning call made at the iteration cap (src/app/cli/agent.py:318) changes neither store |
| Intelligence.CapResultNotAboutProject | src/app/cli/intelligence.py:318 | the cap's message does not mention "project" |
| Intelligence.InOrderIsSetwise | src/app/cli/intelligence.py:311-315 | extending the distinct terms one by one in list order gives the same store as extending the set of them |
| Intelligence.ExtendOneMore | src/app/cli/intelligence.py:311-315 | extending one more new term changes exactly that term's entry |
| Intelligence.AgentIntelligence.constructor | src/app/cli/intelligence.py:14-17 | both stores start empty |
| Intelligence.AgentIntelligence.LearnFromInteraction | src/app/cli/intelligence.py:298-323 | both stores become what LearnedPatterns and LearnedInsights say, whose properties the lemmas above state |
| Intelligence.AgentIntelligence.ExtendAll | src/app/cli/intelligence.py:311-315 | the entries of the distinct terms grow by the tools; the insights are untouched |
| Intelligence.AgentIntelligence.ExtendOne | src/app/cli/intelligence.py:313-315 | one term's entry, created empty when missing, grows by the tools; the insights are untouched |
| ProjectContext.PatternLinesAreCleanLines | src/app/cli/context.py:63-67 | a pattern comes from a line of the ignore file that is neither blank nor a comment, stripped, and every such line gives one; no pattern is empty, starts with # or has surrounding white space |
| ProjectContext.CollectPatterns | src/app/cli/context.py:54-71 | the loop over the ignore file appends the kept, stripped lines after the built-in patterns, in file order |
| ProjectContext.ShouldIgnoreIff | src/app/cli/context.py:73-78 | a path is ignored exactly when some pattern matches its full path or its name |
| ProjectContext.BumpCounts | src/app/cli/context.py:95 | counting a file adds one to its extension's count and to the total, and no other count changes |
| ProjectContext.BumpKeepsKeysDistinct | src/app/cli/context.py:95 | counting a file keeps the keys of the count table distinct |
| ProjectContext.BumpKeys | src/app/cli/context.py:95 | the count table gains no key other than the extension |
| ProjectContext.KeptIff | src/app/cli/context.py:88-104 | a path is kept exactly when a walked item of that kind has it and no pattern ignores it |
| ProjectContext.WalkSnoc | src/app/cli/context.py:88-104 | walking one more item is one more step of the loop body |
| ProjectContext.WalkKeeps | src/app/cli/context.py:88-104 | the walk's files and directories are the kept items of each kind, in walk order |
| ProjectContext.WalkEntryPoints | src/app/cli/context.py:97-101 | the entry points are the files with an entry-point name, in walk order |
| ProjectContext.WalkStats | src/app/cli/context.py:94-95 | the counts have distinct keys, add up to the number of files, and count each extension's files |
| ProjectContext.ScanFacts | src/app/cli/context.py:80-117 | files and directories are sorted permutations of the kept items; entry points are the kept entry-point files in walk order; the counts add up to the number of files |
| ProjectContext.ScanCountsExtensions | src/app/cli/context.py:94-95 | each extension's count is the number of kept files with that lower-cased suffix |
| ProjectContext.ContextManager.constructor | src/app/cli/context.py:47-52 | the manager holds the root, the built-in and ignore-file patterns, and the scan of the tree |
| ProjectContext.ContextManager.BuildProjectStructure | src/app/cli/context.py:80-117 | the stored structure becomes the scan that ScanFacts describes; root and patterns are unchanged |
| ProjectContext.ContextManager.WalkItems | src/app/cli/context.py:88-104 | the loop over the walk computes Walk |
| ProjectContext.ContextManager.Visit | src/app/cli/context.py:89-104 | one loop step: an ignored item is skipped, a file or directory is recorded |
| ProjectContext.ContextManager.FindFilesByPattern | src/app/cli/context.py:179-186 | returns the files PatternMatchesSelect characterises |
| ProjectContext.PatternMatchesSelect | src/app/cli/context.py:179-186 | the matches are the project files, in project order, that match the glob and carry the requested extension when one is given |
| ProjectContext.ContextManager.FindFilesByContent | src/app/cli/context.py:188-206 | returns ContentHits over the project files, with the default suffixes when none are given |
| ProjectContext.ScanLines | src/app/cli/context.py:199-202 | the inner loop gives LineHits for one file |
| ProjectContext.LineHitsSound | src/app/cli/context.py:200-202 | every hit names the file, a line that mentions the term ignoring case, by its 1-based number, and that line stripped |
| ProjectContext.LineHitsComplete | src/app/cli/context.py:200-202 | every line that mentions the term is reported |
| ProjectContext.LineHitsOrdered | src/app/cli/context.py:200-202 | hits come in increasing line order |
| ProjectContext.LineHitsExact | src/app/cli/context.py:188-206 | the three facts together |
| ProjectContext.ContentHitsFromListedFiles | src/app/cli/context.py:193-195 | every reported file is a project file with one of the searched suffixes |
| ProjectContext.ContextManager.GetFileDependencies | src/app/cli/context.py:258-282 | returns Dependencies of the file's analysis |
| ProjectContext.DottedTarget | src/app/cli/context.py:267-276 | a dotted import resolves to its module file when the project has it, else to its parent package's __init__.py when the project has that, and to nothing exactly when it has neither |
| ProjectContext.SplitThree | src/app/cli/context.py:268 | "a.b.c".split(".") gives the three parts when none holds a dot |
| ProjectContext.DottedCandidates | src/app/cli/context.py:269-272 | for `import a.b.c` the candidates are "a/b/c.py", then "a/b/__init__.py" |
| ProjectContext.ContextManager.TargetsOf | src/app/cli/context.py:266-279 | one pass of the loop over the imports adds the dotted target, if any, or every project file named after the import |
| ProjectContext.DependenciesAreProjectFiles | src/app/cli/context.py:258-282 | every dependency is a project file, and an unanalysable file has none |
| ProjectContext.ContextManager.GetContextAroundLine | src/app/cli/context.py:284-305 | returns ContextAround: the window, or the missing-file or read-error text |
| ProjectContext.ContextLineMarked | src/app/cli/context.py:298-300 | a line carries the ">>> " marker exactly when it is the requested line |
| ProjectContext.WindowLines | src/app/cli/context.py:294-299 | the window has max(0, end - start) lines |
| ProjectContext.WindowFacts | src/app/cli/context.py:294-300 | at most 2k+1 lines, the marker on exactly the requested line, and that line inside the window when it exists |
| ProjectContext.SuggestNextActions | src/app/cli/context.py:307-330 | three suggestions or none, by the first rule that applies: the error suggestions exactly when the lowered text mentions error, then the import suggestions exactly for import, then the definition suggestions for function or class, and none exactly when it mentions none of them |
| EnhancedTools.EnhancedTools.constructor | src/app/cli/enhanced_tools.py:18-20 | a new context manager scanning the project, and the process's working directory |
| EnhancedTools.GroupingFacts | src/app/cli/enhanced_tools.py:50-61 | directories are listed sorted and once each, names sorted within each directory, every shown file listed under its parent, nothing listed that was not shown, and as many names listed as files shown |
| EnhancedTools.GroupByDir | src/app/cli/enhanced_tools.py:50-55 | the by_dir loop files every name under its parent, keys in first-occurrence order |
| EnhancedTools.DirBlocksSnoc | src/app/cli/enhanced_tools.py:57-61 | one more directory adds exactly its block at the end |
| EnhancedTools.DirBlockOf | src/app/cli/enhanced_tools.py:58-61 | one directory's header, its sorted names and a blank line |
| EnhancedTools.ListGroups | src/app/cli/enhanced_tools.py:57-61 | the loop over the sorted directories gives their blocks in order |
| EnhancedTools.ExploreShows | src/app/cli/enhanced_tools.py:36-47 | the shown files are the first min(max_files, matches) matches of the effective pattern ("**/*.t" for "*" with type t), each a project file matching it and carrying the type |
| EnhancedTools.ExploreNoFiles | src/app/cli/enhanced_tools.py:39-42 | the "No files found" text is the answer exactly when nothing matches |
| EnhancedTools.EnhancedTools.ExploreCodebase | src/app/cli/enhanced_tools.py:26-63 | returns ExploreReport, whose properties the lemmas above state |
| EnhancedTools.ResolvedPath | src/app/cli/enhanced_tools.py:73-74 | an absolute path is kept; a relative one gets the working directory in front |
| EnhancedTools.ImportsCap | src/app/cli/enhanced_tools.py:105-110 | at most ten imports, the first ones in order; "... and N more" with N the number cut exactly when more than ten |
| EnhancedTools.EnhancedTools.AnalyzeFile | src/app/cli/enhanced_tools.py:65-120 | the analysis of the resolved path, or its error, with the file text or read error appended on request |
| EnhancedTools.EnhancedTools.ClassesPart | src/app/cli/enhanced_tools.py:87-95 | one block per class, in order |
| EnhancedTools.EnhancedTools.FunctionsPart | src/app/cli/enhanced_tools.py:97-103 | one block per function, in order |
| EnhancedTools.EnhancedTools.ImportsPart | src/app/cli/enhanced_tools.py:105-110 | the capped import list that ImportsCap describes |
| EnhancedTools.PatternHitsSearched | src/app/cli/enhanced_tools.py:131-132 | every match is in a project file with a searched suffix, and by default no ".txt" file is searched |
| EnhancedTools.EnhancedTools.FindCodePatterns | src/app/cli/enhanced_tools.py:122-149 | the content hits with the default suffixes when none are given, each with its context window, under a file header each time the file changes |
| EnhancedTools.EnhancedTools.ListMatches | src/app/cli/enhanced_tools.py:139-147 | the loop gives the blocks of all hits in order |
| EnhancedTools.EnhancedTools.MatchBlockAt | src/app/cli/enhanced_tools.py:141-147 | one hit's block, with the file header exactly when the file changes |
| EnhancedTools.EnhancedTools.GetFileDependencies | src/app/cli/enhanced_tools.py:151-165 | lists each dependency of the resolved path exactly once, and nothing else |
| EnhancedTools.EnhancedTools.ListDependencies | src/app/cli/enhanced_tools.py:162-163 | one line per element of the set, each once |
| EnhancedTools.FirstWhere | src/app/cli/enhanced_tools.py:180-187 | the first element that satisfies the test, or none exactly when no element does |
| EnhancedTools.FileMatch | src/app/cli/enhanced_tools.py:193-205 | a hit is in the file and its name contains the symbol ignoring case; none exactly for an unanalysable file or one where no class or function matches; a function is reported only when no class matches |
| EnhancedTools.EnhancedTools.SearchFile | src/app/cli/enhanced_tools.py:193-205 | the loops over one file's classes then functions give FileMatch |
| EnhancedTools.FirstMatchAppend | src/app/cli/enhanced_tools.py:176-205 | searching the hinted file before the project files finds the hinted file's hit when it has one |
| EnhancedTools.FirstMatchIsFirst | src/app/cli/enhanced_tools.py:190-207 | nothing is found exactly when no file has a hit; otherwise the hit is that of the earliest file with one |
| EnhancedTools.EnhancedTools.NavigateToSymbol | src/app/cli/enhanced_tools.py:167-207 | the first hit over the hinted file then the project's Python files, with its context, else the not-found text |
| EnhancedTools.ImprovementsIff | src/app/cli/enhanced_tools.py:258-277 | each suggestion appears exactly when its check fires, with the numbers of undocumented functions and classes; none exactly when everything is documented, the file has at most 200 lines and at most 20 imports |
| EnhancedTools.EnhancedTools.SuggestImprovements | src/app/cli/enhanced_tools.py:251-284 | the analysis error, the "No specific improvements" text, or the suggestions numbered from 1 |
| EnhancedTools.EnhancedTools.Enumerate | src/app/cli/enhanced_tools.py:281-282 | the enumerate loop numbers every suggestion from 1 |
| EnhancedTools.HealthFigures | src/app/cli/enhanced_tools.py:296-307 | Python files plus other files make the total; languages are listed by descending count, each once |
| EnhancedTools.EnhancedTools.GetProjectHealth | src/app/cli/enhanced_tools.py:286-324 | "Unable to analyze project structure" without a structure, else the report whose figures HealthFigures states |
| CodingWorkflows.DetectLanguage | src/app/cli/coding_workflows.py:41-60 | "unknown" exactly when the lower-cased suffix is not in the language table; otherwise one of the table's languages |
| CodingWorkflows.RunLength | src/app/cli/coding_workflows.py:90 | the length of a prefix of characters that pass the test |
| CodingWorkflows.RunLengthMaximal | src/app/cli/coding_workflows.py:90 | that prefix is the longest one: the greedy run of the regular expression |
| CodingWorkflows.DefNameShape | src/app/cli/coding_workflows.py:90-98 | a line matches `^def\s+(\w+)` only if it is "def", blank characters and a non-empty word, which is the captured name; "def " followed by a word character always matches |
| CodingWorkflows.Classes | src/app/cli/coding_workflows.py:86-87 | one classification per line, in line order |
| CodingWorkflows.FunctionScanState | src/app/cli/coding_workflows.py:83-99 | after any number of lines the pass holds the last function opened so far and its line, or no function and line 0 |
| CodingWorkflows.FunctionScanGrows | src/app/cli/coding_workflows.py:86-109 | a later line never withdraws a smell |
| CodingWorkflows.LongFunctionIff | src/app/cli/coding_workflows.py:90-97 | a long_function smell is reported for the function opening at line a exactly when the next function opens more than 50 lines later, with its name and that distance; the last function of a file is never reported |
| CodingWorkflows.DeepNestingIff | src/app/cli/coding_workflows.py:100-109 | a deep_nesting smell is reported for a line exactly when it is a non-blank, non-comment, non-def line indented more than 20 after some function has opened, with level indent // 4 |
| CodingWorkflows.FunctionScanKinds | src/app/cli/coding_workflows.py:86-109 | the function pass reports only long functions and deep nesting |
| CodingWorkflows.TodoIff | src/app/cli/coding_workflows.py:112-119 | a todo_comment smell is reported for exactly the lines holding TODO, FIXME, HACK or XXX, compared as re.IGNORECASE does |
| CodingWorkflows.FoldChar | src/app/cli/coding_workflows.py:113 | on ASCII characters the case-insensitive comparison is plain lower-casing |
| CodingWorkflows.CaseFoldAscii | src/app/cli/coding_workflows.py:113 | for ASCII text the folding is the lower-cased text |
| CodingWorkflows.TodoFolds | src/app/cli/coding_workflows.py:113 | "HAC" followed by the Kelvin sign U+212A reads as "hack", and "F", U+0130, "XME" as "fixme", wherever they occur |
| CodingWorkflows.LongLineIff | src/app/cli/coding_workflows.py:122-129 | a long_line smell is reported for exactly the lines over 120 characters, with their length |
| CodingWorkflows.DefNamesIff | src/app/cli/coding_workflows.py:132-143 | the keys of function_patterns are the names of the def lines seen so far |
| CodingWorkflows.DuplicateIff | src/app/cli/coding_workflows.py:132-143 | a duplicate_function smell is reported at a def line exactly when an earlier def line has the same name |
| CodingWorkflows.SmellKinds | src/app/cli/coding_workflows.py:79-145 | long lines and TODOs are reported for every file; the function and duplicate smells only for a Python file |
| CodingWorkflows.FindCodeSmells | src/app/cli/coding_workflows.py:62-145 | no smells for an unreadable file; otherwise the four passes in order, as the lemmas above characterise them |
| CodingWorkflows.FunctionSmells | src/app/cli/coding_workflows.py:83-109 | the loop carrying current_function and function_start gives the function pass |
| CodingWorkflows.FunctionLine | src/app/cli/coding_workflows.py:87-109 | one line of that loop is one step of the pass |
| CodingWorkflows.DuplicatePass | src/app/cli/coding_workflows.py:132-143 | the loop over function_patterns gives the duplicate pass |
| CodingWorkflows.RefactoringsFacts | src/app/cli/coding_workflows.py:161-195 | one add_docstring suggestion per undocumented function, one split_class per class with more than 10 methods, and one organize_imports when there are more than 15 imports, and nothing else |
| CodingWorkflows.SuggestRefactoring | src/app/cli/coding_workflows.py:147-195 | none on an analysis error, else the suggestions RefactoringsFacts describes, in that order |
| CodingWorkflows.TestIdeasFacts | src/app/cli/coding_workflows.py:211-235 | one unit test per function whose name starts with neither "_" nor "test", one integration test per class not starting with "_", and nothing else |
| CodingWorkflows.GenerateTestSuggestions | src/app/cli/coding_workflows.py:197-235 | none on an analysis error, else those ideas in that order |
| CodingWorkflows.PatternHitsIff | src/app/cli/coding_workflows.py:265-266 | a line gets one issue for each of the kind's patterns it matches |
| CodingWorkflows.PassIssuesIff | src/app/cli/coding_workflows.py:264-273 | a pass reports an issue at line n exactly when line n matches one of its patterns |
| CodingWorkflows.SecurityIssuesFacts | src/app/cli/coding_workflows.py:254-304 | an issue of a kind is reported at a line exactly when the line matches one of that kind's patterns; secrets and SQL ignore case, eval does not |
| CodingWorkflows.FindSecurityIssues | src/app/cli/coding_workflows.py:237-304 | none for an unreadable file, else the three passes in order |
| CodingWorkflows.ScanPass | src/app/cli/coding_workflows.py:264-273 | the nested loops over lines and patterns give one pass |
| CodingWorkflows.Complexity | src/app/cli/coding_workflows.py:333-340 | "high" exactly above 10 functions or 200 lines of code, "low" exactly at most 5 functions and 100 lines of code, else "medium" |
| CodingWorkflows.ComplexityMonotone | src/app/cli/coding_workflows.py:337-340 | more functions or more code never lowers the rating |
| CodingWorkflows.CodeMetrics | src/app/cli/coding_workflows.py:306-342 | metrics exist exactly when the file can be read |
| CodingWorkflows.LineClassesPartition | src/app/cli/coding_workflows.py:326-329 | every line is exactly one of code, blank or comment |
| CodingWorkflows.MetricsAddUp | src/app/cli/coding_workflows.py:325-329 | lines of code, blank lines and comment lines add up to the total |
| CodingWorkflows.DocSuggestionsFacts | src/app/cli/coding_workflows.py:358-390 | the module docstring suggestion first, always, then one per undocumented public function and one per undocumented class, and nothing else |
| CodingWorkflows.GenerateDocumentationSuggestions | src/app/cli/coding_workflows.py:344-390 | none on an analysis error, else those suggestions in that order |
| AppTools.GetIgnorePatterns | src/app/cli/tools.py:28-39 | the loop over the ignore file gives its patterns, none when the file is missing |
| AppTools.IgnoreFilePatternsAreCleanLines | src/app/cli/tools.py:32-39 | no patterns without the file; a pattern is exactly a stripped line that is neither blank nor a comment, so never empty and never starting with # |
| AppTools.ListFiles | src/app/cli/tools.py:41-77 | the missing-directory error, the walk error, "No files found", or the sorted entry lines of the one-level or recursive walk |
| AppTools.WalkLinesIff | src/app/cli/tools.py:59-75 | a line is listed exactly when the walk yields a file or directory that no pattern matches, and the lines come out sorted, each as often as the walk gives it |
| AppTools.ReadFile | src/app/cli/tools.py:80-97 | returns what ReadText answers for the path on the current filesystem (see ReadTextCases) |
| AppTools.ReadTextCases | src/app/cli/tools.py:90-97 | "Contents of p:" and the text for a file; "Error reading file" with Errno 21 for a directory and with Errno 20 for a path below a regular file; the not-found text exactly when neither the path nor anything on its way exists |
| AppTools.WriteFile | src/app/cli/tools.py:122-143 | the filesystem and message become WriteOut's, whose properties the lemmas below state |
| AppTools.WriteThenRead | src/app/cli/tools.py:133-143 | a successful write changes exactly the written file, and reading it back gives the content with "\r\n" and "\r" read as "\n", so the content itself when it holds no "\r"; a failed write changes no file and says "Error writing to file" |
| AppTools.BareNameMakesNoDirectory | src/app/cli/tools.py:135-137 | a path with no directory part creates no directory |
| AppTools.LowerSuccessText | src/app/cli/tools.py:141 | the lower-cased success message is the lower-cased path inside the fixed words |
| AppTools.ReadmeWriteStops | src/app/cli/tools.py:141 | a successful write to a path containing readme.md in any case makes the continuation policy stop (src/app/cli/intelligence.py:268-269) |
| AppTools.MissingFileIsRecognised | src/app/cli/tools.py:94-95 | reading a path that raises FileNotFoundError (no file or directory there and no regular file on its way) gives the observation that the agent's missing-file recovery looks for (src/app/cli/agent.py:291) |
| AppTools.ReadMultipleFiles | src/app/cli/tools.py:99-119 | one chunk per path, in order, joined by blank lines |
| AppTools.ReadMultipleAppend | src/app/cli/tools.py:109-119 | reading two lists of paths gives the two reports joined by a blank line: no path affects another's chunk |
| AppTools.ReadMultipleMissing | src/app/cli/tools.py:115-116 | a path that raises FileNotFoundError gives exactly the not-found chunk |
| AppTools.ReadMultipleUnderFile | src/app/cli/tools.py:117-118 | a path below a regular file gives the "Error reading file" chunk with the Errno 20 text instead |
| AppTools.IconsAreKnown | src/app/cli/tools.py:319-450 | the default icon shows exactly for an unknown severity or priority, and never for anything the workflows produce |
| AppTools.ListReportEmptyIff | src/app/cli/tools.py:314-325 | the empty-list text shows exactly when there is nothing to report |
| AppTools.ListReportOf | src/app/cli/tools.py:317-325 | the loop over the items gives the heading and one entry per item, stripped |
| AppTools.FindCodeSmells | src/app/cli/tools.py:301-325 | the report of the workflow's smells |
| AppTools.SuggestRefactoring | src/app/cli/tools.py:327-351 | the report of the workflow's refactorings |
| AppTools.GenerateTestSuggestions | src/app/cli/tools.py:353-377 | the report of the workflow's test ideas |
| AppTools.FindSecurityIssues | src/app/cli/tools.py:379-403 | the report of the workflow's issues |
| AppTools.GenerateDocumentationSuggestions | src/app/cli/tools.py:432-456 | the report of the workflow's documentation suggestions |
| AppTools.SmellsEmptyIff | src/app/cli/tools.py:314-315 | "No code smells found in p" exactly when there are none |
| AppTools.RefactoringEmptyIff | src/app/cli/tools.py:340-341 | "No refactoring suggestions for p" exactly when there are none |
| AppTools.TestsEmptyIff | src/app/cli/tools.py:366-367 | "No test suggestions for p" exactly when there are none |
| AppTools.IssuesEmptyIff | src/app/cli/tools.py:392-393 | "No security issues found in p" exactly when there are none |
| AppTools.DocsEmptyIff | src/app/cli/tools.py:445-446 | "No documentation suggestions for p" exactly when there are none |
| AppTools.NoRefactoringExactly | src/app/cli/tools.py:340-341 | there is no refactoring suggestion exactly when every function has a docstring, no class has more than 10 methods and there are at most 15 imports (src/app/cli/coding_workflows.py:164-193) |
| AppTools.GetCodeMetrics | src/app/cli/tools.py:405-430 | the "Could not analyze" text or the metrics report |
| AppTools.MetricsMissingExactly | src/app/cli/tools.py:418-419 | "Could not analyze metrics" exactly when the file cannot be read |
| AppTools.MetricsRatingLast | src/app/cli/tools.py:428 | the report ends with the upper-cased complexity rating |
| AppTools.RatingWords | src/app/cli/tools.py:428 | the rating shown is HIGH, MEDIUM or LOW |
| AppTools.Section | src/app/cli/tools.py:482-513 | one file's section: the read error alone for an unreadable file, else heading, structure and capped content |
| AppTools.Structure | src/app/cli/tools.py:491-504 | the structure lines, nothing when the analysis failed |
| AppTools.ReadAndSummarizeProject | src/app/cli/tools.py:458-518 | the heading, the overview, one section per detailed file and the trailer |
| AppTools.SummaryFiles | src/app/cli/tools.py:471-481 | at most ten files are detailed, the first relevant ones in project order, each a project Python file outside any cache, and all of them when there are no more than ten |
| AppTools.SummaryTrailer | src/app/cli/tools.py:515-516 | the "more files" trailer is empty exactly when every relevant file was detailed, and otherwise counts the files left out |
| AppTools.ContentCapped | src/app/cli/tools.py:507-510 | the content shown is a prefix of at most 1000 characters, and the whole file exactly when it has at most 1000 |
| CriaAgent.AvailableToolsAreFour | src/cria/cli/agent.py:8-13 | the dispatch table holds four distinct tools, each also a tool of the newer agent |
| CriaAgent.PromptListsEveryTool | src/cria/cli/agent.py:15-47 | the system prompt describes exactly the table's tools, in table order, one line each |
| CriaAgent.GetInitialMessages | src/cria/cli/agent.py:44-49 | two messages: the system prompt, then the goal as the user's message |
| CriaAgent.InitialMessagesDifferOnlyInGoal | src/cria/cli/agent.py:44-49 | the system message does not depend on the goal, and two goals give the same messages only when they are equal |
| CriaAgent.ExecuteTool | src/cria/cli/agent.py:65-74 | an unknown tool gives "Error: Unknown tool"; a known one returns the tool's string, turns a TypeError into "Error: Invalid arguments for tool", and lets exactly the other exceptions escape |
| CriaAgent.UnknownToolCallsNothing | src/cria/cli/agent.py:67-74 | for an unknown tool the answer does not depend on what the call would have done |
| CriaAgent.NewerAgentCatchesMore | src/cria/cli/agent.py:69-72 | the two agents agree on a returned string; on an exception the older one never gives the newer one's text (src/app/cli/agent.py:214-217), and any exception other than TypeError escapes |
| CriaAgent.ReplyContent | src/cria/cli/agent.py:60 | response['message']['content'] is found exactly under those keys; a missing key is told apart from a value that cannot be indexed |
| CriaAgent.GetNextAction | src/cria/cli/agent.py:51-63 | None exactly for a missing key or undecodable content, with no retry; the decoded value exactly for decodable string content; anything else propagates |
| CriaAgent.WellFormedReply | src/cria/cli/agent.py:60-63 | a reply with string content is decoded, or gives None when the content is not JSON |
| CriaTools.ListFiles | src/cria/cli/tools.py:10-37 | the missing-directory error, the walk error, "No files found", or the sorted entry lines |
| CriaTools.ListingWithoutPatterns | src/cria/cli/tools.py:20-37 | the older listing is the newer one-level listing with no ignore patterns (src/app/cli/tools.py:52-77) |
| CriaTools.NoFilesIff | src/cria/cli/tools.py:32-33 | for an existing directory "No files found" is the answer exactly when the walk yields no file and no directory |
| CriaTools.EntryLinesIff | src/cria/cli/tools.py:25-35 | each line names a file or directory the walk yields, every such entry gives a line, and the lines come out sorted |
| CriaTools.ReadFile | src/cria/cli/tools.py:40-57 | reads as the newer tool does: the contents under "Contents of p:", the not-found text when nothing is on the path's way, and "Error reading file" with Errno 20 for a path below a regular file |
| CriaTools.WriteFile | src/cria/cli/tools.py:60-79 | the filesystem and message become WriteAsWritten's: makedirs on the directory part first, always |
| CriaTools.BareNameWriteFails | src/cria/cli/tools.py:73 | a path with no '/' is never written: the filesystem is unchanged and the message is the makedirs error, where the newer tool writes the file |
| CriaTools.ReadmeWriteFails | src/cria/cli/tools.py:73-79 | writing "README.md" into an empty directory fails in the older tool and succeeds in the newer one |
| CriaTools.NestedWriteAgrees | src/cria/cli/tools.py:71-79 | with a directory part the older and newer tools write alike |
| FileSystem.Open | src/app/cli/tools.py:90-97 | open and read give the file's text exactly for a file, IsADirectoryError exactly for a directory, NotADirectoryError exactly for another path with a regular file among its ancestors, and FileNotFoundError for the rest |
| FileSystem.Quoted | src/app/cli/tools.py:96-97 | repr of a path in an OSError text is enclosed in the same quote at both ends: a double quote when the path holds a single quote and no double quote, else a single quote |
| FileSystem.QuotedRoundTrip | src/app/cli/tools.py:96-97 | reading the escapes between the quotes back gives the path: repr loses nothing |
| FileSystem.QuotedVerbatim | src/app/cli/tools.py:96-97 | a path of printable characters without backslash is shown as it is, in double quotes exactly when it holds a single quote ("it's.txt" becomes "\"it's.txt\"") |
| FileSystem.MakeDirs | src/app/cli/tools.py:137 | os.makedirs fails exactly for the empty path or when d is not a directory and d or one of its ancestors is a file (Errno 17 when d itself is the file); an existing directory is accepted as it is; otherwise the files stay and exactly d and its ancestors are added to the directories |
| FileSystem.CreateFile | src/app/cli/tools.py:139-140 | writing succeeds exactly for a non-empty path that is not a directory and has no trailing '/', and then sets exactly that file, to the text a later read gives back |
| FileSystem.ReadBack | src/app/cli/tools.py:91-92 | what text-mode reading gives for written text: no "\r" is left, and text without "\r" comes back unchanged |
| FileSystem.ReadBackIdempotent | src/app/cli/tools.py:91-92 | reading back a second time changes nothing |
| FileSystem.ReadBackLineEnds | src/app/cli/tools.py:91-92 | "\r\n" and a lone "\r" both read as "\n"; "x\r\ny" reads as "x\ny" |
| FileSystem.Disk.constructor | src/app/cli/tools.py:139-140 | the disk holds the given filesystem |
| Paths.LastIndexOf | src/app/cli/tools.py:135 | the index of the last occurrence, or -1 when there is none |
| Paths.StripTrailingSlashes | src/app/cli/tools.py:135 | a prefix of the path with no trailing '/' |
| Paths.BaseName | src/app/cli/context.py:76 | the last component, without '/' |
| Paths.Suffix | src/app/cli/context.py:94 | empty, or a '.' and at least one more character ending the name |
| Paths.DirName | src/app/cli/tools.py:135 | a path without '/' has no directory part |
| Paths.Ancestors | src/app/cli/tools.py:137 | every directory makedirs visits is shorter than the path |
| Paths.Resolve | src/app/cli/enhanced_tools.py:73-74 | an absolute path replaces the base |
| Sorting.LexLeTotal | src/app/cli/context.py:111-112 | any two strings are ordered one way or the other |
| Sorting.LexLeTransitive | src/app/cli/context.py:111-112 | the string order is transitive |
| Sorting.LexLeAntisymmetric | src/app/cli/context.py:111-112 | strings ordered both ways are equal |
| Sorting.Sort | src/app/cli/context.py:111-112 | sorted(s) is ordered and a permutation of s |
| Sorting.SortByCountDesc | src/app/cli/enhanced_tools.py:306 | sorting by count, reversed, is ordered largest first and a permutation of the input |

## Left out

- The language model call (`ollama.chat`, src/app/cli/agent.py:151-168 and src/cria/cli/agent.py:54-59) is a network call: the replies are a finite input sequence, and running out of replies ends the run with no action.
- `json.loads` and `json.dumps` are inputs: replies arrive decoded or marked malformed, and the newer agent's `json.dumps(action)` is a function parameter.
- The system prompt text built with `inspect` (src/app/cli/agent.py:46-148) is a parameter; only the goal lines the loop adds to it are modelled.
- The user's answers to the confirmation prompt are an input, one per iteration.
- Tool execution in the newer agent is an input: each call either returns a string or raises with a message. Values other than strings in tool arguments are carried as JSON values and not interpreted.
- Agent.ExecuteTool: a TypeError raised by argument binding is not derived from the tool's signature; it is part of the call's outcome.
- CriaAgent.ExecuteTool: whether calling the tool raises a TypeError, another exception or returns is an input, not derived from the tool's signature.
- Display, printing and terminal input (`display_agent_thought`, `display_observation`, `get_user_input`, the TUI modules and both `__main__.py` loops) are not part of this model.
- src/cria/__main__.py is not part of this model; it calls a `run_agent` that src/cria/cli/agent.py does not define.
- The `MODEL` constants (src/app/cli/agent.py:9, src/cria/cli/agent.py:5) and the `options` and `format` arguments of the request are network settings and are left out.
- Subprocess tools are left out because they are operating-system I/O: `execute_command` (both agents), `execute_with_context`, `_get_git_info` and `get_git_branch`. The git information is an input record.
- `get_project_overview` (src/app/cli/context.py:149-177) formats the structure with `json.dumps`; its text is an input of `read_and_summarize_project`.
- `get_code_flow` (src/app/cli/enhanced_tools.py:209-249) is not part of this model.
- `analyze_python_file` walks a Python AST (src/app/cli/context.py:208-256). Its record, or its error, is an input.
- Regular-expression search, `fnmatch`, `Path.rglob` and `Path.iterdir` are inputs: a match predicate and the walk's entries in the operating system's order, or the error it raised. Three expressions whose results are structural are modelled: `^def\s+(\w+)` and the key-term pattern of `extract_key_terms` with ASCII word characters only (next lines), and `(TODO|FIXME|HACK|XXX)` under `re.IGNORECASE`, whose case-insensitive comparison is modelled for every character, including the non-ASCII ones that match an ASCII letter (U+0130 and U+0131 for i, U+017F for s, U+212A for k).
- CodingWorkflows.DefNameShape: `\w` is ASCII in the model and Unicode in Python 3, so a def line whose name starts with a non-ASCII letter ("def été():") opens no function in the model, and a name with one ("def café():") is cut at it ("caf").
- Intelligence.Words: the `\b` around each key term is computed with ASCII word characters; Python's is Unicode, so for "résumé parser" the model finds the run "sum" inside "résumé", where Python finds no term there.
- Intelligence.ExtractKeyTerms: inherits that ASCII word boundary; "résumé parser" gives {"sum", "parser"} in the model and ["parser"] in Python.
- `str.lower` and `str.upper` are modelled on ASCII letters only; other characters are unchanged.
- Reading a file as UTF-8 never fails for decoding reasons in the model: a file is its text.
- A `.criaignore` that is a directory, and permission errors in general, are not modelled: the ignore file is either missing or has text.
- The plan returned by `generate_smart_plan` is not used by `run_agent` beyond its construction; the model builds it but does not thread it through the loop.
- Confidence values 0.5, 0.7 and 0.8 are kept exactly, in tenths.
- The lazy module-level `EnhancedTools` instance (src/app/cli/tools.py:15-26) is passed explicitly.
- `sorted` on equal counts keeps the input order in Python; Sorting.SortByCountDesc states only that the result is ordered by count and a permutation, not which of two equal counts comes first.
- ProjectContext.ContextManager.GetFileDependencies: returns the set of dependencies; the order `list(set(...))` gives depends on string hashing and is not modelled.
- EnhancedTools.EnhancedTools.GetFileDependencies: states that each dependency is listed once and nothing else is, not the order, for the same reason.
- Intelligence.ExtractKeyTerms: states which terms are returned, each once, not their order, which `list(set(...))` leaves to string hashing.
- Intelligence.ListOfSet: the same; only contents and the absence of repeats are stated.
- FileSystem.CreateFile: a missing parent directory is not a failure of the model's `open(p, 'w')`; only an empty path, a directory or a trailing '/' make it fail.
- FileSystem.Quoted: non-ASCII characters are all taken as printable; Python's `repr` escapes the non-printable ones (U+00A0 as `\xa0`, U+2028 as `\u2028`), so an error text naming such a path differs.
- FileSystem.Open: a path is "Not a directory" whenever any proper ancestor is a regular file. On a real disk the ancestors of an existing file are directories, so that is the first non-directory met while resolving the path. The model's filesystem does not enforce this, and for a state where "a" is missing but "a/f" is a file it answers Errno 20 for "a/f/x".
- FileSystem.MakeDirs: a failing `os.makedirs` leaves the filesystem unchanged in the model; partial creation of some ancestors before the failure is not modelled.
- FileSystem.Open, FileSystem.CreateFile and FileSystem.MakeDirs: files are keyed by the path string as given, with no normalisation, so "./notes.txt" and "notes.txt" name different files (reading the first after writing the second reports a missing file and starts the agent's `pwd` recovery, which Python would not), and `makedirs("a//b")` records "a/" as a directory where Python visits only "a".
- FileSystem.CreateFile: writing uses the POSIX line separator, so "\n" is written as it is; only reading translates line ends.
- Agent.Criticize, Agent.Fetch and the Reply datatype: a decoded reply is an object whose "tool" is a string or missing and whose "args" is an object or missing. The model has no reply that decodes to a value other than an object; a truthy one raises at src/app/cli/agent.py:247 (a number) or at `action.get` on line 252, and a falsy one ends the run at line 243. Nor does it have a "tool" that is a number, a boolean or a list, which gives "Unknown tool '5'" or an unhashable-type TypeError at line 187. Nor "args" that are null, a string or a list, which on a registered tool reach the "An unexpected error occurred during criticism" branch at lines 204-205.
- The cwd of the process is a parameter of the enhanced tools and of `read_file` paths relative to it.
- Concurrency and the operating system changing files between calls are not modelled.

## Findings

| source | as written | input that shows it | evidently intended | confidence | as-written member | corrected member |
|---|---|---|---|---|---|---|
| src/cria/cli/tools.py:73 | `write_file` always calls `os.makedirs(os.path.dirname(path), exist_ok=True)` | path "README.md": `os.path.dirname` gives "", `os.makedirs("")` raises FileNotFoundError, and the tool answers "Error writing to file 'README.md': [Errno 2] No such file or directory: ''" without writing | skip `makedirs` when the directory part is empty, as src/app/cli/tools.py:135-137 does, so a file in the working directory is written | not executed | CriaTools.BareNameWriteFails | AppTools.WriteThenRead |
