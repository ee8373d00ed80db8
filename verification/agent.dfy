/**
 * The agent's control loop: validation of a proposed tool call against the
 * registry, tool dispatch, and the bounded iteration that drives the model,
 * the user confirmation, the tools, the file-not-found recovery and the
 * continuation policy.
 *
 * The model, the user and the tools are inputs: a finite script of model
 * replies, an answer per iteration, and a function giving each tool call's
 * outcome from the calls made before it.
 */
module Agent {
  import opened Text
  import opened Json
  import opened Registry
  import opened AgentMemory
  import opened Intelligence

  const MaxIterations: nat := 10

  // ---------------------------------------------------------------------
  // Actions

  /** The `tool` entry of a decoded action: missing, JSON null, or a string. */
  datatype ToolField = Absent | NullTool | Name(s: string)

  /**
   * A decoded action object: its `tool`, `args` and `thought` entries (each
   * possibly missing) and its remaining entries.
   */
  datatype Action = Action(tool: ToolField, args: Option<Fields>, thought: Option<Value>, others: Fields)

  /** `not action`: the decoded object has no entries at all. */
  predicate IsEmpty(a: Action) {
    a.tool.Absent? && a.args.None? && a.thought.None? && a.others == []
  }

  /** `action.get("tool")` when it is a string, else the empty name. */
  function ToolName(a: Action): string {
    if a.tool.Name? then a.tool.s else ""
  }

  /** `action.get("args", {})` */
  function ArgsOf(a: Action): Fields {
    if a.args.Some? then a.args.value else []
  }

  /** The goal and the 1-based iteration number written into an object-valued thought. */
  function Tag(a: Action, goal: string, i: nat): Action {
    if a.thought.Some? && a.thought.value.Obj? then
      var f := SetField(SetField(a.thought.value.fields, "original_goal", Str(goal)), "current_iteration", Num(i + 1));
      a.(thought := Some(Obj(f)))
    else a
  }

  /**
   * Tagging changes only an object-valued thought: it then holds the goal and
   * the 1-based iteration, and every other thought entry is kept.
   */
  lemma TagWritesGoalAndIteration(a: Action, goal: string, i: nat)
    ensures var r := Tag(a, goal, i);
      r.tool == a.tool && r.args == a.args && r.others == a.others
    ensures var r := Tag(a, goal, i);
      a.thought.Some? && a.thought.value.Obj? ==>
      r.thought.Some? && r.thought.value.Obj?
      && Get(r.thought.value.fields, "original_goal") == Some(Str(goal))
      && Get(r.thought.value.fields, "current_iteration") == Some(Num(i + 1))
      && forall k :: k != "original_goal" && k != "current_iteration" ==>
           Get(r.thought.value.fields, k) == Get(a.thought.value.fields, k)
    ensures !(a.thought.Some? && a.thought.value.Obj?) ==> Tag(a, goal, i) == a
  {
  }

  // ---------------------------------------------------------------------
  // Validation

  /** A parameter without a default that the arguments do not supply. */
  predicate IsMissing(p: Param, args: Fields) {
    !p.hasDefault && !HasKey(args, p.name)
  }

  /** The first required parameter, in declaration order, missing from `args`. */
  function FirstMissing(ps: seq<Param>, args: Fields): (r: Option<string>)
    ensures r.None? <==> forall k :: 0 <= k < |ps| ==> !IsMissing(ps[k], args)
    ensures r.Some? ==> exists k :: 0 <= k < |ps| && ps[k].name == r.value && IsMissing(ps[k], args)
                                    && forall j :: 0 <= j < k ==> !IsMissing(ps[j], args)
    decreases |ps|
  {
    if ps == [] then None
    else if IsMissing(ps[0], args) then Some(ps[0].name)
    else
      var r := FirstMissing(ps[1..], args);
      if r.Some? then
        var k :| 0 <= k < |ps[1..]| && ps[1..][k].name == r.value && IsMissing(ps[1..][k], args)
                 && forall j :: 0 <= j < k ==> !IsMissing(ps[1..][j], args);
        assert ps[k + 1] == ps[1..][k];
        assert forall j :: 1 <= j < k + 1 ==> ps[j] == ps[1..][j - 1];
        r
      else
        assert forall j :: 1 <= j < |ps| ==> ps[j] == ps[1..][j - 1];
        r
  }

  function ParamNames(ps: seq<Param>): seq<string> {
    seq(|ps|, j requires 0 <= j < |ps| => ps[j].name)
  }

  /** The first key of `args`, in order, that names no parameter. */
  function FirstUnexpected(args: Fields, names: seq<string>): (r: Option<string>)
    ensures r.None? <==> forall k :: 0 <= k < |args| ==> args[k].0 in names
    ensures r.Some? ==> r.value !in names && exists k :: 0 <= k < |args| && args[k].0 == r.value
                                               && forall j :: 0 <= j < k ==> args[j].0 in names
    decreases |args|
  {
    if args == [] then None
    else if args[0].0 !in names then Some(args[0].0)
    else
      var r := FirstUnexpected(args[1..], names);
      if r.Some? then
        var k :| 0 <= k < |args[1..]| && args[1..][k].0 == r.value
                 && forall j :: 0 <= j < k ==> args[1..][j].0 in names;
        assert args[k + 1] == args[1..][k];
        assert forall j :: 1 <= j < k + 1 ==> args[j] == args[1..][j - 1];
        r
      else
        assert forall j :: 1 <= j < |args| ==> args[j] == args[1..][j - 1];
        r
  }

  const MissingToolCriticism: string := "The 'tool' field is missing in your response."
  const MissingResponseCriticism: string := "The 'response' field is missing in the 'finish' tool."

  function UnknownToolCriticism(name: string): string {
    "Unknown tool '" + name + "'. Please choose from the available tools: " + ReprStrings(ToolNames)
  }

  function MissingArgumentCriticism(p: string, name: string): string {
    "Missing required argument '" + p + "' for tool '" + name + "'."
  }

  function UnexpectedArgumentCriticism(k: string, name: string): string {
    "Unexpected argument '" + k + "' for tool '" + name + "'."
  }

  /** `criticize_tool_call`: the first problem found, or `None` for a valid call. */
  function Criticize(a: Action): (r: Option<string>)
  {
    var name := ToolName(a);
    var args := ArgsOf(a);
    if name == "" then Some(MissingToolCriticism)
    else if name == "finish" then
      if HasKey(args, "response") then None else Some(MissingResponseCriticism)
    else if !IsRegistered(name) then Some(UnknownToolCriticism(name))
    else
      var missing := FirstMissing(Params(name), args);
      if missing.Some? then Some(MissingArgumentCriticism(missing.value, name))
      else
        var unexpected := FirstUnexpected(args, ParamNames(Params(name)));
        if unexpected.Some? then Some(UnexpectedArgumentCriticism(unexpected.value, name))
        else None
  }

  /**
   * The validator accepts exactly a `finish` whose arguments hold a response,
   * or a registered tool whose arguments supply every required parameter and
   * nothing else; a missing, null or empty tool name is reported first.
   */
  lemma CriticizeAcceptsExactly(a: Action)
    ensures Criticize(a).None? <==>
      (ToolName(a) == "finish" && HasKey(ArgsOf(a), "response"))
      || (ToolName(a) != "finish" && IsRegistered(ToolName(a))
          && (forall k :: 0 <= k < |Params(ToolName(a))| ==> !IsMissing(Params(ToolName(a))[k], ArgsOf(a)))
          && (forall k :: 0 <= k < |ArgsOf(a)| ==> ArgsOf(a)[k].0 in ParamNames(Params(ToolName(a)))))
    ensures ToolName(a) == "" ==> Criticize(a) == Some(MissingToolCriticism)
    ensures ToolName(a) != "" && ToolName(a) != "finish" && !IsRegistered(ToolName(a)) ==>
      Criticize(a) == Some(UnknownToolCriticism(ToolName(a)))
  {
    EmptyNameUnregistered();
  }

  lemma EmptyNameUnregistered()
    ensures !IsRegistered("") && !IsRegistered("finish")
  {
  }

  lemma WriteFileSignature()
    ensures IsRegistered("write_file") && "write_file" != "" && "write_file" != "finish"
    ensures Params("write_file") == [Required("path"), Required("content")]
  {
  }

  lemma ReadFileSignature()
    ensures IsRegistered("read_file") && "read_file" != "" && "read_file" != "finish"
    ensures ParamNames(Params("read_file")) == ["path"]
  {
    assert Params("read_file") == [Required("path")];
  }

  /** A write that supplies a path but no content is told about the content, whatever else it holds. */
  lemma WriteFileWithoutContent(a: Action)
    requires ToolName(a) == "write_file"
    requires HasKey(ArgsOf(a), "path") && !HasKey(ArgsOf(a), "content")
    ensures Criticize(a) == Some("Missing required argument 'content' for tool 'write_file'.")
  {
    WriteFileSignature();
    var ps := Params("write_file");
    assert !IsMissing(ps[0], ArgsOf(a)) && IsMissing(ps[1], ArgsOf(a));
    assert ps[1..][0] == ps[1];
    assert FirstMissing(ps[1..], ArgsOf(a)) == Some("content");
    assert FirstMissing(ps, ArgsOf(a)) == Some("content");
    MissingContentText();
  }

  lemma MissingContentText()
    ensures MissingArgumentCriticism("content", "write_file")
         == "Missing required argument 'content' for tool 'write_file'."
  {
  }

  /** A read with its path and one more argument is told about that argument. */
  lemma ReadFileWithExtraArgument(a: Action, p: Value, k: string, v: Value)
    requires ToolName(a) == "read_file" && a.args == Some([("path", p), (k, v)]) && k != "path"
    ensures Criticize(a) == Some(UnexpectedArgumentCriticism(k, "read_file"))
  {
    ReadFileSignature();
    var args := ArgsOf(a);
    assert args[0].0 == "path";
    assert !IsMissing(Params("read_file")[0], args);
    assert FirstMissing(Params("read_file"), args) == None;
    assert args[1..][0].0 == k;
    assert FirstUnexpected(args[1..], ["path"]) == Some(k);
    assert FirstUnexpected(args, ["path"]) == Some(k);
  }

  // ---------------------------------------------------------------------
  // Dispatch

  /** A tool invocation: the tool's name and its keyword arguments. */
  type Call = (string, Fields)

  /** What calling a tool function does: return a string or raise. */
  datatype ToolOutcome = Returned(s: string) | Raised(message: string)

  /** `execute_tool`: a raised exception becomes an error string, so the caller always gets text. */
  function ExecuteTool(outcome: ToolOutcome, name: string): (r: string)
    ensures outcome.Returned? ==> r == outcome.s
    ensures outcome.Raised? ==> StartsWith(r, "Error executing tool '" + name + "': ")
                                && r[|"Error executing tool '" + name + "': "|..] == outcome.message
  {
    if outcome.Returned? then outcome.s
    else "Error executing tool '" + name + "': " + outcome.message
  }

  // ---------------------------------------------------------------------
  // The loop, as a function of its inputs

  /** A reply of the model: decodable JSON or not. */
  datatype Reply = Malformed | Parsed(action: Action)

  datatype Env = Env(
    goal: string,
    basePrompt: string,                            // get_system_prompt()
    replies: seq<Reply>,                           // the model's replies, in order
    answer: nat -> string,                         // the user's answer at each iteration
    invoke: (seq<Call>, Call) -> ToolOutcome,      // a tool call's outcome, given the earlier calls
    dump: Action -> string)                        // json.dumps

  /** The loop's state: the conversation, the actions taken, the calls made, the next reply. */
  datatype Loop = Loop(history: seq<Message>, taken: seq<Action>, calls: seq<Call>, pos: nat)

  datatype StepResult = Next(st: Loop) | Halt(exit: Exit, st: Loop)

  /** How `run_agent` ends. */
  datatype Exit =
    | Finished(response: string)   // a valid `finish` with a string response
    | NoAction                     // no usable reply from the model
    | Denied                       // the user did not confirm
    | PolicyStop(reason: string)   // `should_continue` said stop
    | CapReached                   // all iterations ran without a break
    | Crashed(error: string)       // an exception escaped the loop

  function SystemPrompt(env: Env): string {
    env.basePrompt + GoalHeading + env.goal + FocusReminder
  }

  const GoalHeading: string := "\n\n**CURRENT GOAL**: "
  const FocusReminder: string :=
    "\n**IMPORTANT**: Stay focused on this specific goal throughout the conversation. Do not deviate from the user's request."

  const InvalidJsonNote: string := "Invalid JSON response. Please provide a valid JSON object."

  function InvalidCallNote(criticism: string): string {
    InvalidCallOpening + criticism + InvalidCallClosing
  }

  const InvalidCallOpening: string := "Your last tool call was invalid. "
  const InvalidCallClosing: string := ". Please try again with the correct arguments."

  function ObservationNote(obs: string): string {
    "Observation: " + obs
  }

  function RecoveryNote(obs: string): string {
    ObservationNote(obs) + RecoveryPlan
  }

  const RecoveryPlan: string :=
    "\n\nI got a 'file not found' error. I will now run `pwd` to find out my current working directory."

  const PwdArgs: Fields := [("command", Str("pwd"))]
  const PwdAction: Action := Action(Name("execute_command"), Some(PwdArgs), None, [])
  const PwdCall: Call := ("execute_command", PwdArgs)

  /** The conversation the loop starts from: the system prompt, then the goal. */
  function Seed(env: Env): Loop {
    Loop([Message("system", SystemPrompt(env)), Message("user", env.goal)], [], [], 0)
  }

  datatype Fetched = Fetched(history: seq<Message>, pos: nat, action: Option<Action>)

  /** The notes added for `n` undecodable replies. */
  function InvalidJsonNotes(n: nat): seq<Message> {
    seq(n, _ => Message("assistant", InvalidJsonNote))
  }

  /**
   * `get_next_action`: skips undecodable replies, noting each in the
   * conversation; `None` once the script is exhausted.
   */
  function Fetch(replies: seq<Reply>, history: seq<Message>, pos: nat): (r: Fetched)
    ensures r.action.Some? ==>
      pos < r.pos <= |replies| && replies[r.pos - 1] == Parsed(r.action.value)
      && (forall k :: pos <= k < r.pos - 1 ==> replies[k].Malformed?)
      && r.history == history + InvalidJsonNotes(r.pos - 1 - pos)
    ensures r.action.None? ==>
      (forall k :: pos <= k < |replies| ==> replies[k].Malformed?)
      && r.pos == (if pos <= |replies| then |replies| else pos)
      && r.history == history + InvalidJsonNotes(r.pos - pos)
    decreases |replies| - pos
  {
    if pos >= |replies| then
      assert history + InvalidJsonNotes(0) == history;
      Fetched(history, pos, None)
    else if replies[pos].Malformed? then
      var r := Fetch(replies, history + [Message("assistant", InvalidJsonNote)], pos + 1);
      assert r.action.Some? ==> [Message("assistant", InvalidJsonNote)] + InvalidJsonNotes(r.pos - 1 - (pos + 1))
                                == InvalidJsonNotes(r.pos - 1 - pos);
      assert r.action.None? ==> [Message("assistant", InvalidJsonNote)] + InvalidJsonNotes(r.pos - (pos + 1))
                                == InvalidJsonNotes(r.pos - pos);
      r
    else
      assert history + InvalidJsonNotes(0) == history;
      Fetched(history, pos + 1, Some(replies[pos].action))
  }

  /** After the policy check: stop with nothing added, or record the action and its observation. */
  function Settle(env: Env, i: nat, st: Loop, a: Action, obs: string): StepResult {
    var d := ShouldContinue(obs, i, MaxIterations);
    if !d.cont then Halt(PolicyStop(d.reason), st)
    else Next(st.(history := st.history + [Message("assistant", env.dump(a)), Message("user", ObservationNote(obs))]))
  }

  /** A "file not found" observation names a missing file. */
  predicate NamesMissingFile(obs: string) {
    Contains(obs, "Error: File") && Contains(obs, "not found")
  }

  /** Runs a confirmed call, recovers once from a missing file with `pwd`, then settles. */
  function Execute(env: Env, i: nat, st: Loop, a: Action, args: Fields): StepResult {
    var call := (ToolName(a), args);
    var obs := ExecuteTool(env.invoke(st.calls, call), ToolName(a));
    var st1 := st.(taken := st.taken + [a], calls := st.calls + [call]);
    if NamesMissingFile(obs) then
      var st2 := st1.(history := st1.history + [Message("assistant", env.dump(a)), Message("user", RecoveryNote(obs))]);
      var obs2 := ExecuteTool(env.invoke(st2.calls, PwdCall), "execute_command");
      Settle(env, i, st2.(calls := st2.calls + [PwdCall]), PwdAction, obs2)
    else Settle(env, i, st1, a, obs)
  }

  /** Handles one decoded, non-empty action whose thought is already tagged. */
  function Handle(env: Env, i: nat, st: Loop, a: Action): StepResult {
    var criticism := Criticize(a);
    if criticism.Some? then
      Next(st.(history := st.history + [Message("assistant", env.dump(a)), Message("user", InvalidCallNote(criticism.value))]))
    else if ToolName(a) == "finish" then
      var response := Get(ArgsOf(a), "response");
      if response.Some? && response.value.Str? then Halt(Finished(response.value.s), st)
      else Halt(Crashed("AttributeError: the 'finish' response is not a string"), st)
    else if !AutoExecute(ToolName(a)) && Lower(env.answer(i)) != "y" then Halt(Denied, st)
    else if a.args.None? then Halt(Crashed("KeyError: 'args'"), st)
    else Execute(env, i, st, a, a.args.value)
  }

  /** One iteration of `run_agent`'s loop, iteration number `i` counting from 0. */
  function Step(env: Env, i: nat, st: Loop): StepResult {
    var f := Fetch(env.replies, st.history, st.pos);
    var st1 := st.(history := f.history, pos := f.pos);
    if f.action.None? || IsEmpty(f.action.value) then Halt(NoAction, st1)
    else Handle(env, i, st1, Tag(f.action.value, env.goal, i))
  }

  /** How the loop ends and in which state. */
  datatype Outcome = Outcome(exit: Exit, st: Loop)

  /**
   * The `for` loop from iteration `i` on, one iteration being `step`: a
   * halting iteration ends it, and the `else` branch gives `CapReached`.
   */
  function Drive(step: (nat, Loop) -> StepResult, i: nat, st: Loop): Outcome
    decreases MaxIterations - i
  {
    if i >= MaxIterations then Outcome(CapReached, st)
    else match step(i, st)
      case Halt(e, s) => Outcome(e, s)
      case Next(s) => Drive(step, i + 1, s)
  }

  /** The loop of `run_agent` from iteration `i` on. */
  function RunFrom(env: Env, i: nat, st: Loop): Outcome {
    Drive((j: nat, s: Loop) => Step(env, j, s), i, st)
  }

  /** An iteration that halts ends the run; one that goes on hands its state to the next. */
  lemma RunFromStep(env: Env, i: nat, st: Loop, r: StepResult)
    requires i < MaxIterations && r == Step(env, i, st)
    ensures r.Halt? ==> RunFrom(env, i, st) == Outcome(r.exit, r.st)
    ensures r.Next? ==> RunFrom(env, i, st) == RunFrom(env, i + 1, r.st)
  {
  }

  /** `run_agent(goal)` */
  function Run(env: Env): Outcome {
    RunFrom(env, 0, Seed(env))
  }

  /** The tool names of the actions taken, as handed to the learning store. */
  function ActionTools(taken: seq<Action>): (r: seq<string>)
    ensures |r| == |taken|
    ensures forall k :: 0 <= k < |taken| ==> r[k] == ToolName(taken[k])
  {
    seq(|taken|, k requires 0 <= k < |taken| => ToolName(taken[k]))
  }

  /** The final result recorded when the loop runs out of iterations. */
  const CapResult: string := "Maximum iterations reached"

  // ---------------------------------------------------------------------
  // The loop, as `run_agent` runs it

  /** `get_next_action`: asks until a reply decodes, noting each failure in memory. */
  method GetNextAction(memory: Memory, replies: seq<Reply>, pos: nat) returns (action: Option<Action>, next: nat)
    modifies memory
    ensures Fetched(memory.history, next, action) == Fetch(replies, old(memory.history), pos)
  {
    next := pos;
    while true
      invariant Fetch(replies, memory.history, next) == Fetch(replies, old(memory.history), pos)
      decreases |replies| - next
    {
      if next >= |replies| {
        return None, next;
      }
      var reply := replies[next];
      next := next + 1;
      if reply.Parsed? {
        return Some(reply.action), next;
      }
      memory.AddMessage("assistant", InvalidJsonNote);
    }
  }

  /** One iteration of the loop body; the memory holds the conversation. */
  method Iterate(env: Env, i: nat, memory: Memory, taken: seq<Action>, calls: seq<Call>, pos: nat)
    returns (r: StepResult)
    modifies memory
    ensures r == Step(env, i, Loop(old(memory.history), taken, calls, pos))
    ensures r.st.history == memory.history
  {
    var action, next := GetNextAction(memory, env.replies, pos);
    if action.None? || IsEmpty(action.value) {
      return Halt(NoAction, Loop(memory.history, taken, calls, next));
    }
    var a := Tag(action.value, env.goal, i);
    r := HandleAction(env, i, memory, a, taken, calls, next);
  }

  /** Validation, `finish`, confirmation and execution of one tagged action. */
  method HandleAction(env: Env, i: nat, memory: Memory, a: Action, taken: seq<Action>, calls: seq<Call>, pos: nat)
    returns (r: StepResult)
    modifies memory
    ensures r == Handle(env, i, Loop(old(memory.history), taken, calls, pos), a)
    ensures r.st.history == memory.history
  {
    var criticism := Criticize(a);
    if criticism.Some? {
      memory.AddMessage("assistant", env.dump(a));
      memory.AddMessage("user", InvalidCallNote(criticism.value));
      return Next(Loop(memory.history, taken, calls, pos));
    }
    if ToolName(a) == "finish" {
      var response := Get(ArgsOf(a), "response");
      if response.Some? && response.value.Str? {
        return Halt(Finished(response.value.s), Loop(memory.history, taken, calls, pos));
      }
      return Halt(Crashed("AttributeError: the 'finish' response is not a string"), Loop(memory.history, taken, calls, pos));
    }
    if !AutoExecute(ToolName(a)) {
      var reply := Lower(env.answer(i));
      if reply != "y" {
        return Halt(Denied, Loop(memory.history, taken, calls, pos));
      }
    }
    if a.args.None? {
      return Halt(Crashed("KeyError: 'args'"), Loop(memory.history, taken, calls, pos));
    }
    r := ExecuteAction(env, i, memory, a, a.args.value, taken, calls, pos);
  }

  /** Execution, the one-shot `pwd` recovery, the policy check and the record of the step. */
  method ExecuteAction(env: Env, i: nat, memory: Memory, a: Action, args: Fields,
                       taken: seq<Action>, calls: seq<Call>, pos: nat)
    returns (r: StepResult)
    modifies memory
    ensures r == Execute(env, i, Loop(old(memory.history), taken, calls, pos), a, args)
    ensures r.st.history == memory.history
  {
    var action := a;
    var observation := ExecuteTool(env.invoke(calls, (ToolName(a), args)), ToolName(a));
    var actionsTaken := taken + [a];
    var made := calls + [(ToolName(a), args)];
    if NamesMissingFile(observation) {
      memory.AddMessage("assistant", env.dump(a));
      memory.AddMessage("user", RecoveryNote(observation));
      action := PwdAction;
      observation := ExecuteTool(env.invoke(made, PwdCall), "execute_command");
      made := made + [PwdCall];
    }
    var decision := ShouldContinue(observation, i, MaxIterations);
    if !decision.cont {
      return Halt(PolicyStop(decision.reason), Loop(memory.history, actionsTaken, made, pos));
    }
    memory.AddMessage("assistant", env.dump(action));
    memory.AddMessage("user", ObservationNote(observation));
    r := Next(Loop(memory.history, actionsTaken, made, pos));
  }

  /**
   * The `for` loop of `run_agent` on a seeded memory: the exit, with the
   * actions taken, the calls made and the replies consumed.
   */
  method RunLoop(env: Env, memory: Memory) returns (exit: Exit, taken: seq<Action>, calls: seq<Call>, pos: nat)
    modifies memory
    ensures Outcome(exit, Loop(memory.history, taken, calls, pos)) == RunFrom(env, 0, Loop(old(memory.history), [], [], 0))
  {
    ghost var start := Loop(memory.history, [], [], 0);
    taken, calls, pos := [], [], 0;
    for i := 0 to MaxIterations
      invariant RunFrom(env, i, Loop(memory.history, taken, calls, pos)) == RunFrom(env, 0, start)
    {
      ghost var before := Loop(memory.history, taken, calls, pos);
      var r := Iterate(env, i, memory, taken, calls, pos);
      RunFromStep(env, i, before, r);
      taken, calls, pos := r.st.taken, r.st.calls, r.st.pos;
      if r.Halt? {
        return r.exit, taken, calls, pos;
      }
    }
    exit := CapReached;
  }

  /**
   * `run_agent`: plans, seeds the memory, runs the loop, and records the
   * interaction in the learning store when the loop ends with `finish` or
   * runs out of iterations.
   */
  method RunAgent(env: Env) returns (exit: Exit, memory: Memory, intelligence: AgentIntelligence)
    ensures fresh(memory) && fresh(intelligence)
    ensures exit == Run(env).exit && memory.history == Run(env).st.history
    ensures exit.Finished? ==>
      && intelligence.learnedPatterns == LearnedPatterns(map[], env.goal, ActionTools(Run(env).st.taken), true)
      && intelligence.projectInsights == LearnedInsights(map[], env.goal, |Run(env).st.taken|, exit.response, true)
    ensures !exit.Finished? ==> intelligence.learnedPatterns == map[] && intelligence.projectInsights == map[]
  {
    intelligence := new AgentIntelligence();
    var plan := GenerateSmartPlan(env.goal);
    var taken;
    exit, memory, taken := Converse(env);
    Learn(intelligence, env.goal, exit, taken);
  }

  /** The conversation part of `run_agent`: seeds a new memory and runs the loop on it. */
  method Converse(env: Env) returns (exit: Exit, memory: Memory, taken: seq<Action>)
    ensures fresh(memory)
    ensures Outcome(exit, Loop(memory.history, taken, Run(env).st.calls, Run(env).st.pos)) == Run(env)
  {
    memory := new Memory();
    memory.AddMessage("system", SystemPrompt(env));
    memory.AddMessage("user", env.goal);
    RunIsFromSeed(env, memory.history);
    var calls, pos;
    exit, taken, calls, pos := RunLoop(env, memory);
  }

  /** The loop of `run_agent` starts from the seeded conversation. */
  lemma RunIsFromSeed(env: Env, h: seq<Message>)
    requires h == [Message("system", SystemPrompt(env)), Message("user", env.goal)]
    ensures RunFrom(env, 0, Loop(h, [], [], 0)) == Run(env)
  {
  }


  /**
   * The learning call after the loop: on `finish` with success, on the cap
   * without. The cap call changes neither store, since it is not a success
   * and its result does not mention a project.
   */
  method Learn(intelligence: AgentIntelligence, goal: string, exit: Exit, taken: seq<Action>)
    modifies intelligence
    ensures exit.Finished? ==>
      && intelligence.learnedPatterns == LearnedPatterns(old(intelligence.learnedPatterns), goal, ActionTools(taken), true)
      && intelligence.projectInsights == LearnedInsights(old(intelligence.projectInsights), goal, |taken|, exit.response, true)
    ensures !exit.Finished? ==>
      && intelligence.learnedPatterns == old(intelligence.learnedPatterns)
      && intelligence.projectInsights == old(intelligence.projectInsights)
  {
    if exit.Finished? {
      intelligence.LearnFromInteraction(goal, ActionTools(taken), exit.response, true);
    } else if exit.CapReached? {
      CapLearningIsNoOp(intelligence.learnedPatterns, intelligence.projectInsights, goal, ActionTools(taken));
      intelligence.LearnFromInteraction(goal, ActionTools(taken), CapResult, false);
    }
  }

}
