/**
 * The older `cria` agent's helpers: its table of four tools, the opening
 * conversation, the dispatch of one tool call and the decoding of one model
 * reply.  Calling a tool function and decoding JSON are given as inputs.
 */
module CriaAgent {
  import opened Text
  import opened Json
  import opened AgentMemory
  import Registry
  import Agent

  /** The keys of the dispatch table, in order. */
  const AvailableTools: seq<string> := ["list_files", "read_file", "write_file", "execute_command"]

  /** Each tool as the prompt describes it: its name and one line of description. */
  const ToolDescriptions: seq<(string, string)> := [
    ("list_files", "List files in a directory"),
    ("read_file", "Read the contents of a file"),
    ("write_file", "Write content to a file"),
    ("execute_command", "Execute a shell command")
  ]

  function ToolLine(d: (string, string)): string {
    "- " + d.0 + ": " + d.1 + "\n"
  }

  const ToolsIntro: string := "\nYou have access to the following tools:\n"

  const ReplyFormat: string :=
    "\nYou must respond with ONLY a JSON object in this exact format:\n"
    + "{\n  \"tool\": \"tool_name\",\n  \"args\": {\n    \"param1\": \"value1\",\n    \"param2\": \"value2\"\n  }\n}\n"
    + "\nIf you want to finish and provide a final answer, use:\n"
    + "{\n  \"tool\": \"finish\",\n  \"args\": {\n    \"response\": \"Your final answer here\"\n  }\n}\n"
    + "\nAlways respond with valid JSON. Do not include any other text.\n"

  /** `get_tool_definitions()`: the tool list, one line per tool, between the two fixed passages. */
  function ToolDefinitions(): string {
    ToolsIntro + Concat(MapStr(ToolDescriptions, ToolLine)) + ReplyFormat
  }

  const PromptOpening: string :=
    "You are an expert AI programming assistant. You can help with coding tasks by using the available tools. "

  function SystemPrompt(): string {
    PromptOpening + ToolDefinitions()
  }

  /** The table holds four distinct tools, each also a tool of the newer agent. */
  lemma AvailableToolsAreFour()
    ensures |AvailableTools| == 4 && NoRepeats(AvailableTools)
    ensures forall t :: t in AvailableTools ==> Registry.IsRegistered(t)
  {
  }

  /** Every part of a concatenation occurs in it. */
  lemma {:induction false} ConcatContainsPart(parts: seq<string>, k: int)
    requires 0 <= k < |parts|
    ensures Contains(Concat(parts), parts[k])
    decreases |parts|
  {
    var init := parts[..|parts| - 1];
    var last := parts[|parts| - 1];
    if k == |parts| - 1 {
      PrefixContains(last, last);
      ContainsConcat(Concat(init), last, last);
    } else {
      ConcatContainsPart(init, k);
      ContainsConcat(Concat(init), last, parts[k]);
    }
  }

  /** A part of the middle of a text occurs in the text. */
  lemma ContainsMiddlePart(a: string, b: string, parts: seq<string>, c: string, k: int)
    requires 0 <= k < |parts|
    ensures Contains(a + (b + Concat(parts) + c), parts[k])
  {
    ConcatContainsPart(parts, k);
    ContainsConcat(b, Concat(parts), parts[k]);
    ContainsConcat(b + Concat(parts), c, parts[k]);
    ContainsConcat(a, b + Concat(parts) + c, parts[k]);
  }

  /** The prompt describes exactly the tools of the table, in table order, one line each. */
  lemma PromptListsEveryTool()
    ensures |ToolDescriptions| == |AvailableTools|
    ensures forall k :: 0 <= k < |AvailableTools| ==>
      ToolDescriptions[k].0 == AvailableTools[k] && Contains(SystemPrompt(), ToolLine(ToolDescriptions[k]))
  {
    forall k | 0 <= k < |AvailableTools|
      ensures Contains(SystemPrompt(), ToolLine(ToolDescriptions[k]))
    {
      ContainsMiddlePart(PromptOpening, ToolsIntro, MapStr(ToolDescriptions, ToolLine), ReplyFormat, k);
    }
  }

  /** `get_initial_messages(goal)`: the system prompt, then the goal as the user's message. */
  function GetInitialMessages(goal: string): (r: seq<Message>)
    ensures |r| == 2
    ensures r[0].role == "system" && StartsWith(r[0].content, PromptOpening)
    ensures r[1] == Message("user", goal)
  {
    [Message("system", SystemPrompt()), Message("user", goal)]
  }

  /** The opening conversation does not depend on the goal except through its last message. */
  lemma InitialMessagesDifferOnlyInGoal(g1: string, g2: string)
    ensures GetInitialMessages(g1)[0] == GetInitialMessages(g2)[0]
    ensures GetInitialMessages(g1) == GetInitialMessages(g2) <==> g1 == g2
  {
    assert GetInitialMessages(g1)[1].content == g1;
    assert GetInitialMessages(g2)[1].content == g2;
  }

  // ---------------------------------------------------------------------
  // execute_tool

  /** What calling the tool function with the arguments does. */
  datatype Invocation = Returned(s: string) | TypeError(message: string) | OtherError(message: string)

  /** What `execute_tool` gives its caller: a string, or an exception that propagates. */
  datatype Observation = Observed(text: string) | Raises(message: string)

  function UnknownToolText(name: string): string {
    "Error: Unknown tool '" + name + "'"
  }

  function InvalidArgumentsText(name: string, message: string): string {
    "Error: Invalid arguments for tool '" + name + "': " + message
  }

  /**
   * `execute_tool(name, args)`, where `outcome` is what calling the tool
   * with `args` would do: only a `TypeError` becomes a string.
   */
  function ExecuteTool(name: string, outcome: Invocation): (r: Observation)
    ensures name !in AvailableTools ==> r == Observed(UnknownToolText(name))
    ensures name in AvailableTools && outcome.Returned? ==> r == Observed(outcome.s)
    ensures name in AvailableTools && outcome.TypeError? ==> r == Observed(InvalidArgumentsText(name, outcome.message))
    ensures r.Raises? <==> name in AvailableTools && outcome.OtherError?
  {
    if name in AvailableTools then
      match outcome
      case Returned(s) => Observed(s)
      case TypeError(m) => Observed(InvalidArgumentsText(name, m))
      case OtherError(m) => Raises(m)
    else Observed(UnknownToolText(name))
  }

  /** An unknown tool is never called: the answer is the same whatever the call would have done. */
  lemma UnknownToolCallsNothing(name: string, o1: Invocation, o2: Invocation)
    requires name !in AvailableTools
    ensures ExecuteTool(name, o1) == ExecuteTool(name, o2)
  {
  }

  /**
   * Where the newer agent reports any exception as text, the older one
   * reports only a `TypeError`, in words of its own, and lets every other
   * exception escape; a returned string reaches the caller unchanged in both.
   */
  lemma NewerAgentCatchesMore(name: string, outcome: Invocation)
    requires name in AvailableTools
    ensures outcome.Returned? ==> ExecuteTool(name, outcome) == Observed(Agent.ExecuteTool(Agent.Returned(outcome.s), name))
    ensures !outcome.Returned? ==> ExecuteTool(name, outcome) != Observed(Agent.ExecuteTool(Agent.Raised(outcome.message), name))
    ensures outcome.OtherError? ==> ExecuteTool(name, outcome).Raises?
  {
    if outcome.TypeError? {
      var newer := Agent.ExecuteTool(Agent.Raised(outcome.message), name);
      assert newer[5] == ' ';
      assert InvalidArgumentsText(name, outcome.message)[5] == ':';
    }
  }

  // ---------------------------------------------------------------------
  // get_next_action

  /** `response['message']['content']`: the value, a missing key, or a value that cannot be indexed. */
  datatype Lookup = Found(content: Value) | KeyMissing | NotIndexable

  function ReplyContent(response: Value): (r: Lookup)
    ensures r.Found? ==> response.Obj? && exists m :: Get(response.fields, "message") == Some(Obj(m)) && Get(m, "content") == Some(r.content)
    ensures r.KeyMissing? ==> response.Obj? && (Get(response.fields, "message").None? || exists m :: Get(response.fields, "message") == Some(Obj(m)) && Get(m, "content").None?)
  {
    if !response.Obj? then NotIndexable
    else
      match Get(response.fields, "message")
      case None => KeyMissing
      case Some(message) =>
        if !message.Obj? then NotIndexable
        else
          match Get(message.fields, "content")
          case None => KeyMissing
          case Some(c) => Found(c)
  }

  /** What `get_next_action` gives: the decoded reply, `None`, or an exception that propagates. */
  datatype NextAction = Next(action: Value) | NoAction | Propagates

  /**
   * `get_next_action` for one model `response`, `decode` standing for
   * `json.loads` on a string (`None` for a `JSONDecodeError`).  A missing
   * key or undecodable content gives `None` at once, with no second try.
   */
  function GetNextAction(response: Value, decode: string -> Option<Value>): (r: NextAction)
    ensures r.NoAction? <==> (ReplyContent(response).KeyMissing?
      || (ReplyContent(response).Found? && ReplyContent(response).content.Str? && decode(ReplyContent(response).content.s).None?))
    ensures r.Next? <==> (ReplyContent(response).Found? && ReplyContent(response).content.Str?
      && decode(ReplyContent(response).content.s).Some?)
    ensures r.Next? ==> Some(r.action) == decode(ReplyContent(response).content.s)
  {
    match ReplyContent(response)
    case KeyMissing => NoAction
    case NotIndexable => Propagates
    case Found(c) =>
      if !c.Str? then Propagates
      else
        match decode(c.s)
        case None => NoAction
        case Some(v) => Next(v)
  }

  /** A well-formed reply is decoded, or gives `None` when its content is not JSON. */
  lemma WellFormedReply(text: string, decode: string -> Option<Value>)
    ensures GetNextAction(Obj([("message", Obj([("content", Str(text))]))]), decode)
      == if decode(text).Some? then Next(decode(text).value) else NoAction
  {
    assert Get([("message", Obj([("content", Str(text))]))], "message") == Some(Obj([("content", Str(text))]));
    assert Get([("content", Str(text))], "content") == Some(Str(text));
  }
}
