/**
 * The agent's tool registry: the 22 tool names in registration order, each
 * with its Python parameter list (name, and whether it has a default).
 */
module Registry {
  import opened Text

  datatype Param = Param(name: string, hasDefault: bool)

  function Required(n: string): Param { Param(n, false) }
  function Optional(n: string): Param { Param(n, true) }

  /** The registered tool names, in dict order. */
  const ToolNames: seq<string> := [
    "list_files", "read_file", "read_multiple_files", "write_file", "execute_command",
    "get_project_overview", "explore_codebase", "analyze_file", "find_code_patterns",
    "get_file_dependencies", "navigate_to_symbol", "get_code_flow", "suggest_improvements",
    "get_project_health", "execute_with_context", "find_code_smells", "suggest_refactoring",
    "generate_test_suggestions", "find_security_issues", "get_code_metrics",
    "generate_documentation_suggestions", "read_and_summarize_project"
  ]

  predicate IsRegistered(name: string) {
    name in ToolNames
  }

  /** The parameter list of the registered function `name`, in declaration order. */
  function Params(name: string): seq<Param> {
    if name == "list_files" then [Optional("path"), Optional("recursive")]
    else if name == "read_file" then [Required("path")]
    else if name == "read_multiple_files" then [Required("paths")]
    else if name == "write_file" then [Required("path"), Required("content")]
    else if name == "execute_command" then [Required("command")]
    else if name == "explore_codebase" then [Optional("pattern"), Optional("file_type"), Optional("max_files")]
    else if name == "analyze_file" then [Required("file_path"), Optional("include_content")]
    else if name == "find_code_patterns" then [Required("pattern"), Optional("file_types"), Optional("context_lines")]
    else if name == "navigate_to_symbol" then [Required("symbol_name"), Optional("file_hint")]
    else if name == "get_code_flow" then [Required("entry_point")]
    else if name == "execute_with_context" then [Required("command"), Optional("working_dir")]
    else if name in {"get_file_dependencies", "suggest_improvements", "find_code_smells",
                     "suggest_refactoring", "generate_test_suggestions", "find_security_issues",
                     "get_code_metrics", "generate_documentation_suggestions"} then [Required("file_path")]
    else []
  }

  /** Python's `repr` of a list of strings without quotes or backslashes in them. */
  function ReprStrings(names: seq<string>): string {
    "[" + Join(", ", seq(|names|, k requires 0 <= k < |names| => "'" + names[k] + "'")) + "]"
  }

  /** The tools that run without asking the user (agent.py's auto-execute set). */
  predicate AutoExecute(name: string) {
    name in {
      "get_project_overview", "explore_codebase", "analyze_file",
      "find_code_patterns", "get_file_dependencies", "navigate_to_symbol",
      "get_code_flow", "suggest_improvements", "get_project_health",
      "list_files", "read_file", "read_multiple_files", "write_file",
      "find_code_smells", "suggest_refactoring", "generate_test_suggestions",
      "find_security_issues", "get_code_metrics", "generate_documentation_suggestions",
      "read_and_summarize_project"
    }
  }

  /**
   * Exactly two registered tools ask for confirmation, and every auto-executed
   * tool is registered (write_file among them).
   */
  lemma OnlyCommandsAskForConfirmation(name: string)
    ensures IsRegistered(name) && !AutoExecute(name)
      <==> name == "execute_command" || name == "execute_with_context"
    ensures AutoExecute(name) ==> IsRegistered(name)
    ensures AutoExecute("write_file")
  {
  }
}
