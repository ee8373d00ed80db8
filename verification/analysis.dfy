/**
 * The record `ContextManager.analyze_python_file` returns.  Parsing with
 * `ast` and walking the tree happen outside the model: every tool that
 * needs an analysis receives it as an input, either the record or the text
 * stored under its "error" key.
 */
module CodeAnalysis {
  import opened Json

  /** One `ast.ClassDef`: name, line, `ast.get_docstring` and the names of its direct methods. */
  datatype ClassInfo = ClassInfo(name: string, line: int, docstring: Option<string>, methods: seq<string>)

  /** One `ast.FunctionDef`: name, line, docstring and positional parameter names. */
  datatype FuncInfo = FuncInfo(name: string, line: int, docstring: Option<string>, args: seq<string>)

  /** The success record; it has no "content" key. */
  datatype Analysis = Analysis(
    filePath: string,
    lines: nat,
    classes: seq<ClassInfo>,
    functions: seq<FuncInfo>,
    imports: seq<string>)

  datatype AnalysisResult = Analyzed(record: Analysis) | AnalysisError(error: string)

  /** The analyser, as a function of the path it is given. */
  type Analyzer = string -> AnalysisResult

  /** Python truthiness of a docstring: `None` and "" are both missing. */
  predicate HasDocstring(d: Option<string>) {
    d.Some? && d.value != ""
  }
}
