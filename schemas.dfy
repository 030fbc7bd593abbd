/** The records of autodocai/schemas.py. The file defines several models
    twice; the later definition is the one in force, and that is the one
    written here (pydantic defaults become constructor defaults). */
module Schemas {
  import opened Wrappers

  /** Agent message kinds. The in-force enumeration has no `debug` member. */
  datatype MessageType = Info | Warning | Error | Success
  {
    /** The enumeration value, as stored and compared. */
    function Value(): (r: string)
      ensures ParseMessageType(r) == Some(this)
    {
      match this
      case Info => "info"
      case Warning => "warning"
      case Error => "error"
      case Success => "success"
    }
  }

  /** `MessageType(s)`: the member with value `s`, if there is one. */
  function ParseMessageType(s: string): (r: Option<MessageType>)
  {
    if s == "info" then Some(Info)
    else if s == "warning" then Some(Warning)
    else if s == "error" then Some(Error)
    else if s == "success" then Some(Success)
    else None
  }

  /** Values name members one to one, and only the four values name one. */
  lemma ParseMessageTypeExact(s: string)
    ensures ParseMessageType(s).Some? <==> s in {"info", "warning", "error", "success"}
    ensures ParseMessageType(s).Some? ==> ParseMessageType(s).value.Value() == s
    ensures ParseMessageType("debug") == None
  {
  }

  datatype AgentMessage = AgentMessage(
    agent_name: string,
    message_type: MessageType,
    content: string,
    timestamp: string)

  datatype CodeSnippet = CodeSnippet(
    id: string,
    file_path: string,
    start_line: int,
    end_line: int,
    text_content: string,
    symbol_type: string,
    language: string,
    symbol_name: Option<string> := None,
    original_docstring: Option<string> := None,
    ai_summary_en: Option<string> := None,
    ai_summary_vi: Option<string> := None)

  datatype RepositoryInfo = RepositoryInfo(
    name: string,
    url: string,
    local_path: string,
    default_branch: string,
    languages: seq<string> := [],
    description: Option<string> := None,
    is_private: bool := false)

  datatype FunctionParam = FunctionParam(
    name: string,
    type_hint: Option<string> := None,
    default_value: Option<string> := None)

  datatype ParsedFunction = ParsedFunction(
    name: string,
    code: string,
    start_line: int,
    end_line: int,
    docstring: Option<string> := None,
    params: seq<FunctionParam> := [],
    return_type: Option<string> := None,
    is_async: bool := false)

  datatype ClassAttribute = ClassAttribute(
    name: string,
    type_hint: Option<string> := None,
    default_value: Option<string> := None)

  datatype ParsedClass = ParsedClass(
    name: string,
    code: string,
    start_line: int,
    end_line: int,
    docstring: Option<string> := None,
    base_classes: seq<string> := [],
    methods: seq<ParsedFunction> := [],
    attributes: seq<ClassAttribute> := [])

  datatype Import = Import(
    module_name: string,
    name: Option<string> := None,
    alias: Option<string> := None)

  datatype ParsedModule = ParsedModule(
    file_path: string,
    code: string,
    docstring: Option<string> := None,
    imports: seq<Import> := [],
    functions: seq<ParsedFunction> := [],
    classes: seq<ParsedClass> := [])

  /** Python truthiness of an optional string: present and non-empty. */
  predicate Truthy(s: Option<string>)
  {
    s.Some? && s.value != ""
  }

  /** An optional string as an f-string renders it: None shows as "None". */
  function Shown(s: Option<string>): (r: string)
    ensures s.Some? ==> r == s.value
    ensures s.None? ==> r == "None"
  {
    if s.Some? then s.value else "None"
  }
}
