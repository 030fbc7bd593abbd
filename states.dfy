/** The workflow state the agents share: a map of named fields plus the
    `messages` and `errors` lists that autodocai/agents/base.py creates on
    first use. Field values are typed by what the stages store under each
    key; `Nil` is Python's None, which the seed state holds for every field
    nobody has written yet. */
module States {
  import opened Wrappers
  import opened Schemas

  /** A per-language text map: "en" and "vi" entries. The summarizer stores
      "vi": None, so an entry may be present and empty. */
  type LangDict = map<string, Option<string>>

  datatype RagResults = RagResults(
    architectural_overview: LangDict,
    module_explanations: map<string, LangDict>,
    collection_name: string)

  datatype BuildResult = BuildResult(success: bool, build_path: string)

  /** The `translations` dict: each key is present only when its part ran. */
  datatype Translations = Translations(
    summaries: Option<map<string, LangDict>>,
    rag_results: Option<RagResults>)

  datatype Value =
    | Nil
    | Str(str: string)
    | Num(num: int)
    | Repo(info: RepositoryInfo)
    | Modules(modules: seq<ParsedModule>)
    | Snippets(snippets: seq<CodeSnippet>)
    | Summaries(summaries: map<string, LangDict>)
    | Diagrams(diagrams: map<string, string>)
    | Rag(rag: RagResults)
    | Translated(translations: Translations)
    | Built(build: BuildResult)

  /** Python truthiness of a stored value. */
  predicate TruthyValue(v: Value)
  {
    match v
    case Nil => false
    case Str(s) => s != ""
    case Num(n) => n != 0
    case Repo(_) => true
    case Modules(m) => |m| > 0
    case Snippets(s) => |s| > 0
    case Summaries(m) => |m| > 0
    case Diagrams(d) => |d| > 0
    case Rag(_) => true
    case Translated(t) => t.summaries.Some? || t.rag_results.Some?
    case Built(_) => true
  }

  type Fields = map<string, Value>

  datatype State = State(
    fields: Fields,
    messages: Option<seq<AgentMessage>>,
    errors: Option<seq<string>>)

  /** The messages so far; an absent list reads as empty. */
  function Msgs(s: State): seq<AgentMessage>
  {
    if s.messages.Some? then s.messages.value else []
  }

  function Errs(s: State): seq<string>
  {
    if s.errors.Some? then s.errors.value else []
  }

  /** `state.get(k)` is truthy. */
  predicate Holds(f: Fields, k: string)
  {
    k in f && TruthyValue(f[k])
  }

  /** `state.get("repo_info")`, when it holds a repository. */
  function GetRepoInfo(f: Fields): Option<RepositoryInfo>
  {
    if "repo_info" in f && f["repo_info"].Repo? then Some(f["repo_info"].info) else None
  }

  /** `state.get("snippets", [])`: the default when absent, None when the
      field holds None. */
  function GetSnippets(f: Fields): Option<seq<CodeSnippet>>
  {
    if "snippets" !in f then Some([])
    else if f["snippets"].Snippets? then Some(f["snippets"].snippets)
    else None
  }

  /** A list read from the state is there and non-empty: Python's
      truthiness of `state.get(k, [])`. */
  predicate HasItems<T>(o: Option<seq<T>>)
  {
    o.Some? && |o.value| > 0
  }

  /** `state.get("modules", [])`. */
  function GetModules(f: Fields): Option<seq<ParsedModule>>
  {
    if "modules" !in f then Some([])
    else if f["modules"].Modules? then Some(f["modules"].modules)
    else None
  }

  /** `state.get("summaries", {})`. */
  function GetSummaries(f: Fields): Option<map<string, LangDict>>
  {
    if "summaries" !in f then Some(map[])
    else if f["summaries"].Summaries? then Some(f["summaries"].summaries)
    else None
  }

  /** `state.get("diagrams", {})`. */
  function GetDiagrams(f: Fields): Option<map<string, string>>
  {
    if "diagrams" !in f then Some(map[])
    else if f["diagrams"].Diagrams? then Some(f["diagrams"].diagrams)
    else None
  }

  /** `state.get("rag_results")`, when it holds results. */
  function GetRag(f: Fields): Option<RagResults>
  {
    if "rag_results" in f && f["rag_results"].Rag? then Some(f["rag_results"].rag) else None
  }

  /** `state.get(k)` for a string field. */
  function GetStr(f: Fields, k: string): Option<string>
  {
    if k in f && f[k].Str? then Some(f[k].str) else None
  }

  /** `state[k] = v`. */
  function Put(s: State, k: string, v: Value): (r: State)
    ensures r.fields.Keys == s.fields.Keys + {k} && r.fields[k] == v
    ensures forall j :: j in s.fields && j != k ==> r.fields[j] == s.fields[j]
    ensures r.messages == s.messages && r.errors == s.errors
  {
    s.(fields := s.fields[k := v])
  }

  /** `_add_message`: the list is created when absent and the new message,
      stamped with the clock reading for its position, goes at its end. */
  function Added(s: State, agent: string, kind: MessageType, content: string, clock: nat -> string): (r: State)
    ensures r.messages.Some? && |Msgs(r)| == |Msgs(s)| + 1 && Msgs(r)[..|Msgs(s)|] == Msgs(s)
    ensures Msgs(r)[|Msgs(s)|].agent_name == agent && Msgs(r)[|Msgs(s)|].message_type == kind
    ensures Msgs(r)[|Msgs(s)|].content == content
    ensures r.fields == s.fields && r.errors == s.errors
  {
    s.(messages := Some(Msgs(s) + [AgentMessage(agent, kind, content, clock(|Msgs(s)|))]))
  }

  /** `state["errors"].append(entry)`, creating the list when absent. */
  function ErrorLogged(s: State, entry: string): (r: State)
    ensures r.errors.Some? && Errs(r) == Errs(s) + [entry]
    ensures r.fields == s.fields && r.messages == s.messages
  {
    s.(errors := Some(Errs(s) + [entry]))
  }

  /** The mutable state dict the agents update in place. */
  class WorkflowState {
    var fields: Fields
    var messages: Option<seq<AgentMessage>>
    var errors: Option<seq<string>>

    function Snapshot(): State
      reads this
    {
      State(fields, messages, errors)
    }

    constructor (s: State)
      ensures Snapshot() == s
    {
      fields := s.fields;
      messages := s.messages;
      errors := s.errors;
    }

    method Set(k: string, v: Value)
      modifies this
      ensures Snapshot() == Put(old(Snapshot()), k, v)
    {
      fields := fields[k := v];
    }

    method AddMessage(agent: string, kind: MessageType, content: string, clock: nat -> string)
      modifies this
      ensures Snapshot() == Added(old(Snapshot()), agent, kind, content, clock)
    {
      if messages.None? {
        messages := Some([]);
      }
      var stamp := clock(|messages.value|);
      messages := Some(messages.value + [AgentMessage(agent, kind, content, stamp)]);
    }

    method AddError(entry: string)
      modifies this
      ensures Snapshot() == ErrorLogged(old(Snapshot()), entry)
    {
      if errors.None? {
        errors := Some([]);
      }
      errors := Some(errors.value + [entry]);
    }
  }
}
