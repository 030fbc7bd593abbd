/** Everything the stages reach outside the process: the OpenRouter chat
    endpoint, git, the file system, the Qdrant server, npm and SendGrid.
    Each is a total function of what the stage hands it, so the stages are
    deterministic once these are fixed. */
module Collaborators {
  import opened Wrappers
  import opened Schemas
  import opened Config
  import opened PythonParser
  import opened GitHubRepo

  /** One module snippet as the overview prompt lists it: its name and the
      first line of its English summary. */
  datatype ModuleEntry = ModuleEntry(name: Option<string>, summary: Option<string>)

  /** The module snippets of one directory, in the order they came. */
  datatype ModuleGroup = ModuleGroup(dir: string, files: seq<ModuleEntry>)

  /** A Qdrant point: the text that was embedded and the snippet it carries
      as payload. */
  datatype Point = Point(text: string, payload: CodeSnippet)

  /** What a chat completion is asked about: the parts of each prompt that
      vary from call to call. */
  datatype Request =
    | SummaryRequest(snippet: CodeSnippet, sections: seq<string>)
    | DocstringRequest(code: string, symbolType: string, symbolName: Option<string>)
    | DocstringTranslationRequest(docstring: string)
    | TranslationRequest(text: string)
    | OverviewRequest(repo: Option<RepositoryInfo>, groups: seq<ModuleGroup>, sections: seq<string>)
    | ExplanationRequest(moduleSnippet: CodeSnippet, sections: seq<string>)
    | FlowChartRequest(code: string)
    | ArchitectureChartRequest(repoName: string, overview: Option<string>, files: seq<string>)

  /** The reply's `choices[0].message.content` (JSON null is None), or the
      error that the request raised. */
  datatype Reply = Answer(content: Option<string>) | Failure(error: string)

  datatype Env = Env(
    /** The `datetime.now().isoformat()` reading for the n-th message. */
    clock: nat -> string,
    chat: Request -> Reply,
    /** `git clone` of a URL into a path. */
    git: (string, string) -> Result<Checkout>,
    /** `find_python_files` of a directory. */
    pythonFiles: string -> seq<string>,
    /** Reading and `ast.parse` of a file: its text and tree, or the error. */
    source: string -> Result<(string, ModuleAst)>,
    /** The collection name built from `hash` and a file time. */
    collectionName: string,
    /** The names of the server's collections. */
    collections: string -> Result<seq<string>>,
    /** Creating a collection and its payload indexes; Some(error) on failure. */
    createCollection: (string, string) -> Option<string>,
    upsert: (string, string, seq<Point>) -> Option<string>,
    /** A similarity search of a collection for a query text: the payloads
        of the hits, best first. */
    search: (string, string, string, nat) -> Result<seq<CodeSnippet>>,
    /** Writing the Docusaurus files; Some(error) on failure. */
    formatDocs: Option<string>,
    /** Exit status of `npm install` and `npm run build` in a directory. */
    npmInstall: string -> Result<int>,
    npmBuild: string -> Result<int>,
    pathExists: string -> bool,
    /** The HTTP status of a SendGrid send (key, from, to, subject, body). */
    sendEmail: (string, string, string, string, string) -> Result<int>,
    /** An exception raised by the graph runtime itself, if any. */
    runtimeFailure: Option<string>)

  const NoApiKey := "OpenRouter API key is not configured"

  /** A chat request: refused before any call when no API key is set. */
  function Ask(cfg: Settings, env: Env, req: Request): (r: Reply)
    ensures !Truthy(cfg.openrouter_api_key) ==> r == Failure(NoApiKey)
    ensures Truthy(cfg.openrouter_api_key) ==> r == env.chat(req)
  {
    if !Truthy(cfg.openrouter_api_key) then Failure(NoApiKey) else env.chat(req)
  }
}
