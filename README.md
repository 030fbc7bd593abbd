# autodoc in Dafny

A model of the documentation pipeline of `autodocai`. The program clones a
GitHub repository, parses its Python files, summarises the code with a chat
model, enhances docstrings, indexes the code in Qdrant and writes an
architectural overview, draws Mermaid diagrams, translates into Vietnamese,
formats a Docusaurus site and builds it with npm. Nine stages run in a fixed
order on one shared workflow state. Each stage is run through the same
envelope, which adds an INFO message, then a SUCCESS message or an ERROR
message and an `errors` entry. Afterwards the orchestrator derives run
statistics and decides which e-mail notice to send, and the CLI reports the
result.

The model follows the source file by file. It has one module per file, plus
three helper modules:

- `Wrappers` holds `Option` and `Result`.
- `Text` models the Python string methods the program uses: `strip`,
  `find`, `split`, `join`, `replace`, `lower`, `str(n)` and
  `os.path.basename`.
- `Batching` models `s[i:i+k]` batching.

The shared workflow state is a class, `States.WorkflowState`. It holds a map
of fields and the `messages` and `errors` sequences, which the stages change
in place. Each stage has two parts:

- a function `Logic` from a state snapshot to the next snapshot and an
  outcome (returned or raised);
- a method `Run` that changes the shared state exactly as `Logic` says.

The loops of the source are written as loops with invariants. They are proved
equal to recursive specification functions, and the properties of those
functions are proved as lemmas. Everything outside the process is a field of
`Collaborators.Env`, a total function of what the stage hands it. This covers
the chat endpoint, git, the file system, `ast.parse`, Qdrant, npm, SendGrid
and the clock. With `Env` fixed, every stage is deterministic.

Where verifying the model showed a defect in the program, both readings are
kept. The function as written has a lemma that exhibits the defect. The
intended function has a lemma proving the promised property. The stages are
built on the intended reading. See "## Findings".

## Model

| member | source | states |
|---|---|---|
| Schemas.MessageType.Value | autodocai/schemas.py:223-228 | each message kind has a stored value that parses back to the same kind |
| Schemas.ParseMessageTypeExact | autodocai/schemas.py:223-228 | exactly the four values "info", "warning", "error", "success" name a kind, each parses back to itself, and "debug" names none (the in-force enumeration has no debug member) |
| Schemas.Shown | autodocai/schemas.py:191 | an optional string rendered in an f-string is its text, or "None" |
| States.Put | autodocai/agents/base.py:89-91 | writing a key sets it to the value and leaves every other key, the messages and the errors as they were |
| States.Added | autodocai/agents/base.py:95-117 | `_add_message` creates the messages list when absent and appends exactly one message with the agent's name, kind and content; fields and errors stay |
| States.ErrorLogged | autodocai/agents/base.py:89-91 | the errors list is created when absent and gets exactly one entry at its end; fields and messages stay |
| States.WorkflowState.constructor | autodocai/orchestrator.py:29-64 | the mutable state starts as the given snapshot |
| States.WorkflowState.Set | autodocai/agents/base.py:89-91 | `state[k] = v` changes the state exactly as `Put` says |
| States.WorkflowState.AddMessage | autodocai/agents/base.py:105-117 | the in-place append changes the state exactly as `Added` says |
| States.WorkflowState.AddError | autodocai/agents/base.py:89-91 | the in-place append changes the state exactly as `ErrorLogged` says |
| Base.Envelope | autodocai/agents/base.py:56-93 | `execute` puts the INFO message first and keeps whatever the stage wrote; a normal return ends with one SUCCESS message and no new error; a raise ends with one ERROR message and exactly one `"<name>: <error>"` entry, and no SUCCESS |
| Base.EnvelopeErrors | autodocai/agents/base.py:83-93 | the errors list only grows, by one exactly when the stage raised, and keeps its old entries as a prefix |
| Base.EnvelopeGrows | autodocai/agents/base.py:56-93 | `execute` only appends messages signed by the agent and never drops an old one |
| Base.AddedAppends | autodocai/agents/base.py:95-117 | adding a message signed by the agent keeps the append-only relation between states |
| Base.PutAppends | autodocai/agents/base.py:89-91 | writing a field keeps the append-only relation between states |
| Base.AppendsTrans | autodocai/agents/base.py:56-93 | the append-only relation composes over consecutive steps |
| Base.Enter | autodocai/agents/base.py:68-72 | the first half of `execute` changes the state to the one where the INFO message was added |
| Base.Leave | autodocai/agents/base.py:74-93 | the second half of `execute` changes the state to the SUCCESS or the ERROR outcome that `Envelope` describes |
| Config.ParseLogLevel | autodocai/config.py:15-20 | a level is recognised exactly for the four member values |
| Config.Or | autodocai/config.py:102-105 | Python's `a or b`: `a` when it is a non-empty string, else `b` |
| Config.NonBlankStripped | autodocai/config.py:108 | every kept language name is non-empty and has no surrounding white space |
| Config.ParseLanguagesShape | autodocai/config.py:108 | each parsed language is a non-empty stripped name, and a missing or empty list means English only |
| Config.ParseLanguagesRoundTrip | autodocai/config.py:108 | writing stripped names without commas joined by "," and parsing them gives the same list back |
| Config.DefaultLanguages | autodocai/config.py:79 | the default "EN,VI" asks for English and Vietnamese |
| Config.FromEnvAndArgs | autodocai/config.py:54-130 | construction fails exactly when LOG_LEVEL is not a level; command-line values win over the environment for URL, output dir, PAT and languages; the Qdrant URL defaults to http://localhost:6333 |
| Config.FilterSupported | autodocai/config.py:169 | only "EN" and "VI" are kept, and nothing is added |
| Config.FilterSupportedKeeps | autodocai/config.py:169 | a list of supported languages passes through unchanged |
| Config.FilterSupportedSubset | autodocai/config.py:169 | every kept language was in the input |
| Config.FilterSupportedIdempotent | autodocai/config.py:166-169 | filtering twice is the same as filtering once, so re-running the loop body changes nothing |
| Config.MissingRequired | autodocai/config.py:139-151 | nothing is reported missing exactly when repository URL, output dir, OpenRouter key and Qdrant URL are all non-empty |
| Config.ValidatedGuarantees | autodocai/config.py:160-198 | after validation, debug forces level DEBUG, at least one language remains, all remaining languages are supported and in input order, notifications are configured all-or-none, and URL and output dir are untouched |
| Config.AppConfig.constructor | autodocai/config.py:23-51 | the configuration holds the given settings |
| Config.MissingNotification | autodocai/config.py:176-186 | no SendGrid setting is reported missing exactly when all three are non-empty |
| Config.MissingLines | autodocai/config.py:153-158 | a missing required setting prints the "❌ Missing required configuration:" header, then one "   - <label>" line per missing setting in order, and nothing else |
| Config.WarningsNamed | autodocai/config.py:165-168 | every warning names an unsupported language that was given, and every unsupported language that was given is warned about |
| Config.WarningsCount | autodocai/config.py:165-169 | the loop runs over the original list, so each entry of it is either kept by the filter or warned about once |
| Config.NotifyLinesShape | autodocai/config.py:175-196 | the incomplete-notification notice is printed exactly when some but not all SendGrid settings are given, and then the validated settings have all three switched off |
| Config.NotifyLinesIndented | autodocai/config.py:190-191 | every line after the notice is an indented "   - Missing <label>" line |
| Config.CompleteLines | autodocai/config.py:160-196 | with every required setting present, the missing-settings header is not printed; the debug notice is printed, and first, exactly when `--debug` raises the level; the English fallback notice is printed exactly when no supported language is left; the notification notice is printed exactly when notifications are switched off |
| Config.AppConfig.Validate | autodocai/config.py:132-198 | `validate` returns false and changes nothing when a required setting is missing, and otherwise returns true with the adjusted settings; either way it echoes exactly the lines `ValidateLines` gives for the settings it started from |
| Config.AppConfig.RaiseDebug | autodocai/config.py:160-163 | debug forces level DEBUG, and the debug notice is echoed exactly when that changed the level |
| Config.AppConfig.CheckLanguages | autodocai/config.py:165-173 | the languages become the supported ones, or English alone when none is left; the echoed lines are the warnings and then the fallback notice |
| Config.AppConfig.WarnUnsupported | autodocai/config.py:166-169 | the loop leaves the filtered list and echoes one warning per unsupported entry of the original list, in order |
| Config.AppConfig.CheckLanguage | autodocai/config.py:167-169 | an unsupported entry echoes its warning and re-filters the current list; a supported one changes nothing |
| Config.AppConfig.CheckNotifications | autodocai/config.py:175-196 | notifications are switched off when some but not all SendGrid settings are given, and the notice with one line per missing setting is echoed |
| Terminal.Console.constructor | autodocai/config.py:155 | the console starts with no lines |
| Terminal.Console.Echo | autodocai/config.py:155 | `click.echo` appends exactly one line |
| Terminal.BulletedAt | autodocai/config.py:156-157 | one line per item, the k-th being the prefix followed by the k-th item |
| Terminal.EchoAll | autodocai/config.py:156-157 | the loop echoes exactly the bulleted lines, in order |
| Collaborators.Ask | autodocai/agents/summarizer_agent.py:113-115 | a chat request is refused before any call when no OpenRouter key is set, and is otherwise the service's reply |
| Notifications.RepoSegment | autodocai/notifications.py:46 | the last `/`-separated segment of the URL holds no `/` |
| Notifications.StageShown | autodocai/notifications.py:85 | `stage or 'Unknown'`: the given stage when it is non-empty, else "Unknown", never empty |
| Notifications.NotConfiguredNeverSends | autodocai/notifications.py:42-44 | without all three SendGrid settings no success notice, no error notice and no e-mail at all is sent, whatever SendGrid would answer |
| Notifications.SendEmailResult | autodocai/notifications.py:106-154 | a configured send reports true exactly when SendGrid answers 202; any other status and any exception give false |
| Notifications.SuccessNotificationSent | autodocai/notifications.py:30-62 | a configured success notice is sent with the subject naming the repository and the body listing URL, path and statistics, and reports what the send reports |
| Notifications.SubjectNamesRepository | autodocai/notifications.py:46-80 | for a URL ending in `/<name>` both subjects name exactly `<name>` |
| Notifications.StatsShown | autodocai/notifications.py:55-58 | an absent statistic shows as 0 and a present one shows its value |
| Notifications.ErrorContentShows | autodocai/notifications.py:82-89 | the error notice shows the repository, the failing stage ("Unknown" when none) and the error message preformatted |
| Notifications.SuccessContentShows | autodocai/notifications.py:48-60 | the success notice shows the documentation path and each statistic, 0 for one that is absent |
| Cli.StatsAgreeWithNotice | autodocai/cli.py:66-73 | the statistics block is printed exactly when there are snippets or diagrams; it raises (a `len` of None) only when one of them is None; otherwise its four counts are the ones the success notice sends |
| Cli.ErrorContents | autodocai/cli.py:85 | no more contents than messages |
| Cli.ErrorContentsSpec | autodocai/cli.py:85 | the listed contents are exactly those of the ERROR messages, and the list is empty exactly when there is no ERROR message |
| Cli.Dashed | autodocai/cli.py:82-85 | each item is shown after "- ", one line per item |
| Cli.ErrorLinesShape | autodocai/cli.py:76-88 | there is always a line; recorded errors take precedence, each shown whole; otherwise every ERROR message is shown; otherwise "Unknown error occurred" |
| Cli.FailureAsWrittenHidesDetails | autodocai/cli.py:80-90 | as written, a failed run shows only the `'str' object has no attribute 'get'` error or "Unknown error occurred", never the recorded details |
| Cli.BuilderFailureHidden | autodocai/cli.py:83-88 | a run whose only failure is an ERROR message (npm failing, say) shows the detail in the corrected branch and "Unknown error occurred" as written |
| Cli.CompletedOutcomes | autodocai/cli.py:61-91 | the exit status is 0 or 1, and 0 exactly when `build_path` is non-empty and the statistics do not raise; success starts with the two success lines; no build path gives the failure report |
| Cli.Prefixed | autodocai/cli.py:52-62 | the report's lines come after validate's lines, and the exit status is the report's |
| Cli.PrefixedOutcomes | autodocai/cli.py:56-91 | after validate's lines, a re-raised workflow error is one error line and exit 1; a completed run exits 0 exactly when `build_path` is non-empty and the statistics do not raise, and then the next two lines announce the site; no build path gives the failure report |
| Cli.ConfiguredOutcomes | autodocai/cli.py:52-142 | validate's lines come first; a missing required setting prints only the header and one line per missing setting, and exits 1; otherwise the run is reported as `PrefixedOutcomes` says; exit 0 only after a valid configuration |
| Cli.GenerateOutcomes | autodocai/cli.py:35-142 | a configuration that cannot be built is reported on one error line with exit 1; otherwise the run is the configured one |
| Cli.EchoStats | autodocai/cli.py:66-73 | the printed statistics lines and the raised error are those of the statistics block |
| Cli.EchoRun | autodocai/cli.py:61-142 | the printed lines and the exit status are those of the report for the run |
| Cli.SyncGenerate | autodocai/cli.py:133-142 | `sync_generate` prints exactly the lines of `Generate`, validate's lines included, and returns its exit status |
| Cli.GenerateConfigured | autodocai/cli.py:52-91 | once the configuration is built, the printed lines are validate's lines followed by the run's, and the exit status is that of the configured run |
| Cli.RunValidated | autodocai/cli.py:56-91 | after a passing `validate`, the printed lines and the exit status are those of the report on the workflow run |
| Orchestrator.StageAppends | autodocai/orchestrator.py:94-102 | every stage's own logic only appends messages signed with its agent's name and never drops one |
| Orchestrator.StageGrows | autodocai/agents/base.py:56-93 | one node adds at least its INFO and its closing message, starts with the INFO message, keeps what was there and adds at most one error |
| Orchestrator.RunStagesLast | autodocai/orchestrator.py:105-113 | after a non-empty run of the chain, the state is the last stage's `execute` on the state the earlier stages left |
| Orchestrator.RunStagesGrow | autodocai/orchestrator.py:105-113 | a run of `n` stages adds at least `2n` messages, at most `n` errors, and keeps every earlier message and error |
| Orchestrator.PrefixExtends | autodocai/orchestrator.py:105-113 | the messages after the first `k` stages are a prefix of the final messages |
| Orchestrator.EachStageStarts | autodocai/orchestrator.py:105-113 | each stage runs in chain order: the message right after those of the stages before it is its INFO "started processing" |
| Orchestrator.NodeNames | autodocai/orchestrator.py:94-102 | one node name per stage, in order |
| Orchestrator.ChainEdges | autodocai/orchestrator.py:105-113 | one edge per node, to the next node, and from the last to END |
| Orchestrator.ChainSuccessors | autodocai/orchestrator.py:105-113 | in a chain of distinct nodes every node has exactly one outgoing edge, to its successor or to END |
| Orchestrator.NodeNameInjective | autodocai/orchestrator.py:94-102 | distinct stages get distinct node names |
| Orchestrator.PipelineIsChain | autodocai/orchestrator.py:91-113 | the graph has nine distinct nodes from repo_cloner to documentation_builder and each has the next one, or END for the last, as its only successor |
| Orchestrator.PipelineGraph | autodocai/orchestrator.py:94-113 | the nodes and edges are exactly the nine `add_node` and nine `add_edge` calls, in the order written |
| Orchestrator.Graph.constructor | autodocai/orchestrator.py:91 | a new graph has no nodes and no edges |
| Orchestrator.Graph.AddNode | autodocai/orchestrator.py:94 | `add_node` appends one node and changes no edge |
| Orchestrator.Graph.AddEdge | autodocai/orchestrator.py:105 | `add_edge` appends one edge and changes no node |
| Orchestrator.AddPipelineNodes | autodocai/orchestrator.py:94-102 | the nine `add_node` calls append the stages' node names in order |
| Orchestrator.AddChainEdges | autodocai/orchestrator.py:105-113 | the nine `add_edge` calls append the chain's edges in order |
| Orchestrator.CreateWorkflow | autodocai/orchestrator.py:66-116 | `create_workflow` builds a fresh graph holding exactly the chain of nine nodes, and a fresh RAG agent with no client or collection yet |
| Orchestrator.SeedShape | autodocai/orchestrator.py:29-135 | the initial state holds the two inputs, stage "start", empty message and error lists, and None in every other field |
| Orchestrator.CountType | autodocai/orchestrator.py:144-145 | a count of snippets of one kind is at most the number of snippets |
| Orchestrator.CountTypeAppend | autodocai/orchestrator.py:144-145 | counting over two lists adds the counts |
| Orchestrator.CountTypesDisjoint | autodocai/orchestrator.py:144-145 | no snippet counts both as a function and as a class |
| Orchestrator.RunStatsShape | autodocai/orchestrator.py:142-147 | the statistics have exactly the four keys, 0 where a list is missing, the file count is the number of snippets, and functions plus classes never exceed it |
| Orchestrator.WorkflowNotices | autodocai/orchestrator.py:119-167 | at most one notice is sent; a runtime failure is re-raised after an error notice for stage "start"; a completed run is the nine stages on the seed, and it sends the success notice with the statistics exactly when `build_path` is non-empty |
| Orchestrator.WorkflowBuildPath | autodocai/orchestrator.py:102-141 | the final `build_path` is `<docs_path>/build` when the builder succeeds, and otherwise the fields are those the eighth stage left |
| Orchestrator.BuilderStage | autodocai/orchestrator.py:102 | the builder node sets `build_path` to the `build` directory of `docs_path` when the build succeeds, and otherwise writes no field |
| Orchestrator.WorkflowLog | autodocai/orchestrator.py:105-138 | a completed run records at most nine errors and at least eighteen messages, and each stage's INFO message sits right after the earlier stages' messages |
| Orchestrator.ExecuteStage | autodocai/orchestrator.py:94-102 | one node changes the shared state exactly as that stage's `execute` says |
| Orchestrator.RunPipeline | autodocai/orchestrator.py:138 | `ainvoke` calls every stage once, in chain order, and leaves the state the chain computes |
| Orchestrator.RunWorkflow | autodocai/orchestrator.py:119-167 | the runner's result and notices are exactly those of `Workflow` |
| RepoClonerAgent.WorkDir | autodocai/agents/repo_cloner_agent.py:50 | the work directory is a `repos` directory beside the output directory, and it cannot be formed without one |
| RepoClonerAgent.LogicResult | autodocai/agents/repo_cloner_agent.py:24-68 | no URL raises "Repository URL is required" and changes nothing; a failed clone raises "Failed to clone repository: ..." and writes no field; a clone stores `repo_info` and adds the "Cloning" and "cloned successfully" messages, and nothing else changes |
| RepoClonerAgent.AfterCloneResult | autodocai/agents/repo_cloner_agent.py:53-68 | whatever the clone answers, only the stage's messages are added; a failure raises "Failed to clone repository: " with the error and writes no field; a success stores `repo_info` and reports the languages |
| RepoClonerAgent.ClonedRepository | autodocai/agents/repo_cloner_agent.py:46-51 | a cloned repository records its URL and is private exactly when a PAT was given; a URL without a repository name is refused before git is asked |
| RepoClonerAgent.Run | autodocai/agents/repo_cloner_agent.py:24-68 | `_execute` changes the shared state exactly as `Logic` says |
| CodeParserAgent.ExtractSnippets | autodocai/agents/code_parser_agent.py:96-170 | `_extract_snippets` returns exactly the module's snippets |
| CodeParserAgent.AppendFunctions | autodocai/agents/code_parser_agent.py:125-137 | the loop appends one snippet per function, in order |
| CodeParserAgent.AppendClasses | autodocai/agents/code_parser_agent.py:140-168 | the loop appends each class's snippet followed by its methods' snippets, in order |
| CodeParserAgent.AppendMethods | autodocai/agents/code_parser_agent.py:156-168 | the loop appends one snippet per method, in order |
| CodeParserAgent.SnippetCount | autodocai/agents/code_parser_agent.py:106-170 | a module yields one snippet for a docstring, one per function, one per class and one per method |
| CodeParserAgent.FunctionSnippetsAt | autodocai/agents/code_parser_agent.py:125-137 | the function snippets keep the functions' order, one each |
| CodeParserAgent.MethodSnippetsAt | autodocai/agents/code_parser_agent.py:156-168 | the method snippets keep the methods' order, one each |
| CodeParserAgent.ClassSnippetsCount | autodocai/agents/code_parser_agent.py:140-168 | the classes yield one snippet each plus one per method |
| CodeParserAgent.SnippetsLabelled | autodocai/agents/code_parser_agent.py:107-168 | every snippet carries the module's relative path, language "python", one of the four kinds, and an id starting with `<kind>:<path>` |
| CodeParserAgent.SnippetOrder | autodocai/agents/code_parser_agent.py:109-137 | the module snippet exists exactly when the module has a docstring and then comes first with id `module:<path>`; the function snippets follow it in order |
| CodeParserAgent.ClassesNotModules | autodocai/agents/code_parser_agent.py:140-168 | class and method snippets are of kind "class" or "method" |
| CodeParserAgent.ScanAccounts | autodocai/agents/code_parser_agent.py:55-77 | every file is either parsed or warned about, the count of processed files is the number of modules, the snippets are those of the parsed modules, and no field changes |
| CodeParserAgent.StoredFields | autodocai/agents/code_parser_agent.py:80-83 | the results go under exactly the four keys `modules`, `snippets`, `files_processed`, `snippets_extracted`, and nothing else changes |
| CodeParserAgent.ScannedAccounts | autodocai/agents/code_parser_agent.py:48-77 | the scan's counts agree with its modules and snippets and it writes no field |
| CodeParserAgent.LogicResult | autodocai/agents/code_parser_agent.py:25-94 | a missing repository raises "Repository information is missing" and changes nothing; otherwise the four keys are stored, agree with each other, and nothing else changes |
| CodeParserAgent.NoPythonNoScan | autodocai/agents/code_parser_agent.py:48 | without Python among the languages no file is parsed and the results are empty |
| CodeParserAgent.Run | autodocai/agents/code_parser_agent.py:25-94 | `_execute` changes the shared state exactly as `Logic` says |
| PythonParser.EndLine | autodocai/code_parser/python_parser.py:347-355 | the end line lies after the start line and after every line a node of the definition is on; it is one past the last such line |
| PythonParser.PySlice | autodocai/code_parser/python_parser.py:359 | Python's `lines[lo:hi]` never has more lines than the list |
| PythonParser.CodeOfLines | autodocai/code_parser/python_parser.py:358-360 | a definition's code, split on "\n" again, is exactly the source lines from its start line to its end line (or the end of the file) |
| PythonParser.CreateLineMapping | autodocai/code_parser/python_parser.py:125-132 | the mapping sends each line's start offset to its 1-based number and holds no other offset |
| PythonParser.LineStartLocatesLine | autodocai/code_parser/python_parser.py:125-132 | the offset recorded for a line is where that line's text starts in the source |
| PythonParser.LineStartIncreasing | autodocai/code_parser/python_parser.py:130-132 | later lines start at larger offsets, so no two lines share an offset |
| PythonParser.LastEntryWins | autodocai/code_parser/python_parser.py:23-52 | a docstring key is present exactly when some visit recorded it or it was there before, and holds what the last visit recorded |
| PythonParser.ApplyEntriesConcat | autodocai/code_parser/python_parser.py:23-52 | visiting two node lists one after the other records the same as visiting their concatenation |
| PythonParser.DocEntryKeys | autodocai/code_parser/python_parser.py:36-52 | a definition's docstring key is `class:`, `function:` or `async_function:` with its name, never "module" |
| PythonParser.EntryKeys | autodocai/code_parser/python_parser.py:36-52 | every key a node's subtree records is a definition key, never "module" |
| PythonParser.EntryKeysSeq | autodocai/code_parser/python_parser.py:34 | every key the generic visit of a node list records is a definition key |
| PythonParser.ExtractorKeys | autodocai/code_parser/python_parser.py:30-52 | every key the extractor records is "module" or a definition key |
| PythonParser.DocstringExtractor.constructor | autodocai/code_parser/python_parser.py:26-28 | the extractor starts with no docstrings |
| PythonParser.DocstringExtractor.VisitModule | autodocai/code_parser/python_parser.py:30-34 | `visit(module)` records the module docstring and then everything the module's nodes record, in order |
| PythonParser.DocstringExtractor.VisitAll | autodocai/code_parser/python_parser.py:34-52 | `generic_visit` records what each child records, in order |
| PythonParser.DocstringExtractor.Visit | autodocai/code_parser/python_parser.py:36-52 | a class or function visit records its own docstring under its key before its children's; any other node records only its children's |
| PythonParser.ParamTypeAndDefault | autodocai/code_parser/python_parser.py:189-216 | the type hint is the annotation's text; a parameter among the last `len(defaults)` gets its aligned default, earlier ones none |
| PythonParser.KeywordOnlyWithoutDefaultRaises | autodocai/code_parser/python_parser.py:210-260 | a keyword-only parameter without a default makes the written code raise and gets no default in the corrected one |
| PythonParser.Wrap | autodocai/code_parser/python_parser.py:233 | positional defaults are all present |
| PythonParser.ExtractFunctionParams | autodocai/code_parser/python_parser.py:218-288 | the parameters are the positional ones (self/cls of a method skipped), then the keyword-only ones, then `*args`, then `**kwargs` |
| PythonParser.PositionalKeeps | autodocai/code_parser/python_parser.py:236-251 | the positional loop keeps every argument except a leading self/cls of a method, in order, each with its own position |
| PythonParser.PositionalDefaults | autodocai/code_parser/python_parser.py:210-251 | of `d` positional defaults, the last `d` parameters get one each in order and every earlier one gets none |
| PythonParser.FindInit | autodocai/code_parser/python_parser.py:496-500 | the `__init__` found is a plain (not async) `def` named `__init__` of the class body |
| PythonParser.HeightSeqConcat | autodocai/code_parser/python_parser.py:506 | the height of two node lists together is the larger height |
| PythonParser.NextLevelLower | autodocai/code_parser/python_parser.py:506 | each breadth-first level of `ast.walk` is lower than the one before, so the walk ends |
| PythonParser.AttrNamesMembers | autodocai/code_parser/python_parser.py:503 | a name is among the collected names exactly when an attribute has it |
| PythonParser.InitScanDistinct | autodocai/code_parser/python_parser.py:502-548 | the `__init__` part names each attribute once, never a private one, and the seen set is exactly the collected names |
| PythonParser.ExtractClassAttributes | autodocai/code_parser/python_parser.py:453-550 | the attributes are those of the class body, in order, followed by those the first `__init__` assigns to `self` |
| PythonParser.CollectNodeAttributes | autodocai/code_parser/python_parser.py:465-493 | one body statement yields every public name an assignment binds, or the public name an annotated assignment declares |
| PythonParser.CollectInitAttributes | autodocai/code_parser/python_parser.py:506-548 | the walk over `__init__` yields each public `self.<name>` once, in walk order |
| PythonParser.BodyAttributesPublic | autodocai/code_parser/python_parser.py:470-485 | no attribute taken from the class body has a private (single underscore) name |
| PythonParser.AssignAttributesPublic | autodocai/code_parser/python_parser.py:468-479 | no name bound by one assignment is private |
| PythonParser.ProcessFunction | autodocai/code_parser/python_parser.py:314-374 | a parsed function ends after it starts |
| PythonParser.ProcessClass | autodocai/code_parser/python_parser.py:393-451 | a parsed class ends after it starts |
| PythonParser.ExtractFunctionsExact | autodocai/code_parser/python_parser.py:290-312 | the parsed functions are exactly the module's top-level `def`s, each processed as a function outside any class |
| PythonParser.ExtractFunctionsAsWrittenOk | autodocai/code_parser/python_parser.py:299-306 | as written, extraction succeeds only for a module without top-level `def`s, and then agrees with the corrected one |
| PythonParser.Parse | autodocai/code_parser/python_parser.py:74-116 | the parsed module keeps the file path and the text, and its docstring is the module docstring the extractor found |
| PythonParser.ModuleDocstring | autodocai/code_parser/python_parser.py:30-107 | a non-empty module docstring is the one recorded under "module" |
| PythonParser.PyNameIsPython | autodocai/code_parser/python_parser.py:584-585 | a ".py" name is Python whatever the file holds |
| PythonParser.ShebangIsPython | autodocai/code_parser/python_parser.py:588-592 | a first line starting with "#!" and naming python in any letter case makes any file Python |
| PythonParser.ShellShebang | autodocai/code_parser/python_parser.py:574-596 | a shell shebang with a non-".py" name is not Python |
| PythonParser.ExtractClassesExact | autodocai/code_parser/python_parser.py:376-391 | the parsed classes are exactly the module's top-level `class` statements, each processed on its own |
| PythonParser.ImportsOf | autodocai/code_parser/python_parser.py:164-184 | one entry per imported name, with its alias; an `import` entry names the module and no name, a `from` entry the name under its module or "" |
| PythonParser.ImportsSeqOf | autodocai/code_parser/python_parser.py:156-186 | the imports are exactly the entries of the import statements met in the walk, one per imported name |
| GitHubRepo.CloneUrl | autodocai/repo_manager/github_repo.py:47-54 | without a token, or for a URL without "https://", git gets the URL unchanged |
| GitHubRepo.CloneUrlInsertsToken | autodocai/repo_manager/github_repo.py:48-52 | for an ordinary "https://" URL the token goes right after the scheme, followed by "@" |
| GitHubRepo.RepoRun | autodocai/repo_manager/github_repo.py:128-129 | the `[^/.]+` group is the longest run without "/" or "." |
| GitHubRepo.MatchAt | autodocai/repo_manager/github_repo.py:127-136 | a match starts where "github.com" occurs and yields a non-empty user and a non-empty repository name without "/" |
| GitHubRepo.NotGitHub | autodocai/repo_manager/github_repo.py:132-138 | a URL that does not mention github.com has no repository name |
| GitHubRepo.SearchNoneWithoutHost | autodocai/repo_manager/github_repo.py:133 | `re.search` finds nothing from a point after which "github.com" does not occur |
| GitHubRepo.SearchSkipsToHost | autodocai/repo_manager/github_repo.py:133 | `re.search` skips every position where "github.com" does not start |
| GitHubRepo.UrlLayout | autodocai/repo_manager/github_repo.py:124-126 | where each character of a `<prefix>github.com<sep><user>/<repo><suffix>` URL comes from |
| GitHubRepo.HostOnlyAt | autodocai/repo_manager/github_repo.py:124-126 | in such a URL "github.com" occurs only where the prefix ends |
| GitHubRepo.MatchAtOf | autodocai/repo_manager/github_repo.py:128-129 | at a host followed by `<user>/<t>` the match is the user and the leading run of `t`, when the rest of `t` fits the pattern's tail |
| GitHubRepo.MatchAtHost | autodocai/repo_manager/github_repo.py:127-136 | at the host the first pattern gives (user, repo) unless the URL ends in "/", where only the second does |
| GitHubRepo.RepoRunOf | autodocai/repo_manager/github_repo.py:128-129 | the run stops exactly at the end of a dot-free repository name |
| GitHubRepo.RepoNameOfUrl | autodocai/repo_manager/github_repo.py:117-138 | for such a URL the name is `<user>_<repo>`, whichever of "", ".git" or "/" ends it |
| GitHubRepo.HttpsAndSshNames | autodocai/repo_manager/github_repo.py:124-126 | the https and the ssh forms of a URL both name `<user>_<repo>` |
| GitHubRepo.Extension | autodocai/repo_manager/github_repo.py:205 | `os.path.splitext` gives "" or a suffix of the name that starts with "." |
| GitHubRepo.LastDot | autodocai/repo_manager/github_repo.py:205 | the position found is the last "." before the bound, and there is none when no "." comes before it |
| GitHubRepo.TallyExact | autodocai/repo_manager/github_repo.py:196-208 | the tally counts every language exactly, lists each counted language once in first-seen order, and lists nothing else |
| GitHubRepo.OccurrencesAbsent | autodocai/repo_manager/github_repo.py:207-208 | a language never seen has count 0 |
| GitHubRepo.InsertByCount | autodocai/repo_manager/github_repo.py:211 | inserting a language adds exactly it to the list |
| GitHubRepo.RankByCount | autodocai/repo_manager/github_repo.py:211-212 | the ranking is a permutation of the first-seen order |
| GitHubRepo.InsertBounded | autodocai/repo_manager/github_repo.py:211 | inserting keeps every count below a bound that held before |
| GitHubRepo.InsertDescending | autodocai/repo_manager/github_repo.py:211 | inserting into a list in descending count order keeps it descending |
| GitHubRepo.InsertWithCount | autodocai/repo_manager/github_repo.py:211 | an inserted language goes after every earlier one with the same count |
| GitHubRepo.NoneWithCount | autodocai/repo_manager/github_repo.py:211 | in a descending list whose head is below `v`, nothing has count `v` |
| GitHubRepo.RankByCountDescending | autodocai/repo_manager/github_repo.py:211 | the ranking is by descending count |
| GitHubRepo.RankByCountTies | autodocai/repo_manager/github_repo.py:211 | among languages with equal count the ranking keeps first-seen order, as Python's stable sort does |
| GitHubRepo.RankByCountStable | autodocai/repo_manager/github_repo.py:210-212 | `sorted(..., reverse=True)` on the counts: descending, a permutation, and ties in first-seen order |
| GitHubRepo.TallySnoc | autodocai/repo_manager/github_repo.py:207-208 | one more file adds one to its language's count, and lists the language when it is new |
| GitHubRepo.DetectLanguages | autodocai/repo_manager/github_repo.py:172-212 | `_detect_languages` returns the ranking of the counted languages of every directory outside `.git` |
| GitHubRepo.CountFiles | autodocai/repo_manager/github_repo.py:204-208 | the inner loop adds one directory's files to the tally so far |
| GitHubRepo.StrippedLines | autodocai/repo_manager/github_repo.py:241-246 | one stripped line per line |
| GitHubRepo.SkipTitles | autodocai/repo_manager/github_repo.py:240-242 | the paragraph starts at the first line that is neither blank nor a `#` title, and everything skipped is one of those |
| GitHubRepo.ParagraphFrom | autodocai/repo_manager/github_repo.py:245-249 | the paragraph does not run past the end of the text |
| GitHubRepo.ParagraphShape | autodocai/repo_manager/github_repo.py:245-249 | the paragraph is the run of non-blank stripped lines from its start, ended by a blank line or by the end |
| GitHubRepo.Prefix | autodocai/repo_manager/github_repo.py:252 | `s[:n]` has `min(n, len(s))` characters and starts `s` |
| GitHubRepo.DescriptionOf | autodocai/repo_manager/github_repo.py:236-252 | a description is at most 500 characters |
| GitHubRepo.Describe | autodocai/repo_manager/github_repo.py:251-252 | a description is at most 500 characters |
| GitHubRepo.DescribePresence | autodocai/repo_manager/github_repo.py:236-252 | there is no description exactly when every line is blank or a title; otherwise it is the start of the first paragraph joined by spaces |
| GitHubRepo.ExtractDescription | autodocai/repo_manager/github_repo.py:236-252 | the loops over one README's text compute exactly its description |
| GitHubRepo.SkipTitleLines | autodocai/repo_manager/github_repo.py:240-242 | the `while` loop stops where the paragraph starts |
| GitHubRepo.FirstParagraph | autodocai/repo_manager/github_repo.py:245-249 | the `for` loop collects exactly the paragraph |
| GitHubRepo.FirstOfEarliest | autodocai/repo_manager/github_repo.py:228-257 | the description is the one of the earliest README name that yields one, and there is none exactly when no name yields one |
| GitHubRepo.FindDescription | autodocai/repo_manager/github_repo.py:214-257 | the loop over the README names returns the first description found |
| GitHubRepo.GitHubRepoManager.constructor | autodocai/repo_manager/github_repo.py:28-59 | the manager keeps URL, token and git path, uses the token URL for cloning, the given or a fresh temporary work directory, and has no repository path yet |
| GitHubRepo.GitHubRepoManager.Clone | autodocai/repo_manager/github_repo.py:61-107 | `clone` returns what cloning that URL gives, and sets the repository path exactly when the URL names a repository |
| GitHubRepo.GitHubRepoManager.FromCheckout | autodocai/repo_manager/github_repo.py:90-170 | once git has run, the result is the repository's information or git's error as `clone` reports it |
| GitHubRepo.CloneNamesRepository | autodocai/repo_manager/github_repo.py:61-170 | a clone of a `github.com/<user>/<repo>` URL that git accepts names the repository `<user>_<repo>`, lies under the work directory, and is private exactly when a token was given |
| GitHubRepo.CloneFailures | autodocai/repo_manager/github_repo.py:72-107 | an unusable URL fails with "Invalid GitHub repository URL"; git's authentication failure is replaced by the advice about the token, and any other git error is passed on |
| GitHubRepo.GetRepoInfo | autodocai/repo_manager/github_repo.py:285-395 | a path that is not a repository fails with its message; otherwise the name is the last component of the path, the remote ("Unknown" when unreadable), the branch ("main" when unreadable), the ranked languages and the first README description are reported, never private |
| Sections.RequestedSections | autodocai/agents/summarizer_agent.py:189-195 | the prompt always asks for the English heading, and for the Vietnamese one exactly when "VI" is an output language |
| Sections.EnglishPart | autodocai/agents/summarizer_agent.py:211-220 | the English text is stripped; without the English heading it is the whole reply stripped, otherwise it holds neither heading |
| Sections.CutAt | autodocai/agents/summarizer_agent.py:215-216 | the text before the Vietnamese heading is stripped and holds no Vietnamese heading |
| Sections.ParseSections | autodocai/agents/summarizer_agent.py:208-228 | the parse always has "en" and has "vi" exactly when the Vietnamese heading occurs; "vi" is the stripped text after its first heading up to the next |
| Sections.HeadingOnlyOther | autodocai/agents/summarizer_agent.py:189-195 | one heading of a pair does not occur in `u + <other heading> + w` when `u` and `w` hold no "#" |
| Sections.ParseRequestedReply | autodocai/agents/summarizer_agent.py:189-228 | a reply in the requested two-heading format reads back as what was written under each heading, stripped |
| Sections.ParseEnglishOnlyReply | autodocai/agents/summarizer_agent.py:189-228 | a reply with only the English heading reads back as its English text alone |
| Sections.ParseEnglishOnly | autodocai/agents/summarizer_agent.py:222-226 | without the Vietnamese heading the parse has only "en" |
| Sections.ParseBoth | autodocai/agents/summarizer_agent.py:222-226 | with the Vietnamese heading the parse has exactly "en" and "vi" |
| RagQueryAgent.EmbeddingTextHeader | autodocai/agents/rag_query_agent.py:205-228 | the text embedded for a snippet starts with its "File:", "Type:" and "Name:" lines, in that order |
| RagQueryAgent.EmbeddingTextClosed | autodocai/agents/rag_query_agent.py:218-228 | that text always ends with a line break |
| RagQueryAgent.PointsOf | autodocai/agents/rag_query_agent.py:244-270 | one point per snippet of the batch, in order, carrying the snippet as payload and embedding its prepared text |
| RagQueryAgent.EmbedBatch | autodocai/agents/rag_query_agent.py:244-270 | the loop over one batch builds exactly its points |
| RagQueryAgent.IndexedBatches | autodocai/agents/rag_query_agent.py:237-287 | without a failure every batch was sent once, in order, as its points; after a failure the batches sent end with the one whose upsert failed |
| RagQueryAgent.IndexedSticks | autodocai/agents/rag_query_agent.py:284-287 | once an upsert has failed, no later batch is sent |
| RagQueryAgent.FlattenPoints | autodocai/agents/rag_query_agent.py:241-270 | the points of the batches, put together, are the points of all snippets |
| RagQueryAgent.IndexedAll | autodocai/agents/rag_query_agent.py:237-282 | a complete indexing sends every snippet exactly once, in order, in batches of at most 10 |
| RagQueryAgent.Provisioned | autodocai/agents/rag_query_agent.py:109-150 | an existing collection is reused without error; a failed listing fails the creation with that error |
| RagQueryAgent.DirRoundTrip | autodocai/agents/rag_query_agent.py:314-316 | a path has a directory part exactly when it holds "/", and the directory, "/" and the base name give the path back |
| RagQueryAgent.AddMember | autodocai/agents/rag_query_agent.py:317-323 | adding a file appends it to its directory's group, or opens a new group at the end, and changes no other group |
| RagQueryAgent.AddMemberDirs | autodocai/agents/rag_query_agent.py:317-319 | the directories after adding are the ones before and the new file's |
| RagQueryAgent.ModuleGroupsOf | autodocai/agents/rag_query_agent.py:311-323 | the grouping has each directory once, each group holds exactly the module snippets of its directory in order, and every such snippet is grouped |
| RagQueryAgent.GroupModules | autodocai/agents/rag_query_agent.py:311-323 | the loop builds exactly that grouping |
| RagQueryAgent.FirstLine | autodocai/agents/rag_query_agent.py:339-341 | a non-empty summary is cut to a prefix without line breaks; an empty or missing one is kept as is |
| RagQueryAgent.PromptGroups | autodocai/agents/rag_query_agent.py:336-342 | the prompt lists every directory and at most its first 5 files, each with the first line of its summary |
| RagQueryAgent.Overview | autodocai/agents/rag_query_agent.py:289-417 | the overview always has an English text |
| RagQueryAgent.OverviewNoKey | autodocai/agents/rag_query_agent.py:289-417 | without an API key the overview is the failure text |
| RagQueryAgent.OverviewOfReply | autodocai/agents/rag_query_agent.py:350-413 | a reply in the requested format gives the English and the Vietnamese overview, stripped |
| RagQueryAgent.ModuleSnippetsKeys | autodocai/agents/rag_query_agent.py:429-435 | the modules explained are exactly the file paths of the module snippets |
| RagQueryAgent.ModuleSnippetsLast | autodocai/agents/rag_query_agent.py:429-435 | a path's entry is its last module snippet, as the dictionary assignment keeps the last |
| RagQueryAgent.GenerateExplanation | autodocai/agents/rag_query_agent.py:460-561 | an explanation always has an English text |
| RagQueryAgent.Explain | autodocai/agents/rag_query_agent.py:438-450 | a module's explanation always has an English text |
| RagQueryAgent.ExplainReusesSummary | autodocai/agents/rag_query_agent.py:441-446 | a module with an English summary is explained by its summaries without asking the model, with "vi" exactly when it has a Vietnamese summary |
| RagQueryAgent.ExplainNoKey | autodocai/agents/rag_query_agent.py:460-561 | without a summary and without an API key the explanation is the failure text |
| RagQueryAgent.ExplanationsOf | autodocai/agents/rag_query_agent.py:427-453 | every module path is explained, by the explanation of its last module snippet, and nothing else is |
| RagQueryAgent.GenerateModuleExplanations | autodocai/agents/rag_query_agent.py:419-458 | the loops build exactly those explanations |
| RagQueryAgent.LogicResult | autodocai/agents/rag_query_agent.py:39-85 | the stage only appends its own messages; without snippets it warns and changes nothing; it raises exactly when there are snippets and the Qdrant URL is missing, the collection cannot be made or an upsert fails, and then the fields are unchanged |
| RagQueryAgent.LogicStored | autodocai/agents/rag_query_agent.py:67-85 | a completed stage stores the overview, the module explanations and the collection name, and ends with the success message |
| RagQueryAgent.Agent.constructor | autodocai/agents/rag_query_agent.py:29-37 | a new agent has no client and no collection |
| RagQueryAgent.Agent.InitQdrant | autodocai/agents/rag_query_agent.py:87-107 | initialisation fails exactly when no Qdrant URL is set, and otherwise connects to that URL and names the collection |
| RagQueryAgent.Agent.CreateCollection | autodocai/agents/rag_query_agent.py:109-150 | creation fails exactly when the collection is missing and cannot be made, with that error behind its prefix |
| RagQueryAgent.Agent.IndexSnippets | autodocai/agents/rag_query_agent.py:230-287 | the batches sent and the error raised are those of indexing the snippets in batches of 10 |
| RagQueryAgent.Agent.Query | autodocai/agents/rag_query_agent.py:563-608 | without a client or collection, or when the search fails, there are no results; otherwise one result per hit, in order |
| RagQueryAgent.Agent.Run | autodocai/agents/rag_query_agent.py:39-85 | running the agent changes the workflow state as the stage's logic says, and connects the client exactly when the stage gets that far |
| MermaidDiagramAgent.SubNonId | autodocai/agents/mermaid_diagram_agent.py:243-244 | the substitution keeps the length, keeps letters, digits and `_`, and turns every other character into `_` |
| MermaidDiagramAgent.ReplaceChar | autodocai/agents/mermaid_diagram_agent.py:240-241 | replacing a one-character text replaces that character at every position |
| MermaidDiagramAgent.SanitizedChars | autodocai/agents/mermaid_diagram_agent.py:240-244 | the space and hyphen replacements change nothing the substitution would not |
| MermaidDiagramAgent.SanitizeIdSub | autodocai/agents/mermaid_diagram_agent.py:228-250 | `_sanitize_id` maps every character on its own (kept when it may appear in an id, `_` otherwise) and puts an "n" in front exactly when the text starts with a digit |
| MermaidDiagramAgent.SanitizeIdShape | autodocai/agents/mermaid_diagram_agent.py:228-250 | a sanitised id is empty only for empty text, uses only id characters, never starts with a digit, and gets an "n" in front exactly when the text started with one |
| MermaidDiagramAgent.SanitizeIdIdempotent | autodocai/agents/mermaid_diagram_agent.py:228-250 | sanitising twice gives the same as sanitising once |
| MermaidDiagramAgent.AnyTerm | autodocai/agents/mermaid_diagram_agent.py:273 | true exactly when one of the terms occurs in the text |
| MermaidDiagramAgent.ShouldRetry | autodocai/agents/mermaid_diagram_agent.py:252-276 | retried exactly for client errors, timeouts and value errors whose lower-cased message names a rate limit, 429, 500, 503, a timeout or too many requests |
| MermaidDiagramAgent.StatusRetried | autodocai/agents/mermaid_diagram_agent.py:271-275 | an API error with status 429, 500 or 503 is always retried, as its status is in the message |
| MermaidDiagramAgent.TruncatePrompt | autodocai/agents/mermaid_diagram_agent.py:310-314 | a prompt of at most 4000 characters is returned as it is; a longer one is its first 4000 characters followed by the truncation mark |
| MermaidDiagramAgent.TruncateTwice | autodocai/agents/mermaid_diagram_agent.py:310-314 | truncating a truncated prompt again changes nothing |
| MermaidDiagramAgent.SkipSpace | autodocai/agents/mermaid_diagram_agent.py:452 | the `\s*` of the pattern takes the whole run of whitespace |
| MermaidDiagramAgent.MermaidSpan | autodocai/agents/mermaid_diagram_agent.py:452-456 | the group found lies within the reply |
| MermaidDiagramAgent.ExtractMermaidShape | autodocai/agents/mermaid_diagram_agent.py:452-456 | a diagram is found exactly when the reply has an opening fence and a closing fence after it; the result is the stripped text after the first opening fence and its whitespace, up to the first closing fence |
| MermaidDiagramAgent.ExtractFenced | autodocai/agents/mermaid_diagram_agent.py:452-463 | fencing a stripped body without a closing fence and finding it again gives the body back |
| MermaidDiagramAgent.StdlibExamples | autodocai/agents/mermaid_diagram_agent.py:104-105 | the prefix test drops "requests", "os.path" and "typing" and keeps "autodocai.schemas" |
| MermaidDiagramAgent.TargetsOf | autodocai/agents/mermaid_diagram_agent.py:102-107 | a module's targets are the last dotted parts of its kept imports, each once |
| MermaidDiagramAgent.Assign | autodocai/agents/mermaid_diagram_agent.py:98-99 | assigning a module name keeps an existing entry's place and replaces its value, or appends a new entry |
| MermaidDiagramAgent.DependencyNames | autodocai/agents/mermaid_diagram_agent.py:96-110 | the nodes are the names of the modules, each once |
| MermaidDiagramAgent.DependencyEntries | autodocai/agents/mermaid_diagram_agent.py:96-107 | each entry is a module's name with that module's targets |
| MermaidDiagramAgent.DependencyLatest | autodocai/agents/mermaid_diagram_agent.py:98-99 | of modules with the same file name, the last one's targets are kept |
| MermaidDiagramAgent.EdgesFromOf | autodocai/agents/mermaid_diagram_agent.py:114-118 | a module's edges go to exactly those of its targets that are nodes |
| MermaidDiagramAgent.EdgesOf | autodocai/agents/mermaid_diagram_agent.py:113-118 | the edges are those of every entry |
| MermaidDiagramAgent.DependencyChartShape | autodocai/agents/mermaid_diagram_agent.py:120-132 | the chart is a fenced `graph TD` holding the edge lines, or the node lines when there are no edges |
| MermaidDiagramAgent.DependencyEdgeOrigin | autodocai/agents/mermaid_diagram_agent.py:102-118 | every edge goes from a module to the target of a kept import that names a module of the repository |
| MermaidDiagramAgent.DependencyEdgeDrawn | autodocai/agents/mermaid_diagram_agent.py:102-118 | every kept import that names a module of the repository is drawn, for the last module of its name |
| MermaidDiagramAgent.CollectTargets | autodocai/agents/mermaid_diagram_agent.py:102-107 | the loop over a module's imports collects exactly its targets |
| MermaidDiagramAgent.CollectDependencies | autodocai/agents/mermaid_diagram_agent.py:96-107 | the loop over the modules builds exactly the dependency dict |
| MermaidDiagramAgent.CollectEdgesFrom | autodocai/agents/mermaid_diagram_agent.py:115-118 | the inner loop collects exactly one module's edges |
| MermaidDiagramAgent.CollectEdges | autodocai/agents/mermaid_diagram_agent.py:113-118 | the loops collect exactly the edges |
| MermaidDiagramAgent.RenderNodes | autodocai/agents/mermaid_diagram_agent.py:123-124 | the loop writes exactly the node lines |
| MermaidDiagramAgent.RenderEdges | autodocai/agents/mermaid_diagram_agent.py:128-129 | the loop writes exactly the edge lines |
| MermaidDiagramAgent.BuildDependencyChart | autodocai/agents/mermaid_diagram_agent.py:84-136 | `_generate_module_dependency_diagram` returns exactly the dependency chart |
| MermaidDiagramAgent.ParamNames | autodocai/agents/mermaid_diagram_agent.py:175 | one name per parameter, in order |
| MermaidDiagramAgent.ClassDiagramKeys | autodocai/agents/mermaid_diagram_agent.py:149-192 | there is a diagram for exactly the modules with classes, under `class_` and the module's name |
| MermaidDiagramAgent.ClassDiagramLatest | autodocai/agents/mermaid_diagram_agent.py:192 | the diagram under a key is the chart of the last module with classes of that name |
| MermaidDiagramAgent.ClassBlocksShow | autodocai/agents/mermaid_diagram_agent.py:164-179 | every class of a module gets its own `class ... {` block |
| MermaidDiagramAgent.ClassChartShows | autodocai/agents/mermaid_diagram_agent.py:158-192 | a module's chart declares every one of its classes |
| MermaidDiagramAgent.PyRepr | autodocai/agents/mermaid_diagram_agent.py:170 | `repr` of a string puts it between double quotes when it holds a single quote and no double quote, and between single quotes otherwise |
| MermaidDiagramAgent.PyReprRoundTrip | autodocai/agents/mermaid_diagram_agent.py:170 | reading the escapes between the quotes back gives the original string |
| MermaidDiagramAgent.PlainRepr | autodocai/agents/mermaid_diagram_agent.py:170 | printable ASCII text without a backslash or a single quote is shown unchanged between single quotes |
| MermaidDiagramAgent.QuotedDefault | autodocai/agents/mermaid_diagram_agent.py:170 | a default value `'a'` is shown as `"'a'"` |
| MermaidDiagramAgent.AttrTextQuotedDefault | autodocai/agents/mermaid_diagram_agent.py:170 | the attribute `x = 'a'` is printed as `name='x' type_hint=None default_value="'a'"` |
| MermaidDiagramAgent.RenderAttributes | autodocai/agents/mermaid_diagram_agent.py:169-170 | the loop writes exactly the attribute lines, each attribute as `name=… type_hint=… default_value=…` with the values as `repr` shows them |
| MermaidDiagramAgent.RenderMethods | autodocai/agents/mermaid_diagram_agent.py:173-177 | the loop writes exactly the method lines |
| MermaidDiagramAgent.RenderBases | autodocai/agents/mermaid_diagram_agent.py:182-185 | the loop writes exactly the inheritance lines |
| MermaidDiagramAgent.RenderClass | autodocai/agents/mermaid_diagram_agent.py:164-185 | one class's block is written exactly, each attribute value shown as Python's `repr` of its text |
| MermaidDiagramAgent.RenderClassChart | autodocai/agents/mermaid_diagram_agent.py:157-192 | one module's chart is written exactly, attribute values shown as their `repr` |
| MermaidDiagramAgent.BuildClassDiagrams | autodocai/agents/mermaid_diagram_agent.py:138-197 | `_generate_class_diagrams` returns exactly the class diagrams, attribute values shown as their `repr` |
| MermaidDiagramAgent.FlowCandidates | autodocai/agents/mermaid_diagram_agent.py:210-214 | the candidates are exactly the functions and methods of more than ten lines |
| MermaidDiagramAgent.FirstFlows | autodocai/agents/mermaid_diagram_agent.py:217 | at most five candidates get a flow chart |
| MermaidDiagramAgent.FlowChartShape | autodocai/agents/mermaid_diagram_agent.py:388-472 | a flow chart is made only for code of at least 20 characters of a function or method and with an API key, and is a fenced body that passed the length and "graph" check |
| MermaidDiagramAgent.FlowChartKeepsReply | autodocai/agents/mermaid_diagram_agent.py:446-465 | a reply that is one acceptable fenced diagram is kept as it is |
| MermaidDiagramAgent.FlowsNext | autodocai/agents/mermaid_diagram_agent.py:217-224 | each candidate adds its chart under `flow_<name>`, adds nothing without a chart, and raises when it has a chart but no name |
| MermaidDiagramAgent.FlowsOf | autodocai/agents/mermaid_diagram_agent.py:217-226 | at most one chart per candidate, each under `flow_` and the name of a candidate whose chart succeeded |
| MermaidDiagramAgent.NoKeyNoFlows | autodocai/agents/mermaid_diagram_agent.py:292-296 | without an API key no flow chart is made and nothing raises |
| MermaidDiagramAgent.FlowsErrSticks | autodocai/agents/mermaid_diagram_agent.py:222-223 | once the loop has raised, the remaining candidates change nothing |
| MermaidDiagramAgent.BuildFlows | autodocai/agents/mermaid_diagram_agent.py:199-226 | `_generate_function_flow_diagrams` returns exactly the flow charts of the first five candidates |
| MermaidDiagramAgent.ArchFilesOf | autodocai/agents/mermaid_diagram_agent.py:500-503 | the files listed are the non-empty paths of the first ten snippets, each once |
| MermaidDiagramAgent.CollectFiles | autodocai/agents/mermaid_diagram_agent.py:500-503 | the loop collects exactly those files |
| MermaidDiagramAgent.ArchFilesFirst | autodocai/agents/mermaid_diagram_agent.py:501 | only the first ten snippets matter |
| MermaidDiagramAgent.ArchReplyShape | autodocai/agents/mermaid_diagram_agent.py:540-555 | an architecture chart is a non-empty stripped body, fenced |
| MermaidDiagramAgent.ArchReplyFenced | autodocai/agents/mermaid_diagram_agent.py:540-549 | a reply that is one fenced non-empty body is kept as it is |
| MermaidDiagramAgent.ArchitectureAsWrittenNeverWithRepo | autodocai/agents/mermaid_diagram_agent.py:485-494 | as written, a state that holds a repository never gets an architecture chart |
| MermaidDiagramAgent.ArchitectureIntended | autodocai/agents/mermaid_diagram_agent.py:474-559 | reading the name from the repository, such a state gets the model's chart, asked for under the repository's name |
| MermaidDiagramAgent.ArchitectureVersionsAgreeWithoutRepo | autodocai/agents/mermaid_diagram_agent.py:485-494 | without a repository both readings ask for "Project" and agree |
| MermaidDiagramAgent.BuildArchitectureChart | autodocai/agents/mermaid_diagram_agent.py:474-559 | `_generate_architectural_diagram` returns exactly the architecture chart |
| MermaidDiagramAgent.ClassKeysPrefix | autodocai/agents/mermaid_diagram_agent.py:192 | every class diagram key starts with `class_` |
| MermaidDiagramAgent.KeysApart | autodocai/agents/mermaid_diagram_agent.py:56-71 | the keys of the four kinds of diagram never coincide |
| MermaidDiagramAgent.AssembledParts | autodocai/agents/mermaid_diagram_agent.py:50-71 | no kind of diagram overwrites another, so the dict holds each part and its size is the sum of the parts |
| MermaidDiagramAgent.AssembledSize | autodocai/agents/mermaid_diagram_agent.py:50-71 | the number of diagrams is the sum of the parts |
| MermaidDiagramAgent.AssembledEntries | autodocai/agents/mermaid_diagram_agent.py:50-71 | each part's diagrams are in the dict under their own keys |
| MermaidDiagramAgent.CollectedCount | autodocai/agents/mermaid_diagram_agent.py:53-71 | there is a dependency chart exactly when there are modules, and the count is the sum of the parts |
| MermaidDiagramAgent.AllDiagramsCount | autodocai/agents/mermaid_diagram_agent.py:50-71 | the stored diagrams number the sum of the parts, with at most five flow charts |
| MermaidDiagramAgent.Generate | autodocai/agents/mermaid_diagram_agent.py:50-71 | the helpers in turn produce exactly all the diagrams |
| MermaidDiagramAgent.Assemble | autodocai/agents/mermaid_diagram_agent.py:50-71 | the dict filled part by part is exactly the assembled diagrams |
| MermaidDiagramAgent.LogicResult | autodocai/agents/mermaid_diagram_agent.py:29-82 | the stage only appends its own messages; with neither modules nor snippets it warns and returns; it raises exactly when modules or snippets are missing or a flow chart has no name, and then the fields are unchanged |
| MermaidDiagramAgent.LogicStored | autodocai/agents/mermaid_diagram_agent.py:73-82 | when it returns after drawing, `diagrams` holds the collected charts and the success message gives their number |
| MermaidDiagramAgent.Run | autodocai/agents/mermaid_diagram_agent.py:29-82 | `_execute` changes the shared state as the stage's logic says |
| SummarizerAgent.SummaryHeadings | autodocai/agents/summarizer_agent.py:189-195 | "## SUMMARY_EN" and "## SUMMARY_VI" are a heading pair the reply parser can tell apart |
| SummarizerAgent.Entry | autodocai/agents/summarizer_agent.py:70-73 | the stored entry has exactly "en" and "vi", each the result's value or None when it has none |
| SummarizerAgent.CachedNoCall | autodocai/agents/summarizer_agent.py:101-106 | a snippet that already has an English summary keeps its own summaries and no model is asked |
| SummarizerAgent.NoKeyOnlyCached | autodocai/agents/summarizer_agent.py:101-112 | without an API key only snippets that already have a summary get one |
| SummarizerAgent.SummaryOfReply | autodocai/agents/summarizer_agent.py:107-228 | a reply in the requested format gives the English and the Vietnamese summary, stripped |
| SummarizerAgent.ResultHasEnglish | autodocai/agents/summarizer_agent.py:199-228 | every summary has an English entry |
| SummarizerAgent.SummarizedSnippets | autodocai/agents/summarizer_agent.py:52-75 | every snippet is kept in order, annotated with its own result, and at most that many are counted |
| SummarizerAgent.SummarizedKeys | autodocai/agents/summarizer_agent.py:60-75 | a snippet id is in `summaries` exactly when one of its snippets was summarized, and each entry has "en" and "vi" |
| SummarizerAgent.LogicResult | autodocai/agents/summarizer_agent.py:26-90 | the stage never raises and only appends its own messages; without snippets it warns and changes nothing; otherwise it stores the annotated snippets and the summaries and reports how many were summarized |
| SummarizerAgent.Run | autodocai/agents/summarizer_agent.py:26-90 | `_execute` changes the shared state as the stage's logic says |
| SummarizerAgent.SummarizeAll | autodocai/agents/summarizer_agent.py:48-78 | the loop over batches of 10 gives the same tally as summarizing the snippets one by one |
| SummarizerAgent.ApplyBatch | autodocai/agents/summarizer_agent.py:59-75 | folding one batch's results in extends the tally to the end of that batch |
| SummarizerAgent.SummarizeBatch | autodocai/agents/summarizer_agent.py:55-57 | one result per snippet of the batch, in order |
| DocstringEnhancerAgent.Copy | autodocai/agents/docstring_enhancer_agent.py:53-64 | the copy keeps every field of the snippet but the AI summaries, which it leaves empty |
| DocstringEnhancerAgent.CopiedFromLast | autodocai/agents/docstring_enhancer_agent.py:40-65 | the last snippet adds its copy exactly when it needs a docstring |
| DocstringEnhancerAgent.EnhancedSelects | autodocai/agents/docstring_enhancer_agent.py:40-65 | the enhanced snippets are exactly the copies of the snippets that need a docstring |
| DocstringEnhancerAgent.EnhancedConcat | autodocai/agents/docstring_enhancer_agent.py:40-65 | the selection works snippet by snippet, so it distributes over concatenation |
| DocstringEnhancerAgent.GeneratedCount | autodocai/agents/docstring_enhancer_agent.py:40-65 | one docstring is generated per enhanced snippet, never more than there are snippets |
| DocstringEnhancerAgent.FallbackAfterOneRequest | autodocai/agents/docstring_enhancer_agent.py:183-217 | when the first request fails the fallback docstring is returned after that one request; otherwise the translation is asked for too |
| DocstringEnhancerAgent.NoKeyFallback | autodocai/agents/docstring_enhancer_agent.py:100-217 | without an API key the fallback docstring is returned |
| DocstringEnhancerAgent.GeneratedFromReplies | autodocai/agents/docstring_enhancer_agent.py:183-211 | the English docstring is the reply or its default, the Vietnamese one the translation or its default, both stripped |
| DocstringEnhancerAgent.LogicResult | autodocai/agents/docstring_enhancer_agent.py:20-78 | the stage never raises and only appends its own messages; without snippets it warns and changes nothing; otherwise it stores the enhanced snippets and the stage name |
| DocstringEnhancerAgent.EnhanceAll | autodocai/agents/docstring_enhancer_agent.py:40-65 | the loop yields exactly the copies of the selected snippets and one generated docstring per selected snippet, in input order |
| DocstringEnhancerAgent.Run | autodocai/agents/docstring_enhancer_agent.py:20-78 | `_execute` changes the shared state as the stage's logic says, and the docstrings it generates are one per enhanced snippet |
| DocumentationBuilderAgent.BuildDir | autodocai/agents/documentation_builder_agent.py:168-209 | a build path is returned exactly when `npm run build` exits with 0 and the build directory exists, and it is that directory |
| DocumentationBuilderAgent.LogicResult | autodocai/agents/documentation_builder_agent.py:17-68 | the stage only appends its own messages and ends with one; a successful install and build store the build path and result with a success message; every failure changes no field and ends with its error message |
| DocumentationBuilderAgent.NoBuildAfterFailedInstall | autodocai/agents/documentation_builder_agent.py:36-43 | after a failed install only the install command has run, never the build |
| DocumentationBuilderAgent.CommandsInDocsPath | autodocai/agents/documentation_builder_agent.py:27-46 | every command runs in the docs path |
| DocumentationBuilderAgent.Run | autodocai/agents/documentation_builder_agent.py:17-68 | `_execute` changes the shared state as the stage's logic says |
| DocusaurusFormatterAgent.LogicResult | autodocai/agents/docusaurus_formatter_agent.py:26-118 | without repository information the stage raises at once; it returns exactly when there is an output directory and writing succeeds, then storing the docs path with a start and a success message; a write error is raised behind its prefix with the fields unchanged |
| DocusaurusFormatterAgent.Run | autodocai/agents/docusaurus_formatter_agent.py:26-118 | `_execute` changes the shared state as the stage's logic says |
| TranslationAgent.TranslateText | autodocai/agents/translation_agent.py:149-224 | nothing to translate gives nothing, blank text gives "" without a request, and every translation comes back stripped |
| TranslationAgent.TranslateAnswered | autodocai/agents/translation_agent.py:203-220 | a non-blank text that the model answers comes back as that answer with every "VIETNAMESE TRANSLATION:" removed and the white space stripped |
| TranslationAgent.MarkerRemoved | autodocai/agents/translation_agent.py:216-220 | a reply that starts with "VIETNAMESE TRANSLATION:" is returned without it, stripped |
| TranslationAgent.AsWrittenTranslatesNothing | autodocai/agents/translation_agent.py:103-147 | as written, summaries that always carry a "vi" entry, as the summarizer stores them, are returned unchanged |
| TranslationAgent.AsWrittenKeepsMissingVietnamese | autodocai/agents/translation_agent.py:105-106 | as written, an English-only summary with "vi" set to None keeps None; no translation is asked for |
| TranslationAgent.ExampleAttempt | autodocai/agents/translation_agent.py:117-224 | the example summary is pending and its attempt is the cleaned reply |
| TranslationAgent.MergeFilled | autodocai/agents/translation_agent.py:123-137 | a summary whose translation succeeded is stored as its English text with the translation |
| TranslationAgent.PendingFilled | autodocai/agents/translation_agent.py:104-137 | a summary whose Vietnamese entry is missing or empty and whose translation succeeds comes out as its original English plus that translation |
| TranslationAgent.IntendedFillsMissingVietnamese | autodocai/agents/translation_agent.py:104-137 | with the intended test the English-only example gets its Vietnamese text |
| TranslationAgent.SummariesMerged | autodocai/agents/translation_agent.py:90-147 | no summary is invented; every stored one has "vi"; a summary with a translation is kept as it was; every change is the English text with a successful translation; every pending summary that translates is filled |
| TranslationAgent.GuardsDifferOnlyOnEmpty | autodocai/agents/translation_agent.py:105-106 | the written and the intended test agree unless "vi" is present but empty |
| TranslationAgent.Attempts | autodocai/agents/translation_agent.py:116-120 | one translation attempt per summary, for every summary |
| TranslationAgent.CollectedHas | autodocai/agents/translation_agent.py:123-137 | a summary is collected exactly when it was sent and its translation succeeded, and is then its English text with the translation |
| TranslationAgent.PendingIds | autodocai/agents/translation_agent.py:103-107 | the ids to translate are exactly the summaries that lack a Vietnamese text |
| TranslationAgent.TranslateBatch | autodocai/agents/translation_agent.py:115-120 | one attempt per id of the batch, in order |
| TranslationAgent.TranslateInBatches | autodocai/agents/translation_agent.py:111-140 | the loop over batches of 5 collects what translating every pending id in turn collects |
| TranslationAgent.TranslateNextBatch | autodocai/agents/translation_agent.py:112-137 | one batch extends the collected translations to the end of that batch |
| TranslationAgent.AddBatch | autodocai/agents/translation_agent.py:123-137 | the zip over one batch's results adds exactly its successful translations |
| TranslationAgent.CollectedNext | autodocai/agents/translation_agent.py:123-137 | one more id adds its translation when it succeeded, and nothing otherwise |
| TranslationAgent.KeepTranslated | autodocai/agents/translation_agent.py:142-145 | the summaries that already have a "vi" entry are added back, as they were, without replacing a new translation's id |
| TranslationAgent.TranslateSummaries | autodocai/agents/translation_agent.py:90-147 | `_translate_summaries` returns exactly the merged summaries |
| TranslationAgent.SummaryAt | autodocai/agents/translation_agent.py:90-147 | a summary is returned exactly when it translated or already had a "vi" entry, and is the new pair or itself |
| TranslationAgent.FillEntry | autodocai/agents/translation_agent.py:69-74 | an explanation is filled only where it has no "vi" entry and the translation succeeded, with nothing else changed |
| TranslationAgent.TranslatedRag | autodocai/agents/translation_agent.py:54-77 | the collection name and the explained modules stay the same |
| TranslationAgent.FillIdempotent | autodocai/agents/translation_agent.py:69-74 | filling a filled explanation changes nothing |
| TranslationAgent.FillOne | autodocai/agents/translation_agent.py:60-73 | one in-place fill (the overview, or one explanation) gives exactly `FillEntry` of the dict it started from |
| TranslationAgent.FillExplanations | autodocai/agents/translation_agent.py:66-76 | the result has exactly the input's modules, and each holds its own explanation filled as `FillEntry` says |
| TranslationAgent.Stored | autodocai/agents/translation_agent.py:77-83 | the stage adds "translations" and "current_stage", replaces "rag_results" when translated, and keeps every other field and the messages |
| TranslationAgent.LogicResult | autodocai/agents/translation_agent.py:26-88 | the stage never raises and only appends its own messages; without "VI" the state is unchanged; otherwise the translations and the stage name are stored and every other field is kept |
| TranslationAgent.Run | autodocai/agents/translation_agent.py:26-88 | `_execute` changes the shared state as the stage's logic says |
| Batching.ChunksCover | autodocai/agents/translation_agent.py:112-113 | the slices `s[i:i+k]` cover the sequence in order, none is empty, none is longer than `k`, and all but the last are full |
| Batching.ChunksStep | autodocai/agents/translation_agent.py:112-113 | the batches from `i` are the slice at `i` followed by the batches from the next start |
| Batching.ChunksAdvance | autodocai/agents/translation_agent.py:112-113 | a loop that is at batch `b` and start `i` takes the slice at `i` and moves on to the next start |
| Text.Strip | autodocai/agents/summarizer_agent.py:214 | `strip` leaves no whitespace at either end and never lengthens the text |
| Text.StripPadded | autodocai/agents/summarizer_agent.py:214 | stripping removes exactly the whitespace around an already stripped text |
| Text.Find | autodocai/agents/summarizer_agent.py:211 | `find` gives the leftmost occurrence, and nothing exactly when there is none |
| Text.Split | autodocai/agents/summarizer_agent.py:212 | `split` always gives at least one piece |
| Text.SplitPartsFree | autodocai/agents/summarizer_agent.py:212 | no piece of a split holds the separator |
| Text.JoinSplit | autodocai/agents/rag_query_agent.py:314-316 | joining the pieces of a split with its separator gives the text back |
| Text.SplitJoin | autodocai/agents/rag_query_agent.py:314-316 | splitting a join on a one-character separator that no part holds gives the parts back |
| Text.ReplaceIsSplitJoin | autodocai/agents/translation_agent.py:218 | `replace` is splitting on the pattern and joining with the replacement |
| Text.NatToStringRoundTrip | autodocai/agents/mermaid_diagram_agent.py:74-77 | the decimal digits `str(n)` writes read back as `n` |
| Text.Basename | autodocai/agents/mermaid_diagram_agent.py:98 | `os.path.basename` is an end of the path that holds no "/" |

## Left out

- HTTP calls to OpenRouter, Qdrant and SendGrid are not modelled. Each is a field of `Collaborators.Env` that returns a reply or an error. Headers, payload text, temperatures and token limits do not affect any decision, so they are omitted.
- The tenacity retry decorators (attempt counts, random exponential waits) are library behaviour. Only the retry predicate is kept, as `MermaidDiagramAgent.ShouldRetry`. A retried call counts as the one reply `Env.chat` gives for that request.
- `asyncio.gather` is modelled as a sequential map over each batch, with results in input order. Concurrency and exceptions returned in place of results are not modelled. A failed request gives a `Failure` reply.
- Git, `tempfile`, `shutil.rmtree`, `os.walk`, `os.path.exists`, reading README files and `npm` are data or `Env` functions. Clean-up of the work directory is not modelled.
- The Docusaurus formatter writes nothing in the model. Its file writing is one `Env.formatDocs` result, and only its stage contract is modelled: raise without repository information, otherwise store `docs_path`.
- Python's `ast` module is an abstract syntax datatype. `ast.unparse` of an expression is the text stored in the node.
- Float vectors and scores are not modelled: the random fallback embedding, the embedding call and the search scores. A point carries the text it embeds, and a hit carries its payload.
- The collection name built from `hash()` and a file time is the opaque `Env.collectionName`. Timestamps from `datetime.now()` are the opaque `Env.clock`.
- Logging, `repr`/`str` details of exceptions beyond their message, and the literal prompt texts are not modelled. A prompt is its `Collaborators.Request`, which holds the parts that vary.
- Dict iteration order follows Python's insertion order for every dict the model builds. For `module_explanations` this is the order in which module snippets first appear.
- MermaidDiagramAgent.Targets: the source keeps each module's targets, and the node names, in Python `set`s (autodocai/agents/mermaid_diagram_agent.py:99, :110, :123). It iterates them in hash order, which changes between processes. The model fixes first-met order, so `DependencyChartShape` and the chart functions state one order of lines among those the program can print. The set of node and edge lines is as in the source.
- DocumentationBuilderAgent.LogicResult: the except branch at autodocai/agents/documentation_builder_agent.py:70-77 (an ERROR message, then a re-raise) is not modelled. Both helpers catch every exception and return False or None (:86-88, :207-209), so only a failing log call or state write could reach the branch.
- RepoClonerAgent.Logic reads the repository URL from the configuration. The source reads `state["config"]` (autodocai/agents/repo_cloner_agent.py:33), which the seed state of autodocai/orchestrator.py:59-64 does not hold.
- DocstringEnhancerAgent.Copy: the source passes `enhanced_docstring=` to `CodeSnippet` (autodocai/agents/docstring_enhancer_agent.py:63). The effective `CodeSnippet` (autodocai/schemas.py:183-196) has no such field, so the generated docstring is dropped. The model drops it too, and `Run` reports the generated docstrings separately.
- `get_state_value` and `set_state_value` are called by two agents but defined nowhere in the source. They are modelled as a plain read and write of a state field.
- Cli.Completed, Cli.EchoRun and Cli.SyncGenerate report failures through the corrected `Cli.Failure` branch. The branch as written (autodocai/cli.py:82, :85) is `Cli.FailureAsWritten`; see "## Findings".
- The LangGraph `StateGraph` is modelled as the nine stages run in order. The graph as built has no entry point (autodocai/orchestrator.py:72-101), so `compile` would raise. The model takes the intended linear run and treats any exception of the runtime as `Env.runtimeFailure`. The "initialization" stage name is never reached.
- autodocai/notification/notifications.py duplicates autodocai/notifications.py, and the orchestrator does not use it. It is not part of this model.
- The tests, `conftest.py` and the `__init__` files are not part of this model.
- MermaidDiagramAgent.PyRepr: every character above U+00FF is written as it is. Python's `repr` writes the ones the Unicode database marks non-printable (line and paragraph separators, format characters, unassigned code points) as `\uNNNN` or `\UNNNNNNNN`. The model has no Unicode database.
- DocumentationBuilderAgent.Installed: writing a default `package.json` when the docs directory has none (autodocai/agents/documentation_builder_agent.py:90-139) is a file-system side effect. What `npm install` then does is the `Env.npmInstall` result for the directory.
- Cli.Generate: with `--debug`, the exception handler also echoes `traceback.format_exc()` after the error line (autodocai/cli.py:139-141). A Python traceback is not modelled, so that extra line is left out.
- The stdlib prefix list of the dependency diagram is kept as written. It is a prefix test, so `requests` counts as `re`.

## Findings

| source | as written | input that shows it | evidently intended | confidence | as-written member | corrected member |
|---|---|---|---|---|---|---|
| autodocai/code_parser/python_parser.py:299-306 | `_extract_functions` reads `node.parent` on a top-level definition before line 306 sets it, so it raises `AttributeError`. The file is then reported as unparsable. | a module holding `def f(): pass` | every top-level `def` becomes a parsed function | not executed | PythonParser.ExtractFunctionsAsWritten, PythonParser.ExtractFunctionsAsWrittenOk | PythonParser.ExtractFunctions, PythonParser.ExtractFunctionsExact |
| autodocai/code_parser/python_parser.py:210-260 | keyword-only defaults are aligned as positional ones. A keyword-only parameter without a default finds `None` in `kw_defaults`, and `ast.unparse(None)` raises. | `def f(*, a): pass` | such a parameter has no default | not executed | PythonParser.ParamTypeAndDefaultAsWritten, PythonParser.KeywordOnlyWithoutDefaultRaises | PythonParser.ParamTypeAndDefault |
| autodocai/agents/translation_agent.py:105-106 | a summary is translated only when it has no "vi" key. The summarizer always stores "vi", None when not requested (autodocai/agents/summarizer_agent.py:70-73), so no summary is ever translated. | `{"s1": {"en": "Adds two numbers.", "vi": None}}` with VI requested | translate a summary whose Vietnamese text is missing or empty | not executed | TranslationAgent.TranslatedSummariesAsWritten, TranslationAgent.AsWrittenKeepsMissingVietnamese, TranslationAgent.AsWrittenTranslatesNothing | TranslationAgent.TranslatedSummaries, TranslationAgent.IntendedFillsMissingVietnamese, TranslationAgent.SummariesMerged |
| autodocai/agents/mermaid_diagram_agent.py:485-494 | `repo_info.get("name", "Project")` is called on the `RepositoryInfo` object the cloner stores. This raises, the error is caught, and there is never an architecture diagram. | any run after a successful clone, with an architectural overview | ask for the chart under the repository's name | not executed | MermaidDiagramAgent.ArchitectureChartAsWritten, MermaidDiagramAgent.ArchitectureAsWrittenNeverWithRepo | MermaidDiagramAgent.ArchitectureChart, MermaidDiagramAgent.ArchitectureIntended |
| autodocai/cli.py:80-88 | `error.get(...)` is called on the string entries of `errors`, and `msg.message` on messages that have `content`. A run with recorded errors ends in the generic "Error: 'str' object has no attribute 'get'". A run with only ERROR messages prints "Unknown error occurred". | a run whose builder stage reports "Failed to install dependencies" | one "- " line per recorded error, or per ERROR message | not executed | Cli.FailureAsWritten, Cli.FailureAsWrittenHidesDetails, Cli.BuilderFailureHidden | Cli.Failure, Cli.ErrorLinesShape |
