/** `DocusaurusFormatterAgent`
    (autodocai/agents/docusaurus_formatter_agent.py): writes the Docusaurus
    site into the output directory and records that directory as
    `docs_path`. The files it writes are not modelled; only whether
    writing them failed. */
module DocusaurusFormatterAgent {
  import opened Wrappers
  import opened Schemas
  import opened Config
  import opened States
  import opened Base
  import opened Collaborators

  const Name := "DocusaurusFormatterAgent"
  const NoRepo := "Repository information is missing"
  const Starting := "Starting documentation generation"
  const Generated := "Documentation generated successfully"
  const FormatFailed := "Failed to generate documentation: "
  /** What `os.path.exists(None)` raises. */
  const NotAPath := "stat: path should be string, bytes, os.PathLike or integer, not NoneType"
  /** What `os.makedirs("")` raises. */
  const EmptyPath := "[Errno 2] No such file or directory: ''"

  /** `_execute`; the output directory is the configured one. */
  function Logic(s: State, cfg: Settings, env: Env): Step
  {
    if GetRepoInfo(s.fields).None? then Step(s, Raised(NoRepo))
    else if cfg.output_dir.None? then Step(s, Raised(NotAPath))
    else if cfg.output_dir.value == "" then Step(s, Raised(EmptyPath))
    else
      var s1 := Added(s, Name, Info, Starting, env.clock);
      match env.formatDocs
      case Some(e) => Step(s1, Raised(FormatFailed + e))
      case None => Step(Put(Added(s1, Name, Success, Generated, env.clock), "docs_path", Str(cfg.output_dir.value)), Returned)
  }

  /** Without a repository the stage raises before anything else. When the
      site is written, `docs_path` is the output directory and is the only
      field that changes; any failure leaves the fields alone. */
  lemma LogicResult(s: State, cfg: Settings, env: Env)
    ensures var step := Logic(s, cfg, env);
      && AppendsOnly(s, step.state, Name)
      && (GetRepoInfo(s.fields).None? ==> step == Step(s, Raised(NoRepo)))
      && (step.outcome.Returned? <==>
            GetRepoInfo(s.fields).Some? && Truthy(cfg.output_dir) && env.formatDocs.None?)
      && (step.outcome.Returned? ==>
            && step.state.fields == s.fields["docs_path" := Str(cfg.output_dir.value)]
            && Msgs(step.state) == Msgs(s) + [AgentMessage(Name, Info, Starting, env.clock(|Msgs(s)|)),
                                              AgentMessage(Name, Success, Generated, env.clock(|Msgs(s)| + 1))])
      && (step.outcome.Raised? ==> step.state.fields == s.fields)
      && (GetRepoInfo(s.fields).Some? && Truthy(cfg.output_dir) && env.formatDocs.Some? ==>
            step.outcome == Raised(FormatFailed + env.formatDocs.value))
  {
    if GetRepoInfo(s.fields).Some? && Truthy(cfg.output_dir) {
      AddedAppends(s, s, Name, Info, Starting, env.clock);
      var s1 := Added(s, Name, Info, Starting, env.clock);
      if env.formatDocs.None? {
        AddedAppends(s, s1, Name, Success, Generated, env.clock);
      }
    }
  }

  /** `_execute` on the shared state. */
  method Run(st: WorkflowState, cfg: Settings, env: Env) returns (o: Outcome)
    modifies st
    ensures Step(st.Snapshot(), o) == Logic(old(st.Snapshot()), cfg, env)
  {
    var repoInfo := GetRepoInfo(st.fields);
    if repoInfo.None? {
      return Raised(NoRepo);
    }
    var outputDir := cfg.output_dir;
    if outputDir.None? {
      return Raised(NotAPath);
    }
    if outputDir.value == "" {
      return Raised(EmptyPath);
    }
    st.AddMessage(Name, Info, Starting, env.clock);
    if env.formatDocs.Some? {
      return Raised(FormatFailed + env.formatDocs.value);
    }
    st.AddMessage(Name, Success, Generated, env.clock);
    st.Set("docs_path", Str(outputDir.value));
    return Returned;
  }
}
