/** `RepoClonerAgent` (autodocai/agents/repo_cloner_agent.py): clones the
    configured repository next to the output directory and stores what
    the clone found as `repo_info`. Every failure raises, so the envelope
    records it as the stage's error. */
module RepoClonerAgent {
  import opened Wrappers
  import opened Text
  import opened Schemas
  import opened Config
  import opened States
  import opened Base
  import opened GitHubRepo
  import opened Collaborators

  const Name := "RepoClonerAgent"
  const NoUrl := "Repository URL is required"
  const CloneFailed := "Failed to clone repository: "
  /** What `os.path.dirname(None)` raises. */
  const NotAPath := "expected str, bytes or os.PathLike object, not NoneType"

  function CloningText(url: string): string { "Cloning repository: " + url }
  function ClonedText(info: RepositoryInfo): string
  {
    "Repository cloned successfully. Main languages: " + Join(info.languages, ", ")
  }

  /** The working directory: a `repos` directory beside the output directory. */
  function WorkDir(outputDir: Option<string>): (r: Result<string>)
    ensures outputDir.None? <==> r.Err?
    ensures r.Ok? ==> EndsWith(r.value, "repos")
  {
    match outputDir
    case None => Err(NotAPath)
    case Some(d) => Ok(PathJoin(Dirname(d), "repos"))
  }

  /** What `clone_repository` gives for the configured URL. */
  function Cloned(cfg: Settings, env: Env, url: string): Result<RepositoryInfo>
  {
    match WorkDir(cfg.output_dir)
    case Err(e) => Err(e)
    case Ok(w) => CloneResult(url, cfg.github_pat, w, env.git)
  }

  /** `_execute`; the settings are those the agent reads. */
  function Logic(s: State, cfg: Settings, env: Env): Step
  {
    if !Truthy(cfg.target_repo_url) then Step(s, Raised(NoUrl))
    else
      var url := cfg.target_repo_url.value;
      AfterClone(Added(s, Name, Info, CloningText(url), env.clock), Cloned(cfg, env, url), env.clock)
  }

  /** The rest of `_execute` once `clone_repository` has answered `c`. */
  function AfterClone(s1: State, c: Result<RepositoryInfo>, clock: nat -> string): Step
  {
    match c
    case Err(e) => Step(s1, Raised(CloneFailed + e))
    case Ok(info) => Step(Added(Put(s1, "repo_info", Repo(info)), Name, Success, ClonedText(info), clock), Returned)
  }

  /** The stage raises exactly when there is no URL or the clone fails, and
      then leaves the fields alone; otherwise `repo_info` is the clone's
      result and nothing else changes. */
  lemma LogicResult(s: State, cfg: Settings, env: Env)
    ensures var step := Logic(s, cfg, env);
      && AppendsOnly(s, step.state, Name)
      && (step.outcome.Raised? <==>
            !Truthy(cfg.target_repo_url) || Cloned(cfg, env, cfg.target_repo_url.value).Err?)
      && (step.outcome.Raised? ==> step.state.fields == s.fields)
      && (!Truthy(cfg.target_repo_url) ==> step == Step(s, Raised(NoUrl)))
      && (Truthy(cfg.target_repo_url) && Cloned(cfg, env, cfg.target_repo_url.value).Err? ==>
            step.outcome == Raised(CloneFailed + Cloned(cfg, env, cfg.target_repo_url.value).error))
      && (Truthy(cfg.target_repo_url) && Cloned(cfg, env, cfg.target_repo_url.value).Ok? ==>
            && step.state.fields == s.fields["repo_info" := Repo(Cloned(cfg, env, cfg.target_repo_url.value).value)]
            && Msgs(step.state) == Msgs(s) + [
                 AgentMessage(Name, Info, CloningText(cfg.target_repo_url.value), env.clock(|Msgs(s)|)),
                 AgentMessage(Name, Success, ClonedText(Cloned(cfg, env, cfg.target_repo_url.value).value),
                              env.clock(|Msgs(s)| + 1))])
  {
    if Truthy(cfg.target_repo_url) {
      var url := cfg.target_repo_url.value;
      AfterCloneResult(s, url, Cloned(cfg, env, url), env.clock);
    }
  }

  /** Whatever the clone answers, the stage appends only its own messages;
      a failure raises with the fields untouched, a success stores the
      repository and reports it. */
  lemma AfterCloneResult(s: State, url: string, c: Result<RepositoryInfo>, clock: nat -> string)
    ensures var step := AfterClone(Added(s, Name, Info, CloningText(url), clock), c, clock);
      && AppendsOnly(s, step.state, Name)
      && (step.outcome.Raised? <==> c.Err?)
      && (c.Err? ==> step.state.fields == s.fields && step.outcome == Raised(CloneFailed + c.error))
      && (c.Ok? ==>
            && step.state.fields == s.fields["repo_info" := Repo(c.value)]
            && Msgs(step.state) == Msgs(s) + [
                 AgentMessage(Name, Info, CloningText(url), clock(|Msgs(s)|)),
                 AgentMessage(Name, Success, ClonedText(c.value), clock(|Msgs(s)| + 1))])
  {
    var s1 := Added(s, Name, Info, CloningText(url), clock);
    AddedAppends(s, s, Name, Info, CloningText(url), clock);
    if c.Ok? {
      AddedAppends(s, Put(s1, "repo_info", Repo(c.value)), Name, Success, ClonedText(c.value), clock);
    }
  }

  /** The stored repository carries the configured URL and is private exactly
      when a token was configured. A URL that names no repository fails
      before git is asked. */
  lemma ClonedRepository(cfg: Settings, env: Env, url: string)
    ensures Cloned(cfg, env, url).Ok? ==>
      Cloned(cfg, env, url).value.url == url && Cloned(cfg, env, url).value.is_private == Truthy(cfg.github_pat)
    ensures cfg.output_dir.Some? && ExtractRepoName(url) == "" ==>
      Cloned(cfg, env, url) == Err("Invalid GitHub repository URL: " + url)
  {
  }

  /** `_execute` on the shared state. */
  method Run(st: WorkflowState, cfg: Settings, env: Env) returns (o: Outcome)
    modifies st
    ensures Step(st.Snapshot(), o) == Logic(old(st.Snapshot()), cfg, env)
  {
    var repoUrl := cfg.target_repo_url;
    if !Truthy(repoUrl) {
      return Raised(NoUrl);
    }
    st.AddMessage(Name, Info, CloningText(repoUrl.value), env.clock);
    var repoInfo := Cloned(cfg, env, repoUrl.value);
    if repoInfo.Err? {
      return Raised(CloneFailed + repoInfo.error);
    }
    st.Set("repo_info", Repo(repoInfo.value));
    st.AddMessage(Name, Success, ClonedText(repoInfo.value), env.clock);
    return Returned;
  }
}
