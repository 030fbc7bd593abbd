/** `DocumentationBuilderAgent`
    (autodocai/agents/documentation_builder_agent.py): installs the
    Docusaurus dependencies in the generated site and builds it. Failures
    are reported as ERROR messages; the stage itself always returns. */
module DocumentationBuilderAgent {
  import opened Wrappers
  import opened Text
  import opened Schemas
  import opened States
  import opened Base
  import opened Collaborators

  const Name := "DocumentationBuilderAgent"
  const NoDocsPath := "Documentation path is missing from state"
  const InstallFailed := "Failed to install dependencies"
  const BuildFailed := "Failed to build documentation site"

  /** A subprocess the stage starts, with its working directory. */
  datatype Command = NpmInstall(cwd: string) | NpmRunBuild(cwd: string)

  /** `_install_dependencies`: success exactly when `npm install` exits 0;
      an exception counts as failure. */
  predicate Installed(env: Env, dp: string)
  {
    env.npmInstall(dp) == Ok(0)
  }

  /** `_build_documentation`: the build directory, when `npm run build`
      exits 0 and the directory is there. */
  function BuildDir(env: Env, dp: string): (r: Option<string>)
    ensures r.Some? <==> env.npmBuild(dp) == Ok(0) && env.pathExists(PathJoin(dp, "build"))
    ensures r.Some? ==> r.value == PathJoin(dp, "build") && Truthy(r)
  {
    if env.npmBuild(dp) == Ok(0) && env.pathExists(PathJoin(dp, "build")) then Some(PathJoin(dp, "build")) else None
  }

  /** The commands started, in order: the build only after a successful
      install. */
  function Commands(env: Env, f: Fields): seq<Command>
  {
    var dp := GetStr(f, "docs_path");
    if !Truthy(dp) then []
    else if !Installed(env, dp.value) then [NpmInstall(dp.value)]
    else [NpmInstall(dp.value), NpmRunBuild(dp.value)]
  }

  function BuildingText(dp: string): string { "Building documentation site at " + dp }
  function BuiltText(bp: string): string { "Documentation site built successfully at " + bp }

  /** `_execute` */
  function Logic(s: State, env: Env): Step
  {
    var dp := GetStr(s.fields, "docs_path");
    if !Truthy(dp) then Step(Added(s, Name, Error, NoDocsPath, env.clock), Returned)
    else
      var s1 := Added(s, Name, Info, BuildingText(dp.value), env.clock);
      if !Installed(env, dp.value) then Step(Added(s1, Name, Error, InstallFailed, env.clock), Returned)
      else
        match BuildDir(env, dp.value)
        case None => Step(Added(s1, Name, Error, BuildFailed, env.clock), Returned)
        case Some(bp) =>
          var s2 := Put(Put(s1, "build_path", Str(bp)), "build_result", Built(BuildResult(true, bp)));
          Step(Added(s2, Name, Success, BuiltText(bp), env.clock), Returned)
  }

  /** The stage never raises and changes fields only on a successful build:
      then `build_path` is the build directory and `build_result` agrees
      with it. Otherwise its last message is an ERROR naming the cause. */
  lemma LogicResult(s: State, env: Env)
    ensures var step := Logic(s, env); var dp := GetStr(s.fields, "docs_path");
      && step.outcome == Returned
      && AppendsOnly(s, step.state, Name)
      && |Msgs(step.state)| > |Msgs(s)|
      && var last := Msgs(step.state)[|Msgs(step.state)| - 1];
      && (Truthy(dp) && Installed(env, dp.value) && BuildDir(env, dp.value).Some? ==>
            && step.state.fields == s.fields["build_path" := Str(PathJoin(dp.value, "build"))]
                                            ["build_result" := Built(BuildResult(true, PathJoin(dp.value, "build")))]
            && last.message_type == Success)
      && (!(Truthy(dp) && Installed(env, dp.value) && BuildDir(env, dp.value).Some?) ==>
            step.state.fields == s.fields && last.message_type == Error)
      && (!Truthy(dp) ==> last.content == NoDocsPath && |Msgs(step.state)| == |Msgs(s)| + 1)
      && (Truthy(dp) && !Installed(env, dp.value) ==> last.content == InstallFailed)
      && (Truthy(dp) && Installed(env, dp.value) && BuildDir(env, dp.value).None? ==> last.content == BuildFailed)
  {
    var dp := GetStr(s.fields, "docs_path");
    var step := Logic(s, env);
    if Truthy(dp) {
      var s1 := Added(s, Name, Info, BuildingText(dp.value), env.clock);
      AddedAppends(s, s, Name, Info, BuildingText(dp.value), env.clock);
      if !Installed(env, dp.value) {
        var r := Added(s1, Name, Error, InstallFailed, env.clock);
        assert step == Step(r, Returned);
        assert Msgs(r)[|Msgs(r)| - 1] == Msgs(r)[|Msgs(s1)|];
        AddedAppends(s, s1, Name, Error, InstallFailed, env.clock);
      } else if BuildDir(env, dp.value).None? {
        var r := Added(s1, Name, Error, BuildFailed, env.clock);
        assert step == Step(r, Returned);
        assert Msgs(r)[|Msgs(r)| - 1] == Msgs(r)[|Msgs(s1)|];
        AddedAppends(s, s1, Name, Error, BuildFailed, env.clock);
      } else {
        var bp := BuildDir(env, dp.value).value;
        assert bp == PathJoin(dp.value, "build");
        var s2 := Put(Put(s1, "build_path", Str(bp)), "build_result", Built(BuildResult(true, bp)));
        assert AppendsOnly(s, s2, Name);
        var r := Added(s2, Name, Success, BuiltText(bp), env.clock);
        assert step == Step(r, Returned);
        assert Msgs(r)[|Msgs(r)| - 1] == Msgs(r)[|Msgs(s2)|];
        AddedAppends(s, s2, Name, Success, BuiltText(bp), env.clock);
      }
    } else {
      var r := Added(s, Name, Error, NoDocsPath, env.clock);
      assert step == Step(r, Returned);
      assert Msgs(r)[|Msgs(r)| - 1] == Msgs(r)[|Msgs(s)|];
      AddedAppends(s, s, Name, Error, NoDocsPath, env.clock);
    }
  }

  /** A failed install never starts the build. */
  lemma NoBuildAfterFailedInstall(env: Env, f: Fields)
    requires Truthy(GetStr(f, "docs_path")) && !Installed(env, GetStr(f, "docs_path").value)
    ensures Commands(env, f) == [NpmInstall(GetStr(f, "docs_path").value)]
    ensures forall c :: c in Commands(env, f) ==> !c.NpmRunBuild?
  {
  }

  /** Both commands run in the documentation directory. */
  lemma CommandsInDocsPath(env: Env, f: Fields)
    ensures forall c :: c in Commands(env, f) ==> GetStr(f, "docs_path") == Some(c.cwd)
  {
  }

  /** `_execute` on the shared state. */
  method Run(st: WorkflowState, env: Env) returns (o: Outcome)
    modifies st
    ensures Step(st.Snapshot(), o) == Logic(old(st.Snapshot()), env)
  {
    var dp := GetStr(st.fields, "docs_path");
    if !Truthy(dp) {
      st.AddMessage(Name, Error, NoDocsPath, env.clock);
      return Returned;
    }
    st.AddMessage(Name, Info, BuildingText(dp.value), env.clock);
    var installed := env.npmInstall(dp.value) == Ok(0);
    if !installed {
      st.AddMessage(Name, Error, InstallFailed, env.clock);
      return Returned;
    }
    var buildPath := BuildDir(env, dp.value);
    if buildPath.Some? {
      st.Set("build_path", Str(buildPath.value));
      st.Set("build_result", Built(BuildResult(true, buildPath.value)));
      st.AddMessage(Name, Success, BuiltText(buildPath.value), env.clock);
    } else {
      st.AddMessage(Name, Error, BuildFailed, env.clock);
    }
    return Returned;
  }
}
