/** The `generate` command (autodocai/cli.py): builds the configuration,
    runs the workflow once and reports on the terminal. What it echoes is
    the sequence of lines below; `sys.exit` is the exit code. */
module Cli {
  import opened Wrappers
  import opened Text
  import opened Schemas
  import opened Config
  import opened States
  import opened Collaborators
  import opened Terminal
  import Orchestrator

  /** The lines echoed and the exit status. */
  datatype Report = Report(lines: seq<string>, exitCode: int)

  /** What `len(None)` raises. */
  const NoLen := "object of type 'NoneType' has no len()"
  /** What `error.get(...)` raises on a string entry. */
  const StrNoGet := "'str' object has no attribute 'get'"
  const Unknown := "Unknown error occurred"
  const StatsHeader := "\n📊 Statistics:"

  /** `sync_generate`'s handler for an exception escaping the run. */
  function ErrorLine(e: string): string { "❌ Error: " + e }

  function SuccessLines(outputDir: string, buildPath: string): seq<string>
  {
    ["✅ Documentation generated successfully in " + outputDir, "   Documentation available at: " + buildPath]
  }

  function CountLine(caption: string, n: int): string { "   " + caption + ": " + IntToString(n) }

  // ------------------------------------------------------------ statistics

  /** Lines echoed so far and the exception that cut them short, if any. */
  datatype Echo = Echo(lines: seq<string>, raised: Option<string>)

  /** `result.get("diagrams", {})` is there and non-empty. */
  predicate HasEntries(d: Option<map<string, string>>)
  {
    d.Some? && |d.value| > 0
  }

  /** The statistics block: printed only when the snippets or the diagrams
      are non-empty; a None among them makes `len` raise midway. */
  function StatsEcho(f: Fields): Echo
  {
    var sns := GetSnippets(f);
    var d := GetDiagrams(f);
    if !(HasItems(sns) || HasEntries(d)) then Echo([], None)
    else if sns.None? then Echo([StatsHeader], Some(NoLen))
    else
      var counts := [StatsHeader,
                     CountLine("Files processed", |sns.value|),
                     CountLine("Functions documented", Orchestrator.CountType(sns.value, "function")),
                     CountLine("Classes documented", Orchestrator.CountType(sns.value, "class"))];
      if d.None? then Echo(counts, Some(NoLen))
      else Echo(counts + [CountLine("Diagrams generated", |d.value|)], None)
  }

  /** The block is empty exactly when there is nothing to count. When it
      completes, its four counts are the ones `run_workflow` put in the
      success notice. */
  lemma StatsAgreeWithNotice(f: Fields)
    ensures StatsEcho(f).lines == [] <==> !(HasItems(GetSnippets(f)) || HasEntries(GetDiagrams(f)))
    ensures StatsEcho(f).raised.Some? ==> StatsEcho(f).raised == Some(NoLen)
    ensures StatsEcho(f).raised.Some? <==>
      (HasItems(GetSnippets(f)) || HasEntries(GetDiagrams(f))) && (GetSnippets(f).None? || GetDiagrams(f).None?)
    ensures StatsEcho(f).lines != [] && StatsEcho(f).raised.None? ==>
      var stats := Orchestrator.RunStats(f);
      StatsEcho(f).lines ==
        [StatsHeader,
         CountLine("Files processed", stats["files_processed"]),
         CountLine("Functions documented", stats["functions_documented"]),
         CountLine("Classes documented", stats["classes_documented"]),
         CountLine("Diagrams generated", stats["diagrams_generated"])]
  {
    var sns := GetSnippets(f);
    if sns.Some? && !HasItems(sns) {
      assert sns.value == [];
      assert Orchestrator.CountType(sns.value, "function") == 0;
      assert Orchestrator.CountType(sns.value, "class") == 0;
    }
  }

  // ------------------------------------------------------------ failure

  /** The contents of the ERROR messages, in order. */
  function ErrorContents(msgs: seq<AgentMessage>): (r: seq<string>)
    ensures |r| <= |msgs|
  {
    if msgs == [] then []
    else ErrorContents(msgs[..|msgs| - 1])
         + (if msgs[|msgs| - 1].message_type == Error then [msgs[|msgs| - 1].content] else [])
  }

  /** Every listed content is an ERROR message's, and every ERROR message's
      content is listed. */
  lemma {:induction false} ErrorContentsSpec(msgs: seq<AgentMessage>)
    ensures forall x :: x in ErrorContents(msgs) <==> exists m :: m in msgs && m.message_type == Error && m.content == x
    ensures ErrorContents(msgs) == [] <==> forall m :: m in msgs ==> m.message_type != Error
    decreases |msgs|
  {
    if msgs != [] {
      var init := msgs[..|msgs| - 1];
      var last := msgs[|msgs| - 1];
      ErrorContentsSpec(init);
      assert msgs == init + [last];
      forall x ensures x in ErrorContents(msgs) <==> exists m :: m in msgs && m.message_type == Error && m.content == x {
        if x in ErrorContents(msgs) && x !in ErrorContents(init) {
          assert last in msgs;
        }
        if exists m :: m in msgs && m.message_type == Error && m.content == x {
          var m :| m in msgs && m.message_type == Error && m.content == x;
          if m != last {
            assert m in init;
          }
        }
      }
      if ErrorContents(msgs) == [] {
        forall m | m in msgs ensures m.message_type != Error {
          if m != last {
            assert m in init;
          }
        }
      }
    }
  }

  function Dashed(items: seq<string>): (r: seq<string>)
    ensures |r| == |items| && forall i :: 0 <= i < |items| ==> r[i] == "- " + items[i]
  {
    seq(|items|, i requires 0 <= i < |items| => "- " + items[i])
  }

  /** The failure lines: one per `errors` entry when there are any,
      otherwise one per ERROR message, otherwise a fixed line. */
  function ErrorLines(s: State): seq<string>
  {
    if Errs(s) != [] then Dashed(Errs(s))
    else if ErrorContents(Msgs(s)) != [] then Dashed(ErrorContents(Msgs(s)))
    else [Unknown]
  }

  /** There is always a line; the recorded errors take precedence, then the
      ERROR messages, each shown whole. */
  lemma ErrorLinesShape(s: State)
    ensures |ErrorLines(s)| >= 1
    ensures Errs(s) != [] ==>
      |ErrorLines(s)| == |Errs(s)| && forall i :: 0 <= i < |Errs(s)| ==> ErrorLines(s)[i] == "- " + Errs(s)[i]
    ensures Errs(s) == [] && (exists m :: m in Msgs(s) && m.message_type == Error) ==>
      forall m :: m in Msgs(s) && m.message_type == Error ==> "- " + m.content in ErrorLines(s)
    ensures Errs(s) == [] && (forall m :: m in Msgs(s) ==> m.message_type != Error) ==> ErrorLines(s) == [Unknown]
  {
    ErrorContentsSpec(Msgs(s));
    if Errs(s) == [] && ErrorContents(Msgs(s)) != [] {
      var c := ErrorContents(Msgs(s));
      forall m | m in Msgs(s) && m.message_type == Error ensures "- " + m.content in ErrorLines(s) {
        assert m.content in c;
        var i :| 0 <= i < |c| && c[i] == m.content;
        assert ErrorLines(s)[i] == "- " + m.content;
      }
    }
  }

  function FailureLine(lines: seq<string>): string { "❌ Error(s):\n" + Join(lines, "\n") }

  /** The `else` branch of `generate`: the failure lines and exit 1. */
  function Failure(s: State): Report
  {
    Report([FailureLine(ErrorLines(s))], 1)
  }

  /** The same branch as written: `errors` holds strings, so `error.get`
      raises; `result.dict()` has turned every message into a dict, which
      has no `message_type` attribute, so no message is picked. */
  function FailureAsWritten(s: State): Report
  {
    if Errs(s) != [] then Report([ErrorLine(StrNoGet)], 1)
    else Report([FailureLine([Unknown])], 1)
  }

  /** As written, a failed run never shows what went wrong. */
  lemma FailureAsWrittenHidesDetails(s: State)
    ensures FailureAsWritten(s) == Report([ErrorLine(StrNoGet)], 1) || FailureAsWritten(s) == Report([FailureLine([Unknown])], 1)
    ensures Errs(s) != [] ==> FailureAsWritten(s) != Failure(s)
    ensures Errs(s) == [] && (exists m :: m in Msgs(s) && m.message_type == Error) ==> FailureAsWritten(s) != Failure(s)
  {
    ErrorContentsSpec(Msgs(s));
    if Errs(s) != [] {
      assert ErrorLine(StrNoGet)[7] == ':' && FailureLine(ErrorLines(s))[7] == '(';
    } else if ErrorContents(Msgs(s)) != [] {
      var c := ErrorContents(Msgs(s));
      if |c| == 1 {
        assert FailureLine(ErrorLines(s)) == "❌ Error(s):\n" + ("- " + c[0]);
      } else {
        JoinCons(ErrorLines(s)[0], ErrorLines(s)[1..], "\n");
        assert ErrorLines(s) == [ErrorLines(s)[0]] + ErrorLines(s)[1..];
      }
      assert FailureLine(ErrorLines(s))[12] == '-' && FailureLine([Unknown])[12] == 'U';
    }
  }

  /** A run where the only failure is one the builder records without
      raising (`npm install` failing, say): `errors` stays empty and the
      one ERROR message holds the detail, which only the corrected branch
      shows. */
  lemma BuilderFailureHidden(name: string, detail: string, t: string)
    ensures var s := State(map[], Some([AgentMessage(name, Error, detail, t)]), Some([]));
      && Failure(s) == Report([FailureLine(["- " + detail])], 1)
      && FailureAsWritten(s) == Report([FailureLine([Unknown])], 1)
  {
    var msgs := [AgentMessage(name, Error, detail, t)];
    assert msgs[..0] == [];
    assert ErrorContents(msgs) == [detail];
    assert Dashed([detail]) == ["- " + detail];
  }

  // ------------------------------------------------------------ generate

  /** Shown in an f-string: the text, or "None". */
  function Shown(o: Option<string>): string
  {
    if o.Some? then o.value else "None"
  }

  /** The report on a completed run. */
  function Completed(cfg: Settings, result: State): Report
  {
    var bp := GetStr(result.fields, "build_path");
    if Truthy(bp) then
      var stats := StatsEcho(result.fields);
      var lines := SuccessLines(Shown(cfg.output_dir), bp.value) + stats.lines;
      if stats.raised.Some? then Report(lines + [ErrorLine(stats.raised.value)], 1) else Report(lines, 0)
    else Failure(result)
  }

  /** The site is announced exactly when `build_path` is truthy, and the
      status is 0 exactly when the statistics also printed without
      raising; a falsy `build_path` gives the failure lines. */
  lemma CompletedOutcomes(cfg: Settings, result: State)
    ensures var r := Completed(cfg, result); var bp := GetStr(result.fields, "build_path");
      && (r.exitCode == 0 || r.exitCode == 1)
      && (r.exitCode == 0 <==> Truthy(bp) && StatsEcho(result.fields).raised.None?)
      && (Truthy(bp) ==> |r.lines| >= 2 && r.lines[..2] == SuccessLines(Shown(cfg.output_dir), bp.value))
      && (!Truthy(bp) ==> r == Failure(result))
  {
    var bp := GetStr(result.fields, "build_path");
    if Truthy(bp) {
      var lines := SuccessLines(Shown(cfg.output_dir), bp.value) + StatsEcho(result.fields).lines;
      assert lines[..2] == SuccessLines(Shown(cfg.output_dir), bp.value);
      assert (lines + [ErrorLine(NoLen)])[..2] == lines[..2];
    }
  }

  /** What `generate` reports once the workflow has run. */
  function Ran(cfg: Settings, run: Orchestrator.RunResult): Report
  {
    match run
    case Reraised(e) => Report([ErrorLine(e)], 1)
    case Completed(result) => Completed(cfg, result)
  }

  /** The lines `v` echoed before a report, and then that report. */
  function Prefixed(v: seq<string>, r: Report): (p: Report)
    ensures p.exitCode == r.exitCode && |p.lines| == |v| + |r.lines|
    ensures p.lines[..|v|] == v && p.lines[|v|..] == r.lines
  {
    Report(v + r.lines, r.exitCode)
  }

  /** What follows validate's lines `v` once the workflow has run with
      `cfg`, whose output directory is `outputDir`. */
  lemma PrefixedOutcomes(v: seq<string>, cfg: Settings, outputDir: string, run: Orchestrator.RunResult)
    requires cfg.output_dir == Some(outputDir)
    ensures var r := Prefixed(v, Ran(cfg, run));
      && (r.exitCode == 0 || r.exitCode == 1)
      && |v| <= |r.lines| && r.lines[..|v|] == v
      && (run.Reraised? ==> r == Report(v + [ErrorLine(run.error)], 1))
      && (run.Completed? ==>
            var f := run.result.fields; var bp := GetStr(f, "build_path");
            && (r.exitCode == 0 <==> Truthy(bp) && StatsEcho(f).raised.None?)
            && (Truthy(bp) ==> |r.lines| >= |v| + 2 && r.lines[|v|..|v| + 2] == SuccessLines(outputDir, bp.value))
            && (!Truthy(bp) ==> r == Report(v + Failure(run.result).lines, 1)))
      && (r.exitCode == 0 ==> |r.lines| >= |v| + 2)
  {
    var ran := Ran(cfg, run);
    var r := Prefixed(v, ran);
    if run.Completed? {
      CompletedOutcomes(cfg, run.result);
      if Truthy(GetStr(run.result.fields, "build_path")) {
        assert r.lines[|v|..|v| + 2] == ran.lines[..2];
      }
    }
  }

  /** `generate` after the configuration was built: `validate` echoes its
      lines first, and an invalid configuration stops there, before the
      workflow is created. */
  function Configured(env: Env, s: Settings): Report
  {
    var v := ValidateLines(s);
    if MissingRequired(s) != [] then Report(v, 1)
    else
      // `validate` leaves both settings as they were.
      Prefixed(v, Ran(Validated(s), Orchestrator.Workflow(Validated(s), env, s.target_repo_url.value, s.output_dir.value).result))
  }

  /** `sync_generate` over `generate`; `environ` is the process environment
      and `env` the outside world the workflow talks to. */
  function Generate(env: Env, environ: Environ, repoUrl: Option<string>, outputDir: Option<string>,
                    languages: Option<string>, githubPat: Option<string>, debug: bool): Report
  {
    match FromEnvAndArgs(repoUrl, outputDir, languages, githubPat, debug, environ)
    case Err(e) => Report([ErrorLine(e)], 1)
    case Ok(s) => Configured(env, s)
  }

  /** The lines `validate` echoes come first. An invalid configuration
      prints only those (the missing-settings header and one line per
      missing setting) and exits 1 without starting the workflow. Otherwise
      the exit status is 0 exactly when the run completed with a truthy
      `build_path` and the statistics printed without raising, and then the
      two lines after validate's announce the site; anything raised is
      reported on one line. */
  lemma ConfiguredOutcomes(env: Env, s: Settings)
    ensures var r := Configured(env, s); var v := ValidateLines(s);
      && (r.exitCode == 0 || r.exitCode == 1)
      && |v| <= |r.lines| && r.lines[..|v|] == v
      && (MissingRequired(s) != [] ==> r == Report(v, 1) && |v| == |MissingRequired(s)| + 1)
      && (MissingRequired(s) == [] ==>
            var run := Orchestrator.Workflow(Validated(s), env, s.target_repo_url.value, s.output_dir.value);
            && (run.result.Reraised? ==> r == Report(v + [ErrorLine(run.result.error)], 1))
            && (run.result.Completed? ==>
                  var f := run.result.result.fields; var bp := GetStr(f, "build_path");
                  && (r.exitCode == 0 <==> Truthy(bp) && StatsEcho(f).raised.None?)
                  && (Truthy(bp) ==> |r.lines| >= |v| + 2 && r.lines[|v|..|v| + 2] == SuccessLines(s.output_dir.value, bp.value))
                  && (!Truthy(bp) ==> r == Report(v + Failure(run.result.result).lines, 1))))
      && (r.exitCode == 0 ==> MissingRequired(s) == [] && |r.lines| >= |v| + 2)
  {
    if MissingRequired(s) == [] {
      ValidatedGuarantees(s);
      var run := Orchestrator.Workflow(Validated(s), env, s.target_repo_url.value, s.output_dir.value);
      PrefixedOutcomes(ValidateLines(s), Validated(s), s.output_dir.value, run.result);
    } else {
      MissingLines(s);
    }
  }

  /** A configuration that cannot be built is reported on one line. */
  lemma GenerateOutcomes(env: Env, environ: Environ, repoUrl: Option<string>, outputDir: Option<string>,
                         languages: Option<string>, githubPat: Option<string>, debug: bool)
    ensures var r := Generate(env, environ, repoUrl, outputDir, languages, githubPat, debug);
            var c := FromEnvAndArgs(repoUrl, outputDir, languages, githubPat, debug, environ);
      && (c.Err? ==> r == Report([ErrorLine(c.error)], 1))
      && (c.Ok? ==> r == Configured(env, c.value))
      && (r.exitCode == 0 || r.exitCode == 1)
  {
    var c := FromEnvAndArgs(repoUrl, outputDir, languages, githubPat, debug, environ);
    if c.Ok? {
      ConfiguredOutcomes(env, c.value);
    }
  }

  // ------------------------------------------------------------ terminal

  /** The statistics block of `generate`. */
  method EchoStats(console: Console, f: Fields) returns (raised: Option<string>)
    modifies console
    ensures console.lines == old(console.lines) + StatsEcho(f).lines && raised == StatsEcho(f).raised
  {
    var snippets := GetSnippets(f);
    var diagrams := GetDiagrams(f);
    if HasItems(snippets) || HasEntries(diagrams) {
      console.Echo(StatsHeader);
      if snippets.None? {
        return Some(NoLen);
      }
      console.Echo(CountLine("Files processed", |snippets.value|));
      console.Echo(CountLine("Functions documented", Orchestrator.CountType(snippets.value, "function")));
      console.Echo(CountLine("Classes documented", Orchestrator.CountType(snippets.value, "class")));
      if diagrams.None? {
        return Some(NoLen);
      }
      console.Echo(CountLine("Diagrams generated", |diagrams.value|));
    }
    return None;
  }

  /** `generate` from the moment the workflow's result is back, with the
      exception handler of `sync_generate`. */
  method EchoRun(console: Console, cfg: Settings, run: Orchestrator.RunResult) returns (exitCode: int)
    modifies console
    ensures console.lines == old(console.lines) + Ran(cfg, run).lines && exitCode == Ran(cfg, run).exitCode
  {
    if run.Reraised? {
      console.Echo(ErrorLine(run.error));
      return 1;
    }
    var result := run.result;
    var buildPath := GetStr(result.fields, "build_path");
    if !Truthy(buildPath) {
      console.Echo(FailureLine(ErrorLines(result)));
      return 1;
    }
    console.Echo("✅ Documentation generated successfully in " + Shown(cfg.output_dir));
    console.Echo("   Documentation available at: " + buildPath.value);
    var raised := EchoStats(console, result.fields);
    if raised.Some? {
      console.Echo(ErrorLine(raised.value));
      return 1;
    }
    return 0;
  }

  /** `sync_generate`: the lines go to `console`, the exit status is
      returned. */
  method SyncGenerate(console: Console, env: Env, environ: Environ, repoUrl: Option<string>, outputDir: Option<string>,
                      languages: Option<string>, githubPat: Option<string>, debug: bool) returns (exitCode: int)
    modifies console
    ensures console.lines == old(console.lines) + Generate(env, environ, repoUrl, outputDir, languages, githubPat, debug).lines
    ensures exitCode == Generate(env, environ, repoUrl, outputDir, languages, githubPat, debug).exitCode
  {
    var built := FromEnvAndArgs(repoUrl, outputDir, languages, githubPat, debug, environ);
    if built.Err? {
      console.Echo(ErrorLine(built.error));
      return 1;
    }
    exitCode := GenerateConfigured(console, env, built.value);
  }

  /** `generate` once `AppConfig` is built: validation, then the run and
      its report. */
  method GenerateConfigured(console: Console, env: Env, s: Settings) returns (exitCode: int)
    modifies console
    ensures console.lines == old(console.lines) + Configured(env, s).lines && exitCode == Configured(env, s).exitCode
  {
    var config := new AppConfig(s);
    var ok := config.Validate(console);
    ghost var before, v := old(console.lines), ValidateLines(s);
    if !ok {
      return 1;
    }
    ValidatedGuarantees(s);
    var cfg := config.settings;
    exitCode := RunValidated(console, env, cfg);
    AppendedPair(before, v, Ran(cfg, Orchestrator.Workflow(cfg, env, cfg.target_repo_url.value, cfg.output_dir.value).result).lines);
  }

  /** `create_workflow`, the run and its report, once `validate` passed. */
  method RunValidated(console: Console, env: Env, cfg: Settings) returns (exitCode: int)
    requires Truthy(cfg.target_repo_url) && Truthy(cfg.output_dir)
    modifies console
    ensures var r := Ran(cfg, Orchestrator.Workflow(cfg, env, cfg.target_repo_url.value, cfg.output_dir.value).result);
      console.lines == old(console.lines) + r.lines && exitCode == r.exitCode
  {
    var g, rag := Orchestrator.CreateWorkflow();
    var run := Orchestrator.RunWorkflow(rag, cfg, env, cfg.target_repo_url.value, cfg.output_dir.value);
    exitCode := EchoRun(console, cfg, run.result);
  }
}
