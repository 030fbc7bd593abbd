/** `CodeParserAgent` (autodocai/agents/code_parser_agent.py): parses every
    Python file of the cloned repository and cuts each parsed module into
    code snippets, one per module docstring, function, class and method. */
module CodeParserAgent {
  import opened Wrappers
  import opened Text
  import opened Schemas
  import opened PythonParser
  import opened States
  import opened Base
  import opened Collaborators

  const Name := "CodeParserAgent"
  const MissingRepo := "Repository information is missing"

  // ------------------------------------------------------------ snippets

  function ModuleSnippet(m: ParsedModule, rel: string): CodeSnippet
  {
    CodeSnippet(
      id := "module:" + rel, file_path := rel, start_line := 1,
      end_line := |Split(m.code, "\n")|, text_content := m.code,
      symbol_type := "module", language := "python",
      symbol_name := Some(Replace(Basename(m.file_path), ".py", "")),
      original_docstring := m.docstring)
  }

  function FunctionSnippet(f: ParsedFunction, rel: string): CodeSnippet
  {
    CodeSnippet(
      id := "function:" + rel + ":" + f.name, file_path := rel,
      start_line := f.start_line, end_line := f.end_line, text_content := f.code,
      symbol_type := "function", language := "python",
      symbol_name := Some(f.name), original_docstring := f.docstring)
  }

  function ClassSnippet(c: ParsedClass, rel: string): CodeSnippet
  {
    CodeSnippet(
      id := "class:" + rel + ":" + c.name, file_path := rel,
      start_line := c.start_line, end_line := c.end_line, text_content := c.code,
      symbol_type := "class", language := "python",
      symbol_name := Some(c.name), original_docstring := c.docstring)
  }

  function MethodSnippet(c: ParsedClass, f: ParsedFunction, rel: string): CodeSnippet
  {
    CodeSnippet(
      id := "method:" + rel + ":" + c.name + "." + f.name, file_path := rel,
      start_line := f.start_line, end_line := f.end_line, text_content := f.code,
      symbol_type := "method", language := "python",
      symbol_name := Some(c.name + "." + f.name), original_docstring := f.docstring)
  }

  /** The function snippets, in the order of the functions. */
  function FunctionSnippets(fs: seq<ParsedFunction>, rel: string): seq<CodeSnippet>
  {
    if fs == [] then [] else FunctionSnippets(fs[..|fs| - 1], rel) + [FunctionSnippet(fs[|fs| - 1], rel)]
  }

  function MethodSnippets(c: ParsedClass, ms: seq<ParsedFunction>, rel: string): seq<CodeSnippet>
  {
    if ms == [] then [] else MethodSnippets(c, ms[..|ms| - 1], rel) + [MethodSnippet(c, ms[|ms| - 1], rel)]
  }

  /** Each class snippet followed by the snippets of its methods. */
  function ClassSnippets(cs: seq<ParsedClass>, rel: string): seq<CodeSnippet>
  {
    if cs == [] then []
    else
      var c := cs[|cs| - 1];
      ClassSnippets(cs[..|cs| - 1], rel) + [ClassSnippet(c, rel)] + MethodSnippets(c, c.methods, rel)
  }

  /** `_extract_snippets`: paths are relative to the repository root. */
  function ModuleSnippets(m: ParsedModule, repoPath: string): seq<CodeSnippet>
  {
    var rel := RelPath(m.file_path, repoPath);
    (if Truthy(m.docstring) then [ModuleSnippet(m, rel)] else [])
      + FunctionSnippets(m.functions, rel) + ClassSnippets(m.classes, rel)
  }

  /** `_extract_snippets` */
  method ExtractSnippets(m: ParsedModule, repoPath: string) returns (snippets: seq<CodeSnippet>)
    ensures snippets == ModuleSnippets(m, repoPath)
  {
    var rel := RelPath(m.file_path, repoPath);
    snippets := [];
    if Truthy(m.docstring) {
      snippets := snippets + [ModuleSnippet(m, rel)];
    }
    snippets := AppendFunctions(snippets, m.functions, rel);
    snippets := AppendClasses(snippets, m.classes, rel);
  }

  /** The loop over `module.functions`. */
  method AppendFunctions(acc: seq<CodeSnippet>, fs: seq<ParsedFunction>, rel: string) returns (r: seq<CodeSnippet>)
    ensures r == acc + FunctionSnippets(fs, rel)
  {
    r := acc;
    for i := 0 to |fs|
      invariant r == acc + FunctionSnippets(fs[..i], rel)
    {
      assert fs[..i + 1][..i] == fs[..i];
      r := r + [FunctionSnippet(fs[i], rel)];
    }
    assert fs[..|fs|] == fs;
  }

  /** The loop over `module.classes`. */
  method AppendClasses(acc: seq<CodeSnippet>, cs: seq<ParsedClass>, rel: string) returns (r: seq<CodeSnippet>)
    ensures r == acc + ClassSnippets(cs, rel)
  {
    r := acc;
    for i := 0 to |cs|
      invariant r == acc + ClassSnippets(cs[..i], rel)
    {
      assert cs[..i + 1][..i] == cs[..i];
      r := r + [ClassSnippet(cs[i], rel)];
      r := AppendMethods(r, cs[i], rel);
    }
    assert cs[..|cs|] == cs;
  }

  /** The loop over `cls.methods`. */
  method AppendMethods(acc: seq<CodeSnippet>, c: ParsedClass, rel: string) returns (r: seq<CodeSnippet>)
    ensures r == acc + MethodSnippets(c, c.methods, rel)
  {
    r := acc;
    for j := 0 to |c.methods|
      invariant r == acc + MethodSnippets(c, c.methods[..j], rel)
    {
      assert c.methods[..j + 1][..j] == c.methods[..j];
      r := r + [MethodSnippet(c, c.methods[j], rel)];
    }
    assert c.methods[..|c.methods|] == c.methods;
  }

  // ------------------------------------------------- properties of snippets

  /** One snippet per method of each class. */
  function MethodCount(cs: seq<ParsedClass>): nat
  {
    if cs == [] then 0 else MethodCount(cs[..|cs| - 1]) + |cs[|cs| - 1].methods|
  }

  /** How many snippets a module yields: its docstring, its functions, its
      classes and their methods. */
  lemma {:induction false} SnippetCount(m: ParsedModule, repoPath: string)
    ensures |ModuleSnippets(m, repoPath)| ==
      (if Truthy(m.docstring) then 1 else 0) + |m.functions| + |m.classes| + MethodCount(m.classes)
  {
    var rel := RelPath(m.file_path, repoPath);
    FunctionSnippetsAt(m.functions, rel);
    ClassSnippetsCount(m.classes, rel);
  }

  lemma {:induction false} MethodSnippetsAt(c: ParsedClass, ms: seq<ParsedFunction>, rel: string)
    ensures |MethodSnippets(c, ms, rel)| == |ms|
    ensures forall i :: 0 <= i < |ms| ==> MethodSnippets(c, ms, rel)[i] == MethodSnippet(c, ms[i], rel)
    decreases |ms|
  {
    if ms != [] {
      MethodSnippetsAt(c, ms[..|ms| - 1], rel);
    }
  }

  lemma {:induction false} ClassSnippetsCount(cs: seq<ParsedClass>, rel: string)
    ensures |ClassSnippets(cs, rel)| == |cs| + MethodCount(cs)
    decreases |cs|
  {
    if cs != [] {
      var c := cs[|cs| - 1];
      ClassSnippetsCount(cs[..|cs| - 1], rel);
      MethodSnippetsAt(c, c.methods, rel);
    }
  }

  /** The function snippets keep the order of the functions, one each. */
  lemma {:induction false} FunctionSnippetsAt(fs: seq<ParsedFunction>, rel: string)
    ensures |FunctionSnippets(fs, rel)| == |fs|
    ensures forall i :: 0 <= i < |fs| ==> FunctionSnippets(fs, rel)[i] == FunctionSnippet(fs[i], rel)
    decreases |fs|
  {
    if fs != [] {
      FunctionSnippetsAt(fs[..|fs| - 1], rel);
    }
  }

  /** What every snippet of a file says about itself: the relative path,
      the language, one of the four symbol types, and an id that starts
      with that type and the path. */
  predicate Labelled(s: CodeSnippet, rel: string)
  {
    && s.file_path == rel
    && s.language == "python"
    && s.symbol_type in {"module", "function", "class", "method"}
    && StartsWith(s.id, s.symbol_type + ":" + rel)
  }

  lemma PrefixStarts(p: string, q: string)
    ensures StartsWith(p + q, p)
  {
    assert (p + q)[..|p|] == p;
  }

  lemma FunctionLabelled(f: ParsedFunction, rel: string)
    ensures Labelled(FunctionSnippet(f, rel), rel)
  {
    assert "function:" + rel + ":" + f.name == ("function" + ":" + rel) + (":" + f.name);
    PrefixStarts("function" + ":" + rel, ":" + f.name);
  }

  lemma ClassLabelled(c: ParsedClass, rel: string)
    ensures Labelled(ClassSnippet(c, rel), rel)
  {
    assert "class:" + rel + ":" + c.name == ("class" + ":" + rel) + (":" + c.name);
    PrefixStarts("class" + ":" + rel, ":" + c.name);
  }

  lemma MethodLabelled(c: ParsedClass, f: ParsedFunction, rel: string)
    ensures Labelled(MethodSnippet(c, f, rel), rel)
  {
    assert "method:" + rel + ":" + c.name + "." + f.name == ("method" + ":" + rel) + (":" + c.name + "." + f.name);
    PrefixStarts("method" + ":" + rel, ":" + c.name + "." + f.name);
  }

  lemma {:induction false} ClassSnippetsLabelled(cs: seq<ParsedClass>, rel: string)
    ensures forall s :: s in ClassSnippets(cs, rel) ==> Labelled(s, rel)
    decreases |cs|
  {
    if cs != [] {
      var c := cs[|cs| - 1];
      ClassSnippetsLabelled(cs[..|cs| - 1], rel);
      ClassLabelled(c, rel);
      MethodSnippetsAt(c, c.methods, rel);
      forall i | 0 <= i < |c.methods| ensures Labelled(MethodSnippets(c, c.methods, rel)[i], rel) {
        MethodLabelled(c, c.methods[i], rel);
      }
    }
  }

  /** Every snippet of a module is labelled with the module's relative path. */
  lemma SnippetsLabelled(m: ParsedModule, repoPath: string)
    ensures forall s :: s in ModuleSnippets(m, repoPath) ==> Labelled(s, RelPath(m.file_path, repoPath))
  {
    var rel := RelPath(m.file_path, repoPath);
    assert StartsWith("module:" + rel, "module" + ":" + rel);
    FunctionSnippetsAt(m.functions, rel);
    forall i | 0 <= i < |m.functions| ensures Labelled(FunctionSnippets(m.functions, rel)[i], rel) {
      FunctionLabelled(m.functions[i], rel);
    }
    ClassSnippetsLabelled(m.classes, rel);
  }

  /** The module snippet exists exactly when the module has a docstring,
      and then comes first; the function snippets follow it in order. */
  lemma SnippetOrder(m: ParsedModule, repoPath: string)
    ensures var sn := ModuleSnippets(m, repoPath); var d := if Truthy(m.docstring) then 1 else 0;
      && d + |m.functions| <= |sn|
      && (Truthy(m.docstring) <==> exists s :: s in sn && s.symbol_type == "module")
      && (Truthy(m.docstring) ==> sn[0].id == "module:" + RelPath(m.file_path, repoPath))
      && (forall i :: 0 <= i < |m.functions| ==> sn[d + i] == FunctionSnippet(m.functions[i], RelPath(m.file_path, repoPath)))
  {
    SnippetsIndexed(m, repoPath);
    ModuleSnippetPresent(m, repoPath);
  }

  /** Where each snippet sits: the module snippet first when there is one,
      then the function snippets. */
  lemma SnippetsIndexed(m: ParsedModule, repoPath: string)
    ensures var sn := ModuleSnippets(m, repoPath); var d := if Truthy(m.docstring) then 1 else 0;
      var rel := RelPath(m.file_path, repoPath);
      && d + |m.functions| <= |sn|
      && (Truthy(m.docstring) ==> sn[0] == ModuleSnippet(m, rel))
      && (forall i :: 0 <= i < |m.functions| ==> sn[d + i] == FunctionSnippet(m.functions[i], rel))
  {
    var rel := RelPath(m.file_path, repoPath);
    var sn := ModuleSnippets(m, repoPath);
    var d := if Truthy(m.docstring) then 1 else 0;
    var head := if Truthy(m.docstring) then [ModuleSnippet(m, rel)] else [];
    var fs := FunctionSnippets(m.functions, rel);
    var cs := ClassSnippets(m.classes, rel);
    FunctionSnippetsAt(m.functions, rel);
    assert sn == head + fs + cs;
    assert |head| == d;
    assert |fs| == |m.functions|;
    assert |sn| == d + |fs| + |cs|;
    if Truthy(m.docstring) {
      assert sn[0] == head[0] == ModuleSnippet(m, rel);
    }
    forall i | 0 <= i < |m.functions|
      ensures sn[d + i] == FunctionSnippet(m.functions[i], rel)
    {
      assert (head + fs)[d + i] == fs[i];
      assert sn[d + i] == (head + fs)[d + i];
    }
  }

  /** Only the module snippet is labelled "module". */
  lemma ModuleSnippetPresent(m: ParsedModule, repoPath: string)
    ensures Truthy(m.docstring) <==> exists s :: s in ModuleSnippets(m, repoPath) && s.symbol_type == "module"
  {
    var rel := RelPath(m.file_path, repoPath);
    var sn := ModuleSnippets(m, repoPath);
    var fs := FunctionSnippets(m.functions, rel);
    var cs := ClassSnippets(m.classes, rel);
    if Truthy(m.docstring) {
      assert sn == [ModuleSnippet(m, rel)] + fs + cs;
      assert sn[0] in sn && sn[0].symbol_type == "module";
    } else {
      assert sn == fs + cs;
      FunctionSnippetsAt(m.functions, rel);
      forall s | s in sn ensures s.symbol_type != "module" {
        if s in fs {
          var i :| 0 <= i < |m.functions| && fs[i] == s;
        } else {
          assert s in cs;
          ClassesNotModules(m.classes, rel, s);
        }
      }
    }
  }

  lemma {:induction false} ClassesNotModules(cs: seq<ParsedClass>, rel: string, s: CodeSnippet)
    requires s in ClassSnippets(cs, rel)
    ensures s.symbol_type in {"class", "method"}
    decreases |cs|
  {
    var c := cs[|cs| - 1];
    if s in ClassSnippets(cs[..|cs| - 1], rel) {
      ClassesNotModules(cs[..|cs| - 1], rel, s);
    } else if s != ClassSnippet(c, rel) {
      MethodSnippetsAt(c, c.methods, rel);
      var i :| 0 <= i < |c.methods| && MethodSnippets(c, c.methods, rel)[i] == s;
    }
  }

  // ------------------------------------------------------------ the files

  /** What the loop over the files has gathered. */
  datatype Scan = Scan(state: State, modules: seq<ParsedModule>, snippets: seq<CodeSnippet>, processed: nat)

  function ParseWarning(file: string, repoPath: string, e: string): string
  {
    "Error parsing file " + RelPath(file, repoPath) + ": " + e
  }

  /** The loop over `python_files`: a file that cannot be read or parsed
      costs a WARNING message; every other one adds its module and snippets. */
  function ScanFiles(s: State, files: seq<string>, repoPath: string, env: Env): Scan
  {
    if files == [] then Scan(s, [], [], 0)
    else
      var prev := ScanFiles(s, files[..|files| - 1], repoPath, env);
      var f := files[|files| - 1];
      match env.source(f)
      case Err(e) => prev.(state := Added(prev.state, Name, Warning, ParseWarning(f, repoPath, e), env.clock))
      case Ok(parsed) =>
        var m := Parse(f, parsed.0, parsed.1);
        prev.(modules := prev.modules + [m], snippets := prev.snippets + ModuleSnippets(m, repoPath),
              processed := prev.processed + 1)
  }

  /** The snippets of modules, concatenated in order. */
  function AllSnippets(ms: seq<ParsedModule>, repoPath: string): seq<CodeSnippet>
  {
    if ms == [] then [] else AllSnippets(ms[..|ms| - 1], repoPath) + ModuleSnippets(ms[|ms| - 1], repoPath)
  }

  /** Every file is either processed or warned about, the snippets are those
      of the parsed modules, and the fields are untouched. */
  lemma {:induction false} ScanAccounts(s: State, files: seq<string>, repoPath: string, env: Env)
    ensures var r := ScanFiles(s, files, repoPath, env);
      && r.processed == |r.modules|
      && r.snippets == AllSnippets(r.modules, repoPath)
      && |Msgs(r.state)| == |Msgs(s)| + |files| - r.processed
      && AppendsOnly(s, r.state, Name)
      && r.state.fields == s.fields
    decreases |files|
  {
    if files != [] {
      var prev := ScanFiles(s, files[..|files| - 1], repoPath, env);
      ScanAccounts(s, files[..|files| - 1], repoPath, env);
      var r := ScanFiles(s, files, repoPath, env);
      if r.modules != prev.modules {
        assert r.modules[..|r.modules| - 1] == prev.modules;
      }
    }
  }

  function FoundText(n: nat): string { "Found " + NatToString(n) + " Python files" }

  function DoneText(files: nat, snippets: nat): string
  {
    "Completed code analysis: " + NatToString(files) + " files processed, "
      + NatToString(snippets) + " snippets extracted"
  }

  /** What the files scan starts from and what it covers. */
  function Scanned(s: State, info: RepositoryInfo, env: Env): Scan
  {
    if "Python" in info.languages then
      var files := env.pythonFiles(info.local_path);
      ScanFiles(Added(s, Name, Info, FoundText(|files|), env.clock), files, info.local_path, env)
    else Scan(s, [], [], 0)
  }

  function Stored(sc: Scan): State
  {
    Put(Put(Put(Put(sc.state, "modules", Modules(sc.modules)), "snippets", Snippets(sc.snippets)),
      "files_processed", Num(sc.processed)), "snippets_extracted", Num(|sc.snippets|))
  }

  /** `_execute` */
  function Logic(s: State, env: Env): Step
  {
    match GetRepoInfo(s.fields)
    case None => Step(s, Raised(MissingRepo))
    case Some(info) =>
      var sc := Scanned(s, info, env);
      Step(Added(Stored(sc), Name, Success, DoneText(sc.processed, |sc.snippets|), env.clock), Returned)
  }

  /** What the scan gathered is stored under four keys, and nothing else
      changes. */
  lemma StoredFields(sc: Scan)
    ensures var f := Stored(sc).fields;
      && f.Keys == sc.state.fields.Keys + {"modules", "snippets", "files_processed", "snippets_extracted"}
      && (forall k :: k in sc.state.fields && k !in {"modules", "snippets", "files_processed", "snippets_extracted"} ==>
            f[k] == sc.state.fields[k])
      && f["modules"] == Modules(sc.modules) && f["snippets"] == Snippets(sc.snippets)
      && f["files_processed"] == Num(sc.processed) && f["snippets_extracted"] == Num(|sc.snippets|)
    ensures Stored(sc).messages == sc.state.messages && Stored(sc).errors == sc.state.errors
  {
  }

  lemma ScannedAccounts(s: State, info: RepositoryInfo, env: Env)
    ensures var sc := Scanned(s, info, env);
      && sc.processed == |sc.modules| && sc.snippets == AllSnippets(sc.modules, info.local_path)
      && AppendsOnly(s, sc.state, Name) && sc.state.fields == s.fields
  {
    if "Python" in info.languages {
      var files := env.pythonFiles(info.local_path);
      var s1 := Added(s, Name, Info, FoundText(|files|), env.clock);
      ScanAccounts(s1, files, info.local_path, env);
      AddedAppends(s, s, Name, Info, FoundText(|files|), env.clock);
      AppendsTrans(s, s1, ScanFiles(s1, files, info.local_path, env).state, Name);
    }
  }

  /** Without a repository the stage raises and changes nothing; with one it
      stores the parsed modules and their snippets, and the two counters
      agree with them. */
  lemma LogicResult(s: State, env: Env)
    ensures var step := Logic(s, env);
      && AppendsOnly(s, step.state, Name)
      && (GetRepoInfo(s.fields).None? ==> step == Step(s, Raised(MissingRepo)))
      && (GetRepoInfo(s.fields).Some? ==>
            && step.outcome == Returned
            && step.state.fields.Keys == s.fields.Keys + {"modules", "snippets", "files_processed", "snippets_extracted"}
            && (forall k :: k in s.fields && k !in {"modules", "snippets", "files_processed", "snippets_extracted"} ==>
                  step.state.fields[k] == s.fields[k])
            && step.state.fields["modules"].Modules? && step.state.fields["snippets"].Snippets?
            && step.state.fields["snippets"].snippets ==
                 AllSnippets(step.state.fields["modules"].modules, GetRepoInfo(s.fields).value.local_path)
            && step.state.fields["files_processed"] == Num(|step.state.fields["modules"].modules|)
            && step.state.fields["snippets_extracted"] == Num(|step.state.fields["snippets"].snippets|))
  {
    if GetRepoInfo(s.fields).Some? {
      var info := GetRepoInfo(s.fields).value;
      var sc := Scanned(s, info, env);
      ScannedAccounts(s, info, env);
      StoredFields(sc);
      var t := Stored(sc);
      assert AppendsOnly(s, t, Name);
      AddedAppends(s, t, Name, Success, DoneText(sc.processed, |sc.snippets|), env.clock);
    }
  }

  /** Without Python among the languages no file is looked at. */
  lemma NoPythonNoScan(s: State, env: Env)
    requires GetRepoInfo(s.fields).Some? && "Python" !in GetRepoInfo(s.fields).value.languages
    ensures var f := Logic(s, env).state.fields;
      f["modules"] == Modules([]) && f["snippets"] == Snippets([]) && f["files_processed"] == Num(0)
  {
  }

  /** `_execute` on the shared state. */
  method Run(st: WorkflowState, env: Env) returns (o: Outcome)
    modifies st
    ensures Step(st.Snapshot(), o) == Logic(old(st.Snapshot()), env)
  {
    var s0 := st.Snapshot();
    var repo := GetRepoInfo(st.fields);
    if repo.None? {
      return Raised(MissingRepo);
    }
    var info := repo.value;
    var modules: seq<ParsedModule> := [];
    var snippets: seq<CodeSnippet> := [];
    var processed: nat := 0;
    if "Python" in info.languages {
      var files := env.pythonFiles(info.local_path);
      st.AddMessage(Name, Info, FoundText(|files|), env.clock);
      var s1 := st.Snapshot();
      for i := 0 to |files|
        invariant ScanFiles(s1, files[..i], info.local_path, env)
                  == Scan(st.Snapshot(), modules, snippets, processed)
      {
        assert files[..i + 1][..i] == files[..i];
        match env.source(files[i]) {
          case Err(e) =>
            st.AddMessage(Name, Warning, ParseWarning(files[i], info.local_path, e), env.clock);
          case Ok(parsed) =>
            var m := Parse(files[i], parsed.0, parsed.1);
            modules := modules + [m];
            var fileSnippets := ExtractSnippets(m, info.local_path);
            snippets := snippets + fileSnippets;
            processed := processed + 1;
        }
      }
      assert files[..|files|] == files;
    }
    st.Set("modules", Modules(modules));
    st.Set("snippets", Snippets(snippets));
    st.Set("files_processed", Num(processed));
    st.Set("snippets_extracted", Num(|snippets|));
    st.AddMessage(Name, Success, DoneText(processed, |snippets|), env.clock);
    return Returned;
  }
}
