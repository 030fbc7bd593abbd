/** `DocstringEnhancerAgent` (autodocai/agents/docstring_enhancer_agent.py):
    picks the snippets whose docstring is missing or shorter than ten
    characters once trimmed, asks for an English docstring and its
    Vietnamese translation for each, and stores copies of the picked
    snippets under `enhanced_snippets`. */
module DocstringEnhancerAgent {
  import opened Wrappers
  import opened Text
  import opened Schemas
  import opened Config
  import opened States
  import opened Base
  import opened Collaborators

  const Name := "DocstringEnhancerAgent"
  const NoSnippets := "No code snippets found to enhance docstrings"
  const Stage := "docstrings_enhanced"
  const MinDocstring := 10

  /** The selection test of the `_execute` loop. */
  predicate NeedsDocstring(s: CodeSnippet)
  {
    !Truthy(s.original_docstring) || |Strip(s.original_docstring.value)| < MinDocstring
  }

  /** The copy the loop builds: the source's fields, no summaries. The
      `enhanced_docstring` argument names no field of the snippet record,
      so the copy does not keep it. */
  function Copy(s: CodeSnippet): (c: CodeSnippet)
    ensures c.id == s.id && c.file_path == s.file_path
    ensures c.start_line == s.start_line && c.end_line == s.end_line
    ensures c.text_content == s.text_content && c.symbol_type == s.symbol_type
    ensures c.language == s.language && c.symbol_name == s.symbol_name
    ensures c.original_docstring == s.original_docstring
    ensures c.ai_summary_en == None && c.ai_summary_vi == None
  {
    s.(ai_summary_en := None, ai_summary_vi := None)
  }

  /** `enhanced_snippets`: copies of the selected snippets, in order. */
  function Enhanced(sn: seq<CodeSnippet>): seq<CodeSnippet>
  {
    if sn == [] then []
    else Enhanced(sn[..|sn| - 1]) + (if NeedsDocstring(sn[|sn| - 1]) then [Copy(sn[|sn| - 1])] else [])
  }

  /** The result of `_generate_docstring`. */
  datatype Docstring = Docstring(en: string, vi: string)

  function Fallback(name: Option<string>): Docstring
  {
    Docstring("Docstring for " + Shown(name) + " (English version)",
              "Docstring cho " + Shown(name) + " (Phiên bản tiếng Việt)")
  }

  function EnglishDefault(name: Option<string>): string { "Docstring for " + Shown(name) }
  function VietnameseDefault(name: Option<string>): string { "Docstring cho " + Shown(name) }

  /** `_generate_docstring`: an English docstring, then its translation. Any
      failed request gives the fixed fallback pair; an empty reply gives a
      default text; the results are trimmed. */
  function GenerateDocstring(cfg: Settings, env: Env, code: string, kind: string, name: Option<string>): Docstring
  {
    match Ask(cfg, env, DocstringRequest(code, kind, name))
    case Failure(_) => Fallback(name)
    case Answer(c) =>
      var en := if Truthy(c) then c.value else EnglishDefault(name);
      match Ask(cfg, env, DocstringTranslationRequest(en))
      case Failure(_) => Fallback(name)
      case Answer(v) =>
        var vi := if Truthy(v) then v.value else VietnameseDefault(name);
        Docstring(Strip(en), Strip(vi))
  }

  /** The requests `_generate_docstring` makes, in order: the translation is
      asked for only after the English request succeeded. */
  function Requests(cfg: Settings, env: Env, code: string, kind: string, name: Option<string>): seq<Request>
  {
    var first := DocstringRequest(code, kind, name);
    match Ask(cfg, env, first)
    case Failure(_) => [first]
    case Answer(c) => [first, DocstringTranslationRequest(if Truthy(c) then c.value else EnglishDefault(name))]
  }

  /** The docstrings the loop generates, one per selected snippet. */
  function Generated(cfg: Settings, env: Env, sn: seq<CodeSnippet>): seq<Docstring>
  {
    if sn == [] then []
    else
      var s := sn[|sn| - 1];
      Generated(cfg, env, sn[..|sn| - 1])
        + (if NeedsDocstring(s) then [GenerateDocstring(cfg, env, s.text_content, s.symbol_type, s.symbol_name)] else [])
  }

  function StartText(n: nat): string { "Enhancing docstrings for " + NatToString(n) + " code snippets" }
  function DoneText(n: nat): string { "Enhanced docstrings for " + NatToString(n) + " code snippets" }

  /** `_execute` */
  function Logic(s: State, cfg: Settings, env: Env): Step
  {
    var sn := GetSnippets(s.fields);
    if sn.None? || sn.value == [] then Step(Added(s, Name, Warning, NoSnippets, env.clock), Returned)
    else
      var s1 := Added(s, Name, Info, StartText(|sn.value|), env.clock);
      var e := Enhanced(sn.value);
      var s2 := Put(Put(s1, "enhanced_snippets", Snippets(e)), "current_stage", Str(Stage));
      Step(Added(s2, Name, Success, DoneText(|e|), env.clock), Returned)
  }

  // ------------------------------------------------------------ properties

  /** `x` is what the loop appends for the snippet `s`. */
  predicate Picked(s: CodeSnippet, x: CodeSnippet)
  {
    NeedsDocstring(s) && x == Copy(s)
  }

  /** `x` is the copy of a selected snippet of `sn`. */
  predicate CopiedFrom(sn: seq<CodeSnippet>, x: CodeSnippet)
  {
    exists i :: 0 <= i < |sn| && Picked(sn[i], x)
  }

  lemma CopiedFromLast(sn: seq<CodeSnippet>, x: CodeSnippet)
    requires sn != []
    ensures CopiedFrom(sn, x) <==> CopiedFrom(sn[..|sn| - 1], x) || Picked(sn[|sn| - 1], x)
  {
    var pre := sn[..|sn| - 1];
    var n := |sn| - 1;
    assert CopiedFrom(sn, x) ==> CopiedFrom(pre, x) || Picked(sn[n], x) by {
      if CopiedFrom(sn, x) {
        var i :| 0 <= i < |sn| && Picked(sn[i], x);
        if i < n {
          assert pre[i] == sn[i];
          assert Picked(pre[i], x);
          assert CopiedFrom(pre, x);
        } else {
          assert i == n;
        }
      }
    }
    assert CopiedFrom(pre, x) ==> CopiedFrom(sn, x) by {
      if CopiedFrom(pre, x) {
        var i :| 0 <= i < |pre| && Picked(pre[i], x);
        assert sn[i] == pre[i];
      }
    }
    assert Picked(sn[n], x) ==> CopiedFrom(sn, x);
  }

  /** A snippet among the copies is the copy of a selected input, and every
      selected input is copied. */
  lemma {:induction false} EnhancedSelects(sn: seq<CodeSnippet>, x: CodeSnippet)
    ensures x in Enhanced(sn) <==> CopiedFrom(sn, x)
    decreases |sn|
  {
    if sn != [] {
      var pre := sn[..|sn| - 1];
      var last := sn[|sn| - 1];
      var tail := if NeedsDocstring(last) then [Copy(last)] else [];
      assert Enhanced(sn) == Enhanced(pre) + tail;
      EnhancedSelects(pre, x);
      CopiedFromLast(sn, x);
    }
  }

  /** The copies keep the input order: selecting from two lists one after
      the other is selecting from their concatenation. */
  lemma {:induction false} EnhancedConcat(a: seq<CodeSnippet>, b: seq<CodeSnippet>)
    ensures Enhanced(a + b) == Enhanced(a) + Enhanced(b)
    decreases |b|
  {
    if b != [] {
      assert (a + b)[..|a + b| - 1] == a + b[..|b| - 1];
      assert (a + b)[|a + b| - 1] == b[|b| - 1];
      EnhancedConcat(a, b[..|b| - 1]);
    } else {
      assert a + b == a;
    }
  }

  /** As many docstrings are generated as snippets are copied. */
  lemma {:induction false} GeneratedCount(cfg: Settings, env: Env, sn: seq<CodeSnippet>)
    ensures |Generated(cfg, env, sn)| == |Enhanced(sn)| <= |sn|
    decreases |sn|
  {
    if sn != [] {
      GeneratedCount(cfg, env, sn[..|sn| - 1]);
    }
  }

  /** A failed English request ends generation after one request with the
      fallback pair; otherwise there are exactly two requests. */
  lemma FallbackAfterOneRequest(cfg: Settings, env: Env, code: string, kind: string, name: Option<string>)
    ensures Ask(cfg, env, DocstringRequest(code, kind, name)).Failure? ==>
      GenerateDocstring(cfg, env, code, kind, name) == Fallback(name) && |Requests(cfg, env, code, kind, name)| == 1
    ensures Ask(cfg, env, DocstringRequest(code, kind, name)).Answer? ==> |Requests(cfg, env, code, kind, name)| == 2
  {
  }

  /** Without an API key every generated docstring is the fallback pair. */
  lemma NoKeyFallback(cfg: Settings, env: Env, code: string, kind: string, name: Option<string>)
    requires !Truthy(cfg.openrouter_api_key)
    ensures GenerateDocstring(cfg, env, code, kind, name) == Fallback(name)
  {
  }

  /** Two non-empty replies come back trimmed; empty replies fall back to
      the default texts. */
  lemma GeneratedFromReplies(cfg: Settings, env: Env, code: string, kind: string, name: Option<string>,
                             en: Option<string>, vi: Option<string>)
    requires Ask(cfg, env, DocstringRequest(code, kind, name)) == Answer(en)
    requires Ask(cfg, env, DocstringTranslationRequest(if Truthy(en) then en.value else EnglishDefault(name))) == Answer(vi)
    ensures var d := GenerateDocstring(cfg, env, code, kind, name);
      && d.en == Strip(if Truthy(en) then en.value else EnglishDefault(name))
      && d.vi == Strip(if Truthy(vi) then vi.value else VietnameseDefault(name))
      && IsStripped(d.en) && IsStripped(d.vi)
  {
  }

  /** The stage always returns, writes `enhanced_snippets` and
      `current_stage` when there are snippets and nothing at all otherwise. */
  lemma LogicResult(s: State, cfg: Settings, env: Env)
    ensures var step := Logic(s, cfg, env);
      && step.outcome == Returned
      && AppendsOnly(s, step.state, Name)
      && ((GetSnippets(s.fields).None? || GetSnippets(s.fields).value == []) ==>
            step.state.fields == s.fields
            && Msgs(step.state) == Msgs(s) + [AgentMessage(Name, Warning, NoSnippets, env.clock(|Msgs(s)|))])
      && ((GetSnippets(s.fields).Some? && GetSnippets(s.fields).value != []) ==>
            step.state.fields == s.fields["enhanced_snippets" := Snippets(Enhanced(GetSnippets(s.fields).value))]
                                         ["current_stage" := Str(Stage)])
  {
    var sn := GetSnippets(s.fields);
    if sn.Some? && sn.value != [] {
      var s1 := Added(s, Name, Info, StartText(|sn.value|), env.clock);
      var e := Enhanced(sn.value);
      var s2 := Put(Put(s1, "enhanced_snippets", Snippets(e)), "current_stage", Str(Stage));
      AddedAppends(s, s, Name, Info, StartText(|sn.value|), env.clock);
      assert AppendsOnly(s, s2, Name);
      AddedAppends(s, s2, Name, Success, DoneText(|e|), env.clock);
    } else {
      AddedAppends(s, s, Name, Warning, NoSnippets, env.clock);
    }
  }

  /** One more snippet of the loop: the copies and the docstrings grow by
      that snippet's share. */
  lemma SelectedStep(cfg: Settings, env: Env, sn: seq<CodeSnippet>, i: nat)
    requires i < |sn|
    ensures Enhanced(sn[..i + 1]) == Enhanced(sn[..i]) + (if NeedsDocstring(sn[i]) then [Copy(sn[i])] else [])
    ensures Generated(cfg, env, sn[..i + 1]) == Generated(cfg, env, sn[..i])
      + (if NeedsDocstring(sn[i]) then [GenerateDocstring(cfg, env, sn[i].text_content, sn[i].symbol_type, sn[i].symbol_name)] else [])
  {
    var p := sn[..i + 1];
    assert p[..|p| - 1] == sn[..i];
    assert p[|p| - 1] == sn[i];
  }

  /** The loop of `_execute`: a docstring and a copy for every selected
      snippet, in order. */
  method EnhanceAll(cfg: Settings, env: Env, sn: seq<CodeSnippet>) returns (enhanced: seq<CodeSnippet>, generated: seq<Docstring>)
    ensures enhanced == Enhanced(sn)
    ensures generated == Generated(cfg, env, sn)
  {
    enhanced, generated := [], [];
    for i := 0 to |sn|
      invariant enhanced == Enhanced(sn[..i])
      invariant generated == Generated(cfg, env, sn[..i])
    {
      SelectedStep(cfg, env, sn, i);
      var snippet := sn[i];
      if NeedsDocstring(snippet) {
        var doc := GenerateDocstring(cfg, env, snippet.text_content, snippet.symbol_type, snippet.symbol_name);
        generated := generated + [doc];
        enhanced := enhanced + [Copy(snippet)];
      }
    }
    assert sn[..|sn|] == sn;
  }

  /** `_execute` on the shared state; also hands back the docstrings it
      generated, which the stage itself drops. */
  method Run(st: WorkflowState, cfg: Settings, env: Env) returns (o: Outcome, generated: seq<Docstring>)
    modifies st
    ensures Step(st.Snapshot(), o) == Logic(old(st.Snapshot()), cfg, env)
    ensures var sn := GetSnippets(old(st.fields));
      generated == if sn.None? then [] else Generated(cfg, env, sn.value)
  {
    var got := GetSnippets(st.fields);
    generated := [];
    if got.None? || got.value == [] {
      st.AddMessage(Name, Warning, NoSnippets, env.clock);
      return Returned, generated;
    }
    var sn := got.value;
    st.AddMessage(Name, Info, StartText(|sn|), env.clock);
    var enhanced;
    enhanced, generated := EnhanceAll(cfg, env, sn);
    st.Set("enhanced_snippets", Snippets(enhanced));
    st.Set("current_stage", Str(Stage));
    st.AddMessage(Name, Success, DoneText(|enhanced|), env.clock);
    return Returned, generated;
  }
}
