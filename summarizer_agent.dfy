/** `SummarizerAgent` (autodocai/agents/summarizer_agent.py): asks the
    summarizer model for an English (and, when Vietnamese output is wanted,
    a Vietnamese) summary of every snippet, ten snippets at a time. A
    snippet that already carries an English summary is answered from it
    without a request; a request that fails leaves its snippet out. */
module SummarizerAgent {
  import opened Wrappers
  import opened Text
  import opened Schemas
  import opened Config
  import opened States
  import opened Base
  import opened Sections
  import opened Collaborators

  const Name := "SummarizerAgent"
  const BatchSize := 10
  const SummaryEn := "## SUMMARY_EN"
  const SummaryVi := "## SUMMARY_VI"
  const NoSnippets := "No code snippets to summarize"

  /** The two summary headings can be told apart by the section parser. */
  lemma SummaryHeadings()
    ensures HeadingPair(SummaryEn, SummaryVi)
  {
    assert SummaryEn[2..] == " SUMMARY_EN";
    assert SummaryVi[2..] == " SUMMARY_VI";
  }

  /** `d.get(k)` */
  function Get(d: LangDict, k: string): Option<string>
  {
    if k in d then d[k] else None
  }

  /** `_summarize_snippet`: None stands for the exception `gather` hands
      back, which the caller skips. A None reply content makes the parser
      raise, so it counts as a failure too. */
  function SummarizeSnippet(cfg: Settings, env: Env, s: CodeSnippet): Option<LangDict>
  {
    if Truthy(s.ai_summary_en) then Some(map["en" := s.ai_summary_en, "vi" := s.ai_summary_vi])
    else
      SummaryHeadings();
      match Ask(cfg, env, SummaryRequest(s, RequestedSections(cfg.output_languages, SummaryEn, SummaryVi)))
      case Answer(Some(c)) => Some(ParseSections(c, SummaryEn, SummaryVi))
      case _ => None
  }

  /** The `summaries` entry for a result: both keys, "vi" None when absent. */
  function Entry(d: LangDict): (e: LangDict)
    ensures e.Keys == {"en", "vi"}
    ensures forall k :: k in e ==> (k in d ==> e[k] == d[k]) && (k !in d ==> e[k] == None)
  {
    map["en" := Get(d, "en"), "vi" := Get(d, "vi")]
  }

  /** The annotated snippets, the `summaries` dict and `total_processed`
      after a prefix of the snippets. */
  datatype Tally = Tally(snippets: seq<CodeSnippet>, summaries: map<string, LangDict>, count: nat)

  /** One snippet's result applied: the snippet annotated and recorded
      when there is one, kept as it was otherwise. */
  function Apply(t: Tally, s: CodeSnippet, r: Option<LangDict>): Tally
  {
    match r
    case None => t.(snippets := t.snippets + [s])
    case Some(d) => Tally(t.snippets + [Annotated(s, r)], t.summaries[s.id := Entry(d)], t.count + 1)
  }

  /** `snippet.ai_summary_en = result.get("en")` when there is a result. */
  function Annotated(s: CodeSnippet, r: Option<LangDict>): CodeSnippet
  {
    if r.Some? then s.(ai_summary_en := Get(r.value, "en")) else s
  }

  function Summarized(cfg: Settings, env: Env, sn: seq<CodeSnippet>): Tally
  {
    if sn == [] then Tally([], map[], 0)
    else Apply(Summarized(cfg, env, sn[..|sn| - 1]), sn[|sn| - 1], SummarizeSnippet(cfg, env, sn[|sn| - 1]))
  }

  function StartText(n: nat): string
  {
    "Starting summarization of " + NatToString(n) + " code snippets"
  }

  function DoneText(n: nat): string
  {
    "Completed summarization: " + NatToString(n) + " snippets summarized"
  }

  /** `_execute` */
  function Logic(s: State, cfg: Settings, env: Env): Step
  {
    var sn := GetSnippets(s.fields);
    if sn.None? || sn.value == [] then Step(Added(s, Name, Warning, NoSnippets, env.clock), Returned)
    else
      var s1 := Added(s, Name, Info, StartText(|sn.value|), env.clock);
      var t := Summarized(cfg, env, sn.value);
      var s2 := Put(Put(s1, "snippets", Snippets(t.snippets)), "summaries", Summaries(t.summaries));
      Step(Added(s2, Name, Success, DoneText(t.count), env.clock), Returned)
  }

  // ------------------------------------------------------------ properties

  /** A snippet that already has an English summary is answered from it,
      whatever the chat endpoint would say. */
  lemma CachedNoCall(cfg: Settings, env1: Env, env2: Env, s: CodeSnippet)
    requires Truthy(s.ai_summary_en)
    ensures SummarizeSnippet(cfg, env1, s) == SummarizeSnippet(cfg, env2, s)
    ensures SummarizeSnippet(cfg, env1, s) == Some(map["en" := s.ai_summary_en, "vi" := s.ai_summary_vi])
  {
  }

  /** Without an API key only snippets with an English summary succeed. */
  lemma NoKeyOnlyCached(cfg: Settings, env: Env, s: CodeSnippet)
    requires !Truthy(cfg.openrouter_api_key)
    ensures SummarizeSnippet(cfg, env, s).Some? <==> Truthy(s.ai_summary_en)
  {
  }

  /** A reply laid out as requested is read back section by section. */
  lemma SummaryOfReply(cfg: Settings, env: Env, s: CodeSnippet, a: string, b: string)
    requires !Truthy(s.ai_summary_en) && Truthy(cfg.openrouter_api_key)
    requires '#' !in a && '#' !in b
    requires env.chat(SummaryRequest(s, RequestedSections(cfg.output_languages, SummaryEn, SummaryVi)))
             == Answer(Some(SummaryEn + a + SummaryVi + b))
    ensures SummarizeSnippet(cfg, env, s) == Some(map["en" := Some(Strip(a)), "vi" := Some(Strip(b))])
  {
    var req := SummaryRequest(s, RequestedSections(cfg.output_languages, SummaryEn, SummaryVi));
    var c := SummaryEn + a + SummaryVi + b;
    assert Ask(cfg, env, req) == Answer(Some(c));
    SummaryHeadings();
    ParseRequestedReply(SummaryEn, SummaryVi, a, b);
    assert ParseSections(c, SummaryEn, SummaryVi) == map["en" := Some(Strip(a)), "vi" := Some(Strip(b))];
  }

  /** Every result the stage keeps has an "en" entry. */
  lemma ResultHasEnglish(cfg: Settings, env: Env, s: CodeSnippet)
    ensures SummarizeSnippet(cfg, env, s).Some? ==> "en" in SummarizeSnippet(cfg, env, s).value
  {
  }

  /** The loop keeps every snippet in place and annotates exactly those
      with a result. */
  lemma {:induction false} SummarizedSnippets(cfg: Settings, env: Env, sn: seq<CodeSnippet>)
    ensures var t := Summarized(cfg, env, sn);
      && |t.snippets| == |sn| && t.count <= |sn|
      && forall i :: 0 <= i < |sn| ==> t.snippets[i] == Annotated(sn[i], SummarizeSnippet(cfg, env, sn[i]))
    decreases |sn|
  {
    if sn != [] {
      var pre := sn[..|sn| - 1];
      var last := sn[|sn| - 1];
      SummarizedSnippets(cfg, env, pre);
      var tp := Summarized(cfg, env, pre);
      var r := SummarizeSnippet(cfg, env, last);
      var t := Summarized(cfg, env, sn);
      assert t == Apply(tp, last, r);
      assert t.snippets == tp.snippets + [Annotated(last, r)] && t.count <= tp.count + 1;
      forall i | 0 <= i < |sn|
        ensures t.snippets[i] == Annotated(sn[i], SummarizeSnippet(cfg, env, sn[i]))
      {
        if i < |pre| {
          assert sn[i] == pre[i];
        }
      }
    }
  }

  /** An id is a key of `summaries` exactly when some snippet with that id
      got a result, and every entry has both language keys. */
  lemma {:induction false} SummarizedKeys(cfg: Settings, env: Env, sn: seq<CodeSnippet>, id: string)
    ensures var t := Summarized(cfg, env, sn);
      && (id in t.summaries <==>
            exists i :: 0 <= i < |sn| && sn[i].id == id && SummarizeSnippet(cfg, env, sn[i]).Some?)
      && (id in t.summaries ==> t.summaries[id].Keys == {"en", "vi"})
    decreases |sn|
  {
    if sn != [] {
      var pre := sn[..|sn| - 1];
      SummarizedKeys(cfg, env, pre, id);
      var t := Summarized(cfg, env, sn);
      if id in Summarized(cfg, env, pre).summaries {
        var i :| 0 <= i < |pre| && pre[i].id == id && SummarizeSnippet(cfg, env, pre[i]).Some?;
        assert sn[i] == pre[i];
      }
      if exists i :: 0 <= i < |sn| && sn[i].id == id && SummarizeSnippet(cfg, env, sn[i]).Some? {
        var i :| 0 <= i < |sn| && sn[i].id == id && SummarizeSnippet(cfg, env, sn[i]).Some?;
        if i < |pre| {
          assert pre[i] == sn[i];
        }
      }
    }
  }

  /** The stage always returns. With no snippets it only warns; otherwise
      it stores the annotated snippets and the summaries, and leaves every
      other field as it was. */
  lemma LogicResult(s: State, cfg: Settings, env: Env)
    ensures var step := Logic(s, cfg, env);
      && step.outcome == Returned
      && AppendsOnly(s, step.state, Name)
      && ((GetSnippets(s.fields).None? || GetSnippets(s.fields).value == []) ==>
            step.state.fields == s.fields
            && Msgs(step.state) == Msgs(s) + [AgentMessage(Name, Warning, NoSnippets, env.clock(|Msgs(s)|))])
      && ((GetSnippets(s.fields).Some? && GetSnippets(s.fields).value != []) ==>
            var t := Summarized(cfg, env, GetSnippets(s.fields).value);
            && step.state.fields == s.fields["snippets" := Snippets(t.snippets)]["summaries" := Summaries(t.summaries)]
            && Msgs(step.state)[|Msgs(step.state)| - 1] ==
                 AgentMessage(Name, Success, DoneText(t.count), env.clock(|Msgs(step.state)| - 1)))
  {
    var sn := GetSnippets(s.fields);
    if sn.Some? && sn.value != [] {
      var s1 := Added(s, Name, Info, StartText(|sn.value|), env.clock);
      var t := Summarized(cfg, env, sn.value);
      var s2 := Put(Put(s1, "snippets", Snippets(t.snippets)), "summaries", Summaries(t.summaries));
      AddedAppends(s, s, Name, Info, StartText(|sn.value|), env.clock);
      assert AppendsOnly(s, s2, Name);
      AddedAppends(s, s2, Name, Success, DoneText(t.count), env.clock);
    } else {
      AddedAppends(s, s, Name, Warning, NoSnippets, env.clock);
    }
  }

  /** `_execute` on the shared state. */
  method Run(st: WorkflowState, cfg: Settings, env: Env) returns (o: Outcome)
    modifies st
    ensures Step(st.Snapshot(), o) == Logic(old(st.Snapshot()), cfg, env)
  {
    var got := GetSnippets(st.fields);
    if got.None? || got.value == [] {
      st.AddMessage(Name, Warning, NoSnippets, env.clock);
      return Returned;
    }
    var sn := got.value;
    st.AddMessage(Name, Info, StartText(|sn|), env.clock);
    var t := SummarizeAll(cfg, env, sn);
    st.Set("snippets", Snippets(t.snippets));
    st.Set("summaries", Summaries(t.summaries));
    st.AddMessage(Name, Success, DoneText(t.count), env.clock);
    return Returned;
  }

  /** The loop over batches of ten: the result is the same as taking the
      snippets one by one. */
  method SummarizeAll(cfg: Settings, env: Env, sn: seq<CodeSnippet>) returns (t: Tally)
    ensures t == Summarized(cfg, env, sn)
  {
    t := Tally([], map[], 0);
    var i := 0;
    while i < |sn|
      invariant 0 <= i <= |sn|
      invariant t == Summarized(cfg, env, sn[..i])
      decreases |sn| - i
    {
      var hi := Min(i + BatchSize, |sn|);
      var batch := sn[i..hi];
      var results := SummarizeBatch(cfg, env, batch);
      forall k | 0 <= k < |results|
        ensures results[k] == SummarizeSnippet(cfg, env, sn[i + k])
      {
        assert batch[k] == sn[i + k];
      }
      assert BatchResults(cfg, env, sn, i, results);
      t := ApplyBatch(t, cfg, env, sn, i, hi, results);
      i := hi;
    }
    assert sn[..|sn|] == sn;
  }

  /** The loop over `zip(batch, batch_results)`. */
  method ApplyBatch(t0: Tally, cfg: Settings, env: Env, sn: seq<CodeSnippet>, lo: nat, hi: nat,
                    results: seq<Option<LangDict>>) returns (t: Tally)
    requires lo <= hi <= |sn| && |results| == hi - lo
    requires BatchResults(cfg, env, sn, lo, results)
    requires t0 == Summarized(cfg, env, sn[..lo])
    ensures t == Summarized(cfg, env, sn[..hi])
  {
    t := t0;
    var k := lo;
    while k < hi
      invariant lo <= k <= hi
      invariant t == Summarized(cfg, env, sn[..k])
      decreases hi - k
    {
      SummarizedPrefix(cfg, env, sn, lo, k, t, results);
      t := Apply(t, sn[k], results[k - lo]);
      k := k + 1;
    }
  }

  /** `results[k]` is the summary of snippet `lo + k`. */
  predicate BatchResults(cfg: Settings, env: Env, sn: seq<CodeSnippet>, lo: nat, results: seq<Option<LangDict>>)
  {
    lo + |results| <= |sn| &&
    forall k :: 0 <= k < |results| ==> results[k] == SummarizeSnippet(cfg, env, sn[lo + k])
  }

  /** One more snippet of the batch is one more `Apply` on the prefix. */
  lemma SummarizedPrefix(cfg: Settings, env: Env, sn: seq<CodeSnippet>, lo: nat, k: nat, t: Tally,
                         results: seq<Option<LangDict>>)
    requires lo <= k < lo + |results|
    requires BatchResults(cfg, env, sn, lo, results)
    requires t == Summarized(cfg, env, sn[..k])
    ensures k < |sn| && Apply(t, sn[k], results[k - lo]) == Summarized(cfg, env, sn[..k + 1])
  {
    assert results[k - lo] == SummarizeSnippet(cfg, env, sn[lo + (k - lo)]);
    assert sn[..k + 1][..k] == sn[..k];
    assert sn[..k + 1][k] == sn[k];
  }

  /** `asyncio.gather` over one batch: one result per snippet, in order. */
  method SummarizeBatch(cfg: Settings, env: Env, batch: seq<CodeSnippet>) returns (results: seq<Option<LangDict>>)
    ensures |results| == |batch|
    ensures forall k :: 0 <= k < |batch| ==> results[k] == SummarizeSnippet(cfg, env, batch[k])
  {
    results := [];
    for k := 0 to |batch|
      invariant |results| == k
      invariant forall j :: 0 <= j < k ==> results[j] == SummarizeSnippet(cfg, env, batch[j])
    {
      results := results + [SummarizeSnippet(cfg, env, batch[k])];
    }
  }
}
