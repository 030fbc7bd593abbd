/** The workflow (autodocai/orchestrator.py): nine stages chained in a fixed
    order, each run through the `execute` envelope on one shared state,
    starting from a seed that holds only the repository URL and the output
    directory. Afterwards a success notice goes out when the site was
    built; an exception from the run sends an error notice and is raised
    again. */
module Orchestrator {
  import opened Wrappers
  import opened Text
  import opened Schemas
  import opened Config
  import opened States
  import opened Base
  import opened Collaborators
  import opened Notifications
  import RepoClonerAgent
  import CodeParserAgent
  import SummarizerAgent
  import DocstringEnhancerAgent
  import RagQueryAgent
  import MermaidDiagramAgent
  import TranslationAgent
  import DocusaurusFormatterAgent
  import DocumentationBuilderAgent

  // ------------------------------------------------------------------ stages

  datatype Stage =
    | RepoCloner | CodeParser | Summarizer | DocstringEnhancer | RagQuery
    | DiagramGenerator | Translator | DocusaurusFormatter | DocumentationBuilder

  /** The stages in the order the graph's edges chain them. */
  const Pipeline: seq<Stage> := [RepoCloner, CodeParser, Summarizer, DocstringEnhancer, RagQuery,
                                 DiagramGenerator, Translator, DocusaurusFormatter, DocumentationBuilder]

  /** The name a stage's node is added under. */
  function NodeName(stage: Stage): string
  {
    match stage
    case RepoCloner => "repo_cloner"
    case CodeParser => "code_parser"
    case Summarizer => "summarizer"
    case DocstringEnhancer => "docstring_enhancer"
    case RagQuery => "rag_query"
    case DiagramGenerator => "diagram_generator"
    case Translator => "translator"
    case DocusaurusFormatter => "docusaurus_formatter"
    case DocumentationBuilder => "documentation_builder"
  }

  /** LangGraph's terminal node. */
  const End := "__end__"

  /** The class name each stage's agent signs its messages with. */
  function AgentName(stage: Stage): string
  {
    match stage
    case RepoCloner => RepoClonerAgent.Name
    case CodeParser => CodeParserAgent.Name
    case Summarizer => SummarizerAgent.Name
    case DocstringEnhancer => DocstringEnhancerAgent.Name
    case RagQuery => RagQueryAgent.Name
    case DiagramGenerator => MermaidDiagramAgent.Name
    case Translator => TranslationAgent.Name
    case DocusaurusFormatter => DocusaurusFormatterAgent.Name
    case DocumentationBuilder => DocumentationBuilderAgent.Name
  }

  /** The stage's own `_execute`. */
  function StageLogic(stage: Stage, cfg: Settings, env: Env, s: State): Step
  {
    match stage
    case RepoCloner => RepoClonerAgent.Logic(s, cfg, env)
    case CodeParser => CodeParserAgent.Logic(s, env)
    case Summarizer => SummarizerAgent.Logic(s, cfg, env)
    case DocstringEnhancer => DocstringEnhancerAgent.Logic(s, cfg, env)
    case RagQuery => RagQueryAgent.Logic(s, cfg, env)
    case DiagramGenerator => MermaidDiagramAgent.Logic(s, cfg, env)
    case Translator => TranslationAgent.Logic(s, cfg, env)
    case DocusaurusFormatter => DocusaurusFormatterAgent.Logic(s, cfg, env)
    case DocumentationBuilder => DocumentationBuilderAgent.Logic(s, env)
  }

  /** The stage's logic as the envelope receives it. */
  function StageFn(stage: Stage, cfg: Settings, env: Env): State -> Step
  {
    t => StageLogic(stage, cfg, env, t)
  }

  /** The stage's node: its agent's `execute`. */
  function RunStage(stage: Stage, cfg: Settings, env: Env, s: State): State
  {
    Envelope(AgentName(stage), s, StageFn(stage, cfg, env), env.clock)
  }

  /** The stages run one after the other, each on the state the one before
      left. */
  function RunStages(stages: seq<Stage>, cfg: Settings, env: Env, s: State): State
    decreases |stages|
  {
    if stages == [] then s
    else RunStage(stages[|stages| - 1], cfg, env, RunStages(stages[..|stages| - 1], cfg, env, s))
  }

  /** Every stage's logic only appends messages signed with its name. */
  lemma StageAppends(stage: Stage, cfg: Settings, env: Env, s: State)
    ensures AppendsOnly(s, StageLogic(stage, cfg, env, s).state, AgentName(stage))
  {
    match stage {
      case RepoCloner => RepoClonerAgent.LogicResult(s, cfg, env);
      case CodeParser => CodeParserAgent.LogicResult(s, env);
      case Summarizer => SummarizerAgent.LogicResult(s, cfg, env);
      case DocstringEnhancer => DocstringEnhancerAgent.LogicResult(s, cfg, env);
      case RagQuery => RagQueryAgent.LogicResult(s, cfg, env);
      case DiagramGenerator => MermaidDiagramAgent.LogicResult(s, cfg, env);
      case Translator => TranslationAgent.LogicResult(s, cfg, env);
      case DocusaurusFormatter => DocusaurusFormatterAgent.LogicResult(s, cfg, env);
      case DocumentationBuilder => DocumentationBuilderAgent.LogicResult(s, env);
    }
  }

  /** One stage adds at least its INFO and its closing message, begins with
      the INFO message, keeps what was there, and adds at most one error. */
  lemma StageGrows(stage: Stage, cfg: Settings, env: Env, s: State)
    ensures Grows(s, RunStage(stage, cfg, env, s), AgentName(stage), env.clock)
  {
    var e := Entered(s, AgentName(stage), env.clock);
    StageAppends(stage, cfg, env, e);
    assert StageFn(stage, cfg, env)(e) == StageLogic(stage, cfg, env, e);
    EnvelopeGrows(AgentName(stage), s, StageFn(stage, cfg, env), env.clock);
  }

  lemma ExtendsTrans(a: seq<AgentMessage>, b: seq<AgentMessage>, c: seq<AgentMessage>)
    requires Extends(a, b) && Extends(b, c)
    ensures Extends(a, c)
  {
    assert c[..|a|] == c[..|b|][..|a|];
  }

  /** `r` is `s` after `n` runs of `execute`: the earlier messages kept and
      two or more added per run, the earlier errors kept and at most one
      added per run. */
  predicate GrowsBy(s: State, r: State, n: nat)
  {
    && Extends(Msgs(s), Msgs(r)) && |Msgs(r)| >= |Msgs(s)| + 2 * n
    && |Errs(s)| <= |Errs(r)| <= |Errs(s)| + n && Errs(r)[..|Errs(s)|] == Errs(s)
  }

  lemma GrowsStep(s: State, mid: State, r: State, n: nat, name: string, clock: nat -> string)
    requires GrowsBy(s, mid, n) && Grows(mid, r, name, clock)
    ensures GrowsBy(s, r, n + 1)
  {
    ExtendsTrans(Msgs(s), Msgs(mid), Msgs(r));
    assert Errs(r)[..|Errs(s)|] == Errs(r)[..|Errs(mid)|][..|Errs(s)|];
  }

  /** The state after the last stage of a non-empty run is that stage's
      `execute` on the state the others left. */
  lemma RunStagesLast(stages: seq<Stage>, cfg: Settings, env: Env, s: State)
    requires stages != []
    ensures RunStages(stages, cfg, env, s) ==
      RunStage(stages[|stages| - 1], cfg, env, RunStages(stages[..|stages| - 1], cfg, env, s))
  {
  }

  lemma RunStagesSnoc(init: seq<Stage>, last: Stage, cfg: Settings, env: Env, s: State)
    ensures RunStages(init + [last], cfg, env, s) == RunStage(last, cfg, env, RunStages(init, cfg, env, s))
  {
    var t := init + [last];
    assert t[..|t| - 1] == init;
    RunStagesLast(t, cfg, env, s);
  }

  /** The first `i + 1` stages are the first `i` and then stage `i`. */
  lemma PrefixStep(stages: seq<Stage>, i: nat, cfg: Settings, env: Env, s: State)
    requires i < |stages|
    ensures stages[..i + 1] == stages[..i] + [stages[i]]
    ensures RunStages(stages[..i + 1], cfg, env, s) == RunStage(stages[i], cfg, env, RunStages(stages[..i], cfg, env, s))
  {
    assert stages[..i + 1] == stages[..i] + [stages[i]];
    RunStagesSnoc(stages[..i], stages[i], cfg, env, s);
  }

  /** A run of stages keeps the messages it started with, adds two or more
      per stage, keeps the errors it started with and adds at most one per
      stage. */
  lemma {:induction false} RunStagesGrow(stages: seq<Stage>, cfg: Settings, env: Env, s: State)
    ensures GrowsBy(s, RunStages(stages, cfg, env, s), |stages|)
    decreases |stages|
  {
    if stages == [] {
      assert Msgs(s)[..|Msgs(s)|] == Msgs(s);
      assert Errs(s)[..|Errs(s)|] == Errs(s);
    } else {
      var init := stages[..|stages| - 1];
      var last := stages[|stages| - 1];
      var mid := RunStages(init, cfg, env, s);
      RunStagesGrow(init, cfg, env, s);
      StageGrows(last, cfg, env, mid);
      RunStagesLast(stages, cfg, env, s);
      GrowsStep(s, mid, RunStages(stages, cfg, env, s), |init|, AgentName(last), env.clock);
    }
  }

  /** The state after the first `k` stages is where the later ones start. */
  lemma {:induction false} PrefixExtends(stages: seq<Stage>, k: nat, cfg: Settings, env: Env, s: State)
    requires k <= |stages|
    ensures Extends(Msgs(RunStages(stages[..k], cfg, env, s)), Msgs(RunStages(stages, cfg, env, s)))
    decreases |stages|
  {
    if k < |stages| {
      var init := stages[..|stages| - 1];
      assert init[..k] == stages[..k];
      PrefixExtends(init, k, cfg, env, s);
      StageGrows(stages[|stages| - 1], cfg, env, RunStages(init, cfg, env, s));
      ExtendsTrans(Msgs(RunStages(stages[..k], cfg, env, s)), Msgs(RunStages(init, cfg, env, s)),
                   Msgs(RunStages(stages, cfg, env, s)));
    } else {
      assert stages[..k] == stages;
    }
  }

  /** Each stage's `execute` ran, in chain order: the message right after
      those of the stages before it is its INFO "started processing". */
  lemma EachStageStarts(stages: seq<Stage>, i: nat, cfg: Settings, env: Env, s: State)
    requires i < |stages|
    ensures var before := RunStages(stages[..i], cfg, env, s); var r := RunStages(stages, cfg, env, s);
      && |Msgs(before)| < |Msgs(r)|
      && Msgs(r)[|Msgs(before)|] ==
           AgentMessage(AgentName(stages[i]), Info, StartedText(AgentName(stages[i])), env.clock(|Msgs(before)|))
  {
    var before := RunStages(stages[..i], cfg, env, s);
    assert stages[..i + 1][..i] == stages[..i];
    assert RunStages(stages[..i + 1], cfg, env, s) == RunStage(stages[i], cfg, env, before);
    StageGrows(stages[i], cfg, env, before);
    PrefixExtends(stages, i + 1, cfg, env, s);
  }

  // ------------------------------------------------------------------ graph

  /** The node names, in order. */
  function NodeNames(stages: seq<Stage>): (r: seq<string>)
    ensures |r| == |stages| && forall i :: 0 <= i < |stages| ==> r[i] == NodeName(stages[i])
  {
    seq(|stages|, i requires 0 <= i < |stages| => NodeName(stages[i]))
  }

  /** Where the chain goes after its `i`-th node. */
  function Next(names: seq<string>, i: nat): string
  {
    if i + 1 < |names| then names[i + 1] else End
  }

  /** The edges of a chain through the named nodes, ending at END. */
  function ChainEdges(names: seq<string>): (r: seq<(string, string)>)
    ensures |r| == |names| && forall i :: 0 <= i < |names| ==> r[i] == (names[i], Next(names, i))
  {
    seq(|names|, i requires 0 <= i < |names| => (names[i], Next(names, i)))
  }

  /** The targets of the edges leaving `n`, in the order they were added. */
  function Successors(edges: seq<(string, string)>, n: string): seq<string>
  {
    if edges == [] then []
    else (if edges[0].0 == n then [edges[0].1] else []) + Successors(edges[1..], n)
  }

  /** No two nodes share a name, and none is called END. */
  predicate DistinctNames(names: seq<string>)
  {
    (forall i, j :: 0 <= i < j < |names| ==> names[i] != names[j]) && End !in names
  }

  lemma {:induction false} NoSuccessors(edges: seq<(string, string)>, n: string)
    requires forall k :: 0 <= k < |edges| ==> edges[k].0 != n
    ensures Successors(edges, n) == []
    decreases |edges|
  {
    if edges != [] {
      NoSuccessors(edges[1..], n);
    }
  }

  /** In a chain of distinct nodes every node has exactly one outgoing
      edge: to the next node, or to END for the last. */
  lemma {:induction false} ChainSuccessors(names: seq<string>, i: nat)
    requires DistinctNames(names) && i < |names|
    ensures Successors(ChainEdges(names), names[i]) == [Next(names, i)]
    decreases |names|
  {
    var edges := ChainEdges(names);
    var rest := names[1..];
    assert DistinctNames(rest) by {
      forall a, b | 0 <= a < b < |rest| ensures rest[a] != rest[b] {
        assert rest[a] == names[a + 1] && rest[b] == names[b + 1];
      }
      assert forall k :: 0 <= k < |rest| ==> rest[k] == names[k + 1];
    }
    if i == 0 {
      forall k | 0 <= k < |edges[1..]| ensures edges[1..][k].0 != names[0] {
        assert edges[1..][k].0 == names[k + 1];
      }
      NoSuccessors(edges[1..], names[0]);
    } else {
      assert edges[1..] == ChainEdges(rest);
      assert edges[0].0 == names[0] != names[i];
      assert rest[i - 1] == names[i];
      ChainSuccessors(rest, i - 1);
      if i + 1 < |names| {
        assert rest[i] == names[i + 1];
      }
    }
  }

  /** Distinct stages have distinct node names. */
  lemma NodeNameInjective(a: Stage, b: Stage)
    requires a != b
    ensures NodeName(a) != NodeName(b)
  {
    if |NodeName(a)| == |NodeName(b)| {
      assert NodeName(a)[0] != NodeName(b)[0];
    }
  }

  /** The nine node names are distinct, so the workflow's graph is a linear
      chain from repo_cloner to documentation_builder and then END. */
  lemma PipelineIsChain()
    ensures |Pipeline| == 9 && Pipeline[0] == RepoCloner && Pipeline[8] == DocumentationBuilder
    ensures DistinctNames(NodeNames(Pipeline))
    ensures forall i :: 0 <= i < |Pipeline| ==>
      Successors(ChainEdges(NodeNames(Pipeline)), NodeName(Pipeline[i])) ==
        [if i + 1 < |Pipeline| then NodeName(Pipeline[i + 1]) else End]
  {
    var names := NodeNames(Pipeline);
    forall i, j | 0 <= i < j < |names| ensures names[i] != names[j] {
      assert Pipeline[i] != Pipeline[j];
      NodeNameInjective(Pipeline[i], Pipeline[j]);
    }
    forall i | 0 <= i < |names| ensures names[i] != End {
      assert names[i][0] != '_';
    }
    forall i | 0 <= i < |Pipeline|
      ensures Successors(ChainEdges(names), NodeName(Pipeline[i])) ==
        [if i + 1 < |Pipeline| then NodeName(Pipeline[i + 1]) else End]
    {
      ChainSuccessors(names, i);
    }
  }

  /** The `StateGraph` under construction: its nodes and edges in the order
      they were added. */
  class Graph {
    var nodes: seq<string>
    var edges: seq<(string, string)>

    constructor ()
      ensures nodes == [] && edges == []
    {
      nodes := [];
      edges := [];
    }

    method AddNode(name: string)
      modifies this
      ensures nodes == old(nodes) + [name] && edges == old(edges)
    {
      nodes := nodes + [name];
    }

    method AddEdge(source: string, target: string)
      modifies this
      ensures edges == old(edges) + [(source, target)] && nodes == old(nodes)
    {
      edges := edges + [(source, target)];
    }
  }

  /** `create_workflow`: the graph of the nine nodes and their chain, and the
      RAG agent, the one stage whose agent object keeps state of its own. */
  method CreateWorkflow() returns (g: Graph, rag: RagQueryAgent.Agent)
    ensures fresh(g) && fresh(rag)
    ensures g.nodes == NodeNames(Pipeline) && g.edges == ChainEdges(NodeNames(Pipeline))
    ensures rag.client.None? && rag.collection.None?
  {
    rag := new RagQueryAgent.Agent();
    g := new Graph();
    AddPipelineNodes(g);
    AddChainEdges(g, NodeNames(Pipeline));
  }

  /** The nine `add_node` calls, one per stage of `Pipeline` in order. */
  method AddPipelineNodes(g: Graph)
    modifies g
    ensures g.nodes == old(g.nodes) + NodeNames(Pipeline) && g.edges == old(g.edges)
  {
    var names := NodeNames(Pipeline);
    ghost var o := g.nodes;
    assert g.nodes == o + names[..0];
    g.AddNode(names[0]);
    Appended(o, names, 0);
    assert g.nodes == o + names[..1];
    g.AddNode(names[1]);
    Appended(o, names, 1);
    assert g.nodes == o + names[..2];
    g.AddNode(names[2]);
    Appended(o, names, 2);
    assert g.nodes == o + names[..3];
    g.AddNode(names[3]);
    Appended(o, names, 3);
    assert g.nodes == o + names[..4];
    g.AddNode(names[4]);
    Appended(o, names, 4);
    assert g.nodes == o + names[..5];
    g.AddNode(names[5]);
    Appended(o, names, 5);
    assert g.nodes == o + names[..6];
    g.AddNode(names[6]);
    Appended(o, names, 6);
    assert g.nodes == o + names[..7];
    g.AddNode(names[7]);
    Appended(o, names, 7);
    assert g.nodes == o + names[..8];
    g.AddNode(names[8]);
    Appended(o, names, 8);
    assert g.nodes == o + names[..9];
    assert names[..9] == names;
  }

  /** The nine `add_edge` calls: each node to the next, the last to END. */
  method AddChainEdges(g: Graph, names: seq<string>)
    requires |names| == 9
    modifies g
    ensures g.edges == old(g.edges) + ChainEdges(names) && g.nodes == old(g.nodes)
  {
    ghost var edges := ChainEdges(names);
    ghost var o := g.edges;
    assert g.edges == o + edges[..0];
    g.AddEdge(names[0], names[1]);
    assert edges[0] == (names[0], Next(names, 0));
    Appended(o, edges, 0);
    assert g.edges == o + edges[..1];
    g.AddEdge(names[1], names[2]);
    assert edges[1] == (names[1], Next(names, 1));
    Appended(o, edges, 1);
    assert g.edges == o + edges[..2];
    g.AddEdge(names[2], names[3]);
    assert edges[2] == (names[2], Next(names, 2));
    Appended(o, edges, 2);
    assert g.edges == o + edges[..3];
    g.AddEdge(names[3], names[4]);
    assert edges[3] == (names[3], Next(names, 3));
    Appended(o, edges, 3);
    assert g.edges == o + edges[..4];
    g.AddEdge(names[4], names[5]);
    assert edges[4] == (names[4], Next(names, 4));
    Appended(o, edges, 4);
    assert g.edges == o + edges[..5];
    g.AddEdge(names[5], names[6]);
    assert edges[5] == (names[5], Next(names, 5));
    Appended(o, edges, 5);
    assert g.edges == o + edges[..6];
    g.AddEdge(names[6], names[7]);
    assert edges[6] == (names[6], Next(names, 6));
    Appended(o, edges, 6);
    assert g.edges == o + edges[..7];
    g.AddEdge(names[7], names[8]);
    assert edges[7] == (names[7], Next(names, 7));
    Appended(o, edges, 7);
    assert g.edges == o + edges[..8];
    g.AddEdge(names[8], End);
    assert edges[8] == (names[8], Next(names, 8));
    Appended(o, edges, 8);
    assert g.edges == o + edges[..9];
    assert edges[..9] == edges;
  }

  /** Appending the next element of `a` extends the prefix of `a` by one. */
  lemma Appended<T>(o: seq<T>, a: seq<T>, k: nat)
    requires k < |a|
    ensures o + a[..k] + [a[k]] == o + a[..k + 1]
  {
    assert a[..k + 1] == a[..k] + [a[k]];
  }

  /** The nodes and edges `create_workflow` adds, one by one. */
  lemma PipelineGraph()
    ensures NodeNames(Pipeline) ==
      [NodeName(RepoCloner), NodeName(CodeParser), NodeName(Summarizer), NodeName(DocstringEnhancer),
       NodeName(RagQuery), NodeName(DiagramGenerator), NodeName(Translator), NodeName(DocusaurusFormatter),
       NodeName(DocumentationBuilder)]
    ensures ChainEdges(NodeNames(Pipeline)) ==
      [(NodeName(RepoCloner), NodeName(CodeParser)), (NodeName(CodeParser), NodeName(Summarizer)),
       (NodeName(Summarizer), NodeName(DocstringEnhancer)), (NodeName(DocstringEnhancer), NodeName(RagQuery)),
       (NodeName(RagQuery), NodeName(DiagramGenerator)), (NodeName(DiagramGenerator), NodeName(Translator)),
       (NodeName(Translator), NodeName(DocusaurusFormatter)),
       (NodeName(DocusaurusFormatter), NodeName(DocumentationBuilder)), (NodeName(DocumentationBuilder), End)]
  {
  }

  // ------------------------------------------------------------------ seed

  /** The fields the seed state leaves None. */
  const UnsetFields: set<string> := {"repo_info", "snippets", "summaries", "enhanced_snippets", "diagrams",
                                     "rag_results", "docs_path", "build_result", "build_path"}

  /** `WorkflowState(repo_url=..., output_dir=...)` */
  function Seed(repoUrl: string, outputDir: string): State
  {
    State(map["repo_url" := Str(repoUrl), "output_dir" := Str(outputDir),
              "repo_info" := Nil, "snippets" := Nil, "summaries" := Nil, "enhanced_snippets" := Nil,
              "diagrams" := Nil, "rag_results" := Nil, "docs_path" := Nil, "build_result" := Nil,
              "build_path" := Nil, "current_stage" := Str("start")],
          Some([]), Some([]))
  }

  /** The seed holds the two inputs and the "start" stage, empty message and
      error lists, and None everywhere else. */
  lemma SeedShape(repoUrl: string, outputDir: string)
    ensures var s := Seed(repoUrl, outputDir);
      && s.fields.Keys == UnsetFields + {"repo_url", "output_dir", "current_stage"}
      && (forall k :: k in UnsetFields ==> s.fields[k] == Nil)
      && GetStr(s.fields, "repo_url") == Some(repoUrl) && GetStr(s.fields, "output_dir") == Some(outputDir)
      && GetStr(s.fields, "current_stage") == Some("start")
      && s.messages == Some([]) && s.errors == Some([])
      && GetRepoInfo(s.fields).None? && !HasItems(GetSnippets(s.fields))
  {
  }

  // ------------------------------------------------------------------ stats

  /** `sum(1 for s in snippets if s.get("symbol_type") == t)` */
  function CountType(sns: seq<CodeSnippet>, t: string): (n: nat)
    ensures n <= |sns|
  {
    if sns == [] then 0
    else CountType(sns[..|sns| - 1], t) + (if sns[|sns| - 1].symbol_type == t then 1 else 0)
  }

  lemma {:induction false} CountTypeAppend(a: seq<CodeSnippet>, b: seq<CodeSnippet>, t: string)
    ensures CountType(a + b, t) == CountType(a, t) + CountType(b, t)
    decreases |b|
  {
    if b == [] {
      assert a + b == a;
    } else {
      assert (a + b)[..|a + b| - 1] == a + b[..|b| - 1];
      CountTypeAppend(a, b[..|b| - 1], t);
    }
  }

  /** No snippet is both a function and a class. */
  lemma {:induction false} CountTypesDisjoint(sns: seq<CodeSnippet>)
    ensures CountType(sns, "function") + CountType(sns, "class") <= |sns|
    decreases |sns|
  {
    if sns != [] {
      CountTypesDisjoint(sns[..|sns| - 1]);
    }
  }

  /** The snippets the statistics count: none unless the field holds some. */
  function CountedSnippets(f: Fields): seq<CodeSnippet>
  {
    if HasItems(GetSnippets(f)) then GetSnippets(f).value else []
  }

  /** The `stats` dict of `run_workflow`. */
  function RunStats(f: Fields): map<string, int>
  {
    var sns := CountedSnippets(f);
    var d := GetDiagrams(f);
    map["files_processed" := |sns|,
        "functions_documented" := CountType(sns, "function"),
        "classes_documented" := CountType(sns, "class"),
        "diagrams_generated" := if d.Some? then |d.value| else 0]
  }

  /** The four statistics are all there: the counts of snippets, of function
      and of class snippets, and of diagrams, each 0 when the field is None,
      and the two kinds together never exceed the snippets. */
  lemma RunStatsShape(f: Fields)
    ensures var r := RunStats(f);
      && r.Keys == Stats4
      && (GetSnippets(f).None? ==> r["files_processed"] == 0 && r["functions_documented"] == 0
                                   && r["classes_documented"] == 0)
      && (HasItems(GetSnippets(f)) ==> r["files_processed"] == |GetSnippets(f).value|)
      && (GetDiagrams(f).None? ==> r["diagrams_generated"] == 0)
      && 0 <= r["functions_documented"] + r["classes_documented"] <= r["files_processed"]
  {
    CountTypesDisjoint(CountedSnippets(f));
  }

  // ------------------------------------------------------------------ run

  /** A notice the run asks the notification service to send. */
  datatype Notice =
    | SuccessNotice(repoUrl: string, docsPath: string, stats: map<string, int>)
    | ErrorNotice(repoUrl: string, message: string, stage: Option<string>)

  /** Whether the service sent a notice. */
  function Delivered(svc: NotificationService, env: Env, n: Notice): bool
  {
    match n
    case SuccessNotice(u, p, stats) => SendSuccessNotification(svc, env, u, p, stats)
    case ErrorNotice(u, m, stage) => SendErrorNotification(svc, env, u, m, stage)
  }

  /** How `run_workflow` ended: the final state, or the exception it raised
      again. */
  datatype RunResult = Completed(result: State) | Reraised(error: string)

  datatype WorkflowRun = WorkflowRun(result: RunResult, notices: seq<Notice>)

  /** `run_workflow`; the graph runtime's own failure, if any, is
      `env.runtimeFailure`. */
  function Workflow(cfg: Settings, env: Env, repoUrl: string, outputDir: string): WorkflowRun
  {
    var seed := Seed(repoUrl, outputDir);
    match env.runtimeFailure
    case Some(e) => WorkflowRun(Reraised(e), [ErrorNotice(repoUrl, e, GetStr(seed.fields, "current_stage"))])
    case None =>
      var final := RunStages(Pipeline, cfg, env, seed);
      var bp := GetStr(final.fields, "build_path");
      WorkflowRun(Completed(final), if Truthy(bp) then [SuccessNotice(repoUrl, bp.value, RunStats(final.fields))] else [])
  }

  /** At most one notice per run. A completed run sends the success notice
      exactly when the final `build_path` is truthy, for that path and the
      final statistics. A failed run sends one error notice naming the
      seed's stage, "start", and raises the same error again. */
  lemma WorkflowNotices(cfg: Settings, env: Env, repoUrl: string, outputDir: string)
    ensures var run := Workflow(cfg, env, repoUrl, outputDir);
      && |run.notices| <= 1
      && (run.result.Reraised? <==> env.runtimeFailure.Some?)
      && (run.result.Reraised? ==>
            run.result.error == env.runtimeFailure.value
            && run.notices == [ErrorNotice(repoUrl, env.runtimeFailure.value, Some("start"))])
      && (run.result.Completed? ==>
            var f := run.result.result.fields; var bp := GetStr(f, "build_path");
            && run.result.result == RunStages(Pipeline, cfg, env, Seed(repoUrl, outputDir))
            && (run.notices != [] <==> Truthy(bp))
            && (run.notices != [] ==> run.notices == [SuccessNotice(repoUrl, bp.value, RunStats(f))]))
  {
  }

  /** A completed run's `build_path` is the one the builder stage produced:
      the `build` directory of `docs_path` when the build succeeded, and
      otherwise whatever the state held before the builder ran. */
  lemma WorkflowBuildPath(cfg: Settings, env: Env, repoUrl: string, outputDir: string)
    ensures var before := RunStages(Pipeline[..8], cfg, env, Seed(repoUrl, outputDir));
            var final := RunStages(Pipeline, cfg, env, Seed(repoUrl, outputDir));
            var dp := GetStr(before.fields, "docs_path");
      && final == RunStage(DocumentationBuilder, cfg, env, before)
      && (Truthy(dp) && DocumentationBuilderAgent.Installed(env, dp.value)
          && DocumentationBuilderAgent.BuildDir(env, dp.value).Some? ==>
            GetStr(final.fields, "build_path") == Some(PathJoin(dp.value, "build")))
      && (!(Truthy(dp) && DocumentationBuilderAgent.Installed(env, dp.value)
            && DocumentationBuilderAgent.BuildDir(env, dp.value).Some?) ==>
            final.fields == before.fields)
  {
    var seed := Seed(repoUrl, outputDir);
    assert Pipeline[..|Pipeline| - 1] == Pipeline[..8];
    RunStagesLast(Pipeline, cfg, env, seed);
    BuilderStage(cfg, env, RunStages(Pipeline[..8], cfg, env, seed));
  }

  /** The builder node sets `build_path` to the `build` directory of
      `docs_path` when the build succeeds, and otherwise writes nothing. */
  lemma BuilderStage(cfg: Settings, env: Env, s: State)
    ensures var r := RunStage(DocumentationBuilder, cfg, env, s); var dp := GetStr(s.fields, "docs_path");
      && (Truthy(dp) && DocumentationBuilderAgent.Installed(env, dp.value)
          && DocumentationBuilderAgent.BuildDir(env, dp.value).Some? ==>
            GetStr(r.fields, "build_path") == Some(PathJoin(dp.value, "build")))
      && (!(Truthy(dp) && DocumentationBuilderAgent.Installed(env, dp.value)
            && DocumentationBuilderAgent.BuildDir(env, dp.value).Some?) ==>
            r.fields == s.fields)
  {
    var e := Entered(s, DocumentationBuilderAgent.Name, env.clock);
    assert e.fields == s.fields;
    DocumentationBuilderAgent.LogicResult(e, env);
    var step := DocumentationBuilderAgent.Logic(e, env);
    assert StageFn(DocumentationBuilder, cfg, env)(e) == step;
    assert RunStage(DocumentationBuilder, cfg, env, s).fields == step.state.fields;
  }

  /** A completed run records at most one error per stage, and every stage
      leaves at least its two envelope messages. */
  lemma WorkflowLog(cfg: Settings, env: Env, repoUrl: string, outputDir: string)
    ensures var final := RunStages(Pipeline, cfg, env, Seed(repoUrl, outputDir));
      && |Errs(final)| <= 9 && |Msgs(final)| >= 18
      && forall i :: 0 <= i < 9 ==>
           var before := RunStages(Pipeline[..i], cfg, env, Seed(repoUrl, outputDir));
           |Msgs(before)| < |Msgs(final)| && Msgs(final)[|Msgs(before)|].content == StartedText(AgentName(Pipeline[i]))
  {
    RunStagesGrow(Pipeline, cfg, env, Seed(repoUrl, outputDir));
    forall i | 0 <= i < 9
      ensures var before := RunStages(Pipeline[..i], cfg, env, Seed(repoUrl, outputDir));
        |Msgs(before)| < |Msgs(RunStages(Pipeline, cfg, env, Seed(repoUrl, outputDir)))|
        && Msgs(RunStages(Pipeline, cfg, env, Seed(repoUrl, outputDir)))[|Msgs(before)|].content
           == StartedText(AgentName(Pipeline[i]))
    {
      EachStageStarts(Pipeline, i, cfg, env, Seed(repoUrl, outputDir));
    }
  }

  // ------------------------------------------------------------------ execution

  /** One node: the agent's `execute` on the shared state. */
  method ExecuteStage(st: WorkflowState, stage: Stage, cfg: Settings, env: Env, rag: RagQueryAgent.Agent)
    modifies st, rag
    ensures st.Snapshot() == RunStage(stage, cfg, env, old(st.Snapshot()))
  {
    var name := AgentName(stage);
    ghost var entered := Entered(st.Snapshot(), name, env.clock);
    Enter(st, name, env.clock);
    var o: Outcome;
    match stage {
      case RepoCloner => o := RepoClonerAgent.Run(st, cfg, env);
      case CodeParser => o := CodeParserAgent.Run(st, env);
      case Summarizer => o := SummarizerAgent.Run(st, cfg, env);
      case DocstringEnhancer => var generated; o, generated := DocstringEnhancerAgent.Run(st, cfg, env);
      case RagQuery => o := rag.Run(st, cfg, env);
      case DiagramGenerator => o := MermaidDiagramAgent.Run(st, cfg, env);
      case Translator => o := TranslationAgent.Run(st, cfg, env);
      case DocusaurusFormatter => o := DocusaurusFormatterAgent.Run(st, cfg, env);
      case DocumentationBuilder => o := DocumentationBuilderAgent.Run(st, env);
    }
    assert Step(st.Snapshot(), o) == StageLogic(stage, cfg, env, entered);
    Leave(st, name, o, env.clock);
  }

  /** `app.ainvoke(state)`: every stage's `execute` once, in chain order. */
  method RunPipeline(st: WorkflowState, cfg: Settings, env: Env, rag: RagQueryAgent.Agent) returns (invoked: seq<Stage>)
    modifies st, rag
    ensures invoked == Pipeline
    ensures st.Snapshot() == RunStages(Pipeline, cfg, env, old(st.Snapshot()))
  {
    ghost var s0 := st.Snapshot();
    invoked := [];
    for i := 0 to |Pipeline|
      invariant invoked == Pipeline[..i]
      invariant st.Snapshot() == RunStages(Pipeline[..i], cfg, env, s0)
    {
      ExecuteStage(st, Pipeline[i], cfg, env, rag);
      PrefixStep(Pipeline, i, cfg, env, s0);
      invoked := invoked + [Pipeline[i]];
    }
    assert Pipeline[..|Pipeline|] == Pipeline;
  }

  /** `run_workflow` with the RAG agent `create_workflow` made. */
  method RunWorkflow(rag: RagQueryAgent.Agent, cfg: Settings, env: Env, repoUrl: string, outputDir: string)
    returns (run: WorkflowRun)
    modifies rag
    ensures run == Workflow(cfg, env, repoUrl, outputDir)
  {
    var seed := Seed(repoUrl, outputDir);
    if env.runtimeFailure.Some? {
      var stage := GetStr(seed.fields, "current_stage");
      return WorkflowRun(Reraised(env.runtimeFailure.value), [ErrorNotice(repoUrl, env.runtimeFailure.value, stage)]);
    }
    var st := new WorkflowState(seed);
    var invoked := RunPipeline(st, cfg, env, rag);
    var result := st.Snapshot();
    var buildPath := GetStr(result.fields, "build_path");
    var notices := [];
    if Truthy(buildPath) {
      notices := [SuccessNotice(repoUrl, buildPath.value, RunStats(result.fields))];
    }
    run := WorkflowRun(Completed(result), notices);
  }
}
