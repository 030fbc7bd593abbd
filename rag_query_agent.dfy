/** `RAGQueryAgent` (autodocai/agents/rag_query_agent.py): indexes every
    snippet in a Qdrant collection, ten at a time, then asks the model for
    an architectural overview of the repository and for an explanation of
    each module, and stores both with the collection's name. The agent
    object keeps the client and the collection name, which `query` needs. */
module RagQueryAgent {
  import opened Wrappers
  import opened Text
  import opened Schemas
  import opened Config
  import opened States
  import opened Base
  import opened Batching
  import opened Sections
  import opened Collaborators

  const Name := "RAGQueryAgent"
  const BatchSize := 10
  const PromptFilesPerModule := 5
  const NoSnippets := "No code snippets to index"
  const DoneText := "Completed RAG indexing and generation"
  const InitFailed := "Failed to initialize Qdrant: "
  const NoQdrantUrl := "Qdrant URL is not configured"
  const CreateFailed := "Failed to create Qdrant collection: "
  const IndexFailed := "Failed to index snippets in Qdrant: "
  const OverviewEn := "## OVERVIEW_EN"
  const OverviewVi := "## OVERVIEW_VI"
  const OverviewFailed := "Failed to generate architectural overview."
  const ExplanationEn := "## EXPLANATION_EN"
  const ExplanationVi := "## EXPLANATION_VI"
  const ExplanationFailed := "Failed to generate explanation."

  function StartText(n: nat): string
  {
    "Starting indexing of " + NatToString(n) + " code snippets"
  }

  // ------------------------------------------------ _prepare_snippet_for_embedding

  /** The text that is embedded for a snippet: its file, type and name,
      its docstring when it has one, its code, and its English summary
      when it has one, each closed by a newline. */
  function EmbeddingText(sn: CodeSnippet): (r: string)
  {
    "File: " + sn.file_path + "\n" + ("Type: " + sn.symbol_type + "\n" + ("Name: " + Shown(sn.symbol_name) + "\n" + EmbeddingBody(sn)))
  }

  /** Everything after the `Name:` line. */
  function EmbeddingBody(sn: CodeSnippet): (r: string)
  {
    (if Truthy(sn.original_docstring) then "Documentation: " + sn.original_docstring.value + "\n" else "")
    + ("Code:\n" + sn.text_content + "\n" + SummaryLine(sn))
  }

  function SummaryLine(sn: CodeSnippet): string
  {
    if Truthy(sn.ai_summary_en) then "Summary: " + sn.ai_summary_en.value + "\n" else ""
  }

  /** For a snippet whose path, type and name are single lines, the first
      three lines of the text are `File:`, `Type:` and `Name:`. */
  lemma EmbeddingTextHeader(sn: CodeSnippet)
    requires '\n' !in sn.file_path && '\n' !in sn.symbol_type && '\n' !in Shown(sn.symbol_name)
    ensures var lines := Split(EmbeddingText(sn), "\n");
      && |lines| > 3
      && lines[..3] == ["File: " + sn.file_path, "Type: " + sn.symbol_type, "Name: " + Shown(sn.symbol_name)]
  {
    var a := "File: " + sn.file_path;
    var b := "Type: " + sn.symbol_type;
    var c := "Name: " + Shown(sn.symbol_name);
    var rest := EmbeddingBody(sn);
    assert '\n' !in a && '\n' !in b && '\n' !in c;
    SplitLine(a, b + "\n" + (c + "\n" + rest));
    SplitLine(b, c + "\n" + rest);
    SplitLine(c, rest);
  }

  /** The text ends with a newline: its last line is closed too. */
  lemma EmbeddingTextClosed(sn: CodeSnippet)
    ensures EndsWith(EmbeddingText(sn), "\n")
  {
    var code := "Code:\n" + sn.text_content + "\n";
    NewlineKept(code[..|code| - 1], "\n");
    assert code[..|code| - 1] + "\n" == code;
    if Truthy(sn.ai_summary_en) {
      var line := "Summary: " + sn.ai_summary_en.value;
      NewlineKept(line, "\n");
      assert line + "\n" == SummaryLine(sn);
      NewlineKept(code, SummaryLine(sn));
    } else {
      assert code + SummaryLine(sn) == code;
    }
    var tail := code + SummaryLine(sn);
    var doc := if Truthy(sn.original_docstring) then "Documentation: " + sn.original_docstring.value + "\n" else "";
    NewlineKept(doc, tail);
    var name := "Name: " + Shown(sn.symbol_name) + "\n";
    NewlineKept(name, EmbeddingBody(sn));
    var ty := "Type: " + sn.symbol_type + "\n";
    NewlineKept(ty, name + EmbeddingBody(sn));
    NewlineKept("File: " + sn.file_path + "\n", ty + (name + EmbeddingBody(sn)));
  }

  /** Text that ends with a newline still does after anything is put in front. */
  lemma NewlineKept(x: string, y: string)
    requires EndsWith(y, "\n")
    ensures EndsWith(x + y, "\n")
  {
    assert (x + y)[|x + y| - 1..] == y[|y| - 1..];
  }

  /** A line without a newline is the first piece of the split. */
  lemma SplitLine(a: string, rest: string)
    requires '\n' !in a
    ensures Split(a + "\n" + rest, "\n") == [a] + Split(rest, "\n")
  {
    FindAfterPrefix(a, '\n', rest);
    assert (a + "\n" + rest)[..|a|] == a;
    assert (a + "\n" + rest)[|a| + 1..] == rest;
  }

  // ------------------------------------------------------------ _index_snippets

  /** One point per snippet of a batch, in order; the payload is the snippet. */
  function PointsOf(batch: seq<CodeSnippet>): (r: seq<Point>)
    ensures |r| == |batch|
    ensures forall i :: 0 <= i < |batch| ==> r[i].payload == batch[i] && r[i].text == EmbeddingText(batch[i])
  {
    seq(|batch|, i requires 0 <= i < |batch| => Point(EmbeddingText(batch[i]), batch[i]))
  }

  /** The upserts made so far and the error of the one that failed, if any. */
  datatype IndexRun = IndexRun(sent: seq<seq<Point>>, failure: Option<string>)

  /** The batch loop: each batch is upserted in turn and the first failure
      ends the loop. */
  function Indexed(env: Env, url: string, name: string, bs: seq<seq<CodeSnippet>>): IndexRun
    decreases |bs|
  {
    if bs == [] then IndexRun([], None)
    else
      var r := Indexed(env, url, name, bs[..|bs| - 1]);
      if r.failure.Some? then r
      else
        var points := PointsOf(bs[|bs| - 1]);
        IndexRun(r.sent + [points], env.upsert(url, name, points))
  }

  /** Without a failure every batch was upserted, as its own points. */
  lemma {:induction false} IndexedBatches(env: Env, url: string, name: string, bs: seq<seq<CodeSnippet>>)
    ensures var r := Indexed(env, url, name, bs);
      r.failure.None? ==> |r.sent| == |bs| && forall b :: 0 <= b < |bs| ==> r.sent[b] == PointsOf(bs[b])
    ensures var r := Indexed(env, url, name, bs);
      r.failure.Some? ==> 0 < |r.sent| <= |bs| && env.upsert(url, name, r.sent[|r.sent| - 1]) == r.failure
    decreases |bs|
  {
    if bs != [] {
      IndexedBatches(env, url, name, bs[..|bs| - 1]);
    }
  }

  /** Once an upsert failed, the later batches are not sent. */
  lemma {:induction false} IndexedSticks(env: Env, url: string, name: string, bs: seq<seq<CodeSnippet>>, i: nat)
    requires i <= |bs| && Indexed(env, url, name, bs[..i]).failure.Some?
    ensures Indexed(env, url, name, bs) == Indexed(env, url, name, bs[..i])
    decreases |bs| - i
  {
    if i < |bs| {
      assert bs[..i + 1][..i] == bs[..i];
      IndexedSticks(env, url, name, bs, i + 1);
    } else {
      assert bs[..i] == bs;
    }
  }

  /** One more batch: unless the loop had already failed, it is sent. */
  lemma IndexedNext(env: Env, url: string, name: string, bs: seq<seq<CodeSnippet>>, b: nat)
    requires b < |bs| && Indexed(env, url, name, bs[..b]).failure.None?
    ensures var r := Indexed(env, url, name, bs[..b]);
      Indexed(env, url, name, bs[..b + 1])
        == IndexRun(r.sent + [PointsOf(bs[b])], env.upsert(url, name, PointsOf(bs[b])))
  {
    assert bs[..b + 1][..b] == bs[..b];
  }

  /** The points of one batch, built one snippet at a time. */
  method EmbedBatch(batch: seq<CodeSnippet>) returns (points: seq<Point>)
    ensures points == PointsOf(batch)
  {
    points := [];
    for j := 0 to |batch|
      invariant |points| == j
      invariant forall m :: 0 <= m < j ==> points[m] == Point(EmbeddingText(batch[m]), batch[m])
    {
      points := points + [Point(EmbeddingText(batch[j]), batch[j])];
    }
  }

  lemma {:induction false} FlattenPoints(bs: seq<seq<CodeSnippet>>, sent: seq<seq<Point>>)
    requires |sent| == |bs| && forall b :: 0 <= b < |bs| ==> sent[b] == PointsOf(bs[b])
    ensures Flatten(sent) == PointsOf(Flatten(bs))
    decreases |bs|
  {
    if bs != [] {
      FlattenPoints(bs[1..], sent[1..]);
      assert PointsOf(bs[0] + Flatten(bs[1..])) == PointsOf(bs[0]) + PointsOf(Flatten(bs[1..]));
    }
  }

  /** A run with no failure indexes every snippet exactly once, in order,
      with the snippet (and so its id) as payload: the indexed total is the
      number of snippets. */
  lemma IndexedAll(env: Env, url: string, name: string, sns: seq<CodeSnippet>)
    ensures var r := Indexed(env, url, name, Chunks(sns, BatchSize));
      r.failure.None? ==>
        && Flatten(r.sent) == PointsOf(sns)
        && |Flatten(r.sent)| == |sns|
        && (forall i :: 0 <= i < |sns| ==> Flatten(r.sent)[i].payload.id == sns[i].id)
        && (forall b :: 0 <= b < |r.sent| ==> 0 < |r.sent[b]| <= BatchSize)
  {
    var bs := Chunks(sns, BatchSize);
    ChunksCover(sns, BatchSize);
    IndexedBatches(env, url, name, bs);
    var r := Indexed(env, url, name, bs);
    if r.failure.None? {
      FlattenPoints(bs, r.sent);
    }
  }

  // ------------------------------------------------- _create_collection

  /** The collection check: nothing to do when the name is listed, else the
      collection and its payload indexes are created. The error, if any. */
  function Provisioned(env: Env, url: string, name: string): (r: Option<string>)
    ensures env.collections(url).Ok? && name in env.collections(url).value ==> r.None?
    ensures env.collections(url).Err? ==> r == Some(env.collections(url).error)
  {
    match env.collections(url)
    case Err(e) => Some(e)
    case Ok(names) => if name in names then None else env.createCollection(url, name)
  }

  // ------------------------------------------------- module grouping

  /** A module snippet whose path has a directory part. */
  predicate Grouped(sn: CodeSnippet)
  {
    sn.symbol_type == "module" && |Split(sn.file_path, "/")| > 1
  }

  /** `"/".join(path.split("/")[:-1])` */
  function Dir(p: string): string
  {
    var parts := Split(p, "/");
    Join(parts[..|parts| - 1], "/")
  }

  /** A path has a directory part exactly when it holds a "/", and then
      the directory, a "/" and the base name give the path back. */
  lemma DirRoundTrip(p: string)
    ensures |Split(p, "/")| > 1 <==> '/' in p
    ensures '/' in p ==> Dir(p) + "/" + Basename(p) == p
  {
    if '/' in p {
      var k :| 0 <= k < |p| && p[k] == '/';
      assert p[k..k + 1] == "/";
      OccursAtContains(p, "/", k);
      var parts := Split(p, "/");
      var head := parts[..|parts| - 1];
      assert parts == head + [parts[|parts| - 1]];
      JoinSnoc(head, parts[|parts| - 1], "/");
      JoinSplit(p, "/");
    } else {
      CharNotContained(p, '/');
    }
  }

  lemma {:induction false} JoinSnoc(q: seq<string>, b: string, sep: string)
    requires |q| >= 1
    ensures Join(q + [b], sep) == Join(q, sep) + sep + b
    decreases |q|
  {
    if |q| == 1 {
      assert (q + [b])[1..] == [b];
    } else {
      assert (q + [b])[1..] == q[1..] + [b];
      JoinSnoc(q[1..], b, sep);
    }
  }

  /** The module snippets of one directory. */
  datatype Group = Group(dir: string, members: seq<CodeSnippet>)

  predicate HasDir(gs: seq<Group>, d: string)
  {
    exists i :: 0 <= i < |gs| && gs[i].dir == d
  }

  /** `module_info[d].append(sn)`, creating the list under a new key at the end. */
  function AddMember(gs: seq<Group>, d: string, sn: CodeSnippet): (r: seq<Group>)
    ensures |r| == |gs| + (if HasDir(gs, d) then 0 else 1)
    ensures forall i :: 0 <= i < |gs| ==>
      r[i] == (if gs[i].dir == d then Group(d, gs[i].members + [sn]) else gs[i])
    ensures !HasDir(gs, d) ==> r[|gs|] == Group(d, [sn])
  {
    var updated := seq(|gs|, i requires 0 <= i < |gs| =>
      if gs[i].dir == d then Group(d, gs[i].members + [sn]) else gs[i]);
    if HasDir(gs, d) then updated else updated + [Group(d, [sn])]
  }

  /** After adding a member, the directories with a group are those that
      had one and the member's own. */
  lemma AddMemberDirs(gs: seq<Group>, d: string, sn: CodeSnippet)
    ensures forall e :: HasDir(AddMember(gs, d, sn), e) <==> HasDir(gs, e) || e == d
  {
    var r := AddMember(gs, d, sn);
    forall e ensures HasDir(r, e) <==> HasDir(gs, e) || e == d {
      if HasDir(r, e) {
        var i :| 0 <= i < |r| && r[i].dir == e;
        if i < |gs| && e != d {
          assert gs[i].dir == e;
        }
      }
      if HasDir(gs, e) {
        var i :| 0 <= i < |gs| && gs[i].dir == e;
        assert r[i].dir == e;
      }
      if e == d && !HasDir(gs, d) {
        assert r[|gs|].dir == d;
      }
    }
  }

  /** `module_info`: the groups in the order their directories first
      appear. */
  function ModuleGroups(sns: seq<CodeSnippet>): seq<Group>
    decreases |sns|
  {
    if sns == [] then []
    else
      var gs := ModuleGroups(sns[..|sns| - 1]);
      var sn := sns[|sns| - 1];
      if Grouped(sn) then AddMember(gs, Dir(sn.file_path), sn) else gs
  }

  /** The module snippets under directory `d`, in order. */
  function InDir(sns: seq<CodeSnippet>, d: string): seq<CodeSnippet>
    decreases |sns|
  {
    if sns == [] then []
    else
      var sn := sns[|sns| - 1];
      InDir(sns[..|sns| - 1], d) + (if Grouped(sn) && Dir(sn.file_path) == d then [sn] else [])
  }

  /** No directory names two groups. */
  predicate DistinctDirs(gs: seq<Group>)
  {
    forall i, j :: 0 <= i < j < |gs| ==> gs[i].dir != gs[j].dir
  }

  /** Each group holds exactly the module snippets of its directory. */
  predicate MembersExact(sns: seq<CodeSnippet>, gs: seq<Group>)
  {
    forall i :: 0 <= i < |gs| ==> gs[i].members == InDir(sns, gs[i].dir) && gs[i].members != []
  }

  /** Every directory that holds a module snippet has a group. */
  ghost predicate Covers(sns: seq<CodeSnippet>, gs: seq<Group>)
  {
    forall d :: InDir(sns, d) != [] ==> HasDir(gs, d)
  }

  /** One group per directory that holds a module snippet, with no
      directory twice, and each group holds exactly the module snippets of
      its directory, in their original order. */
  lemma {:induction false} ModuleGroupsOf(sns: seq<CodeSnippet>)
    ensures DistinctDirs(ModuleGroups(sns))
    ensures MembersExact(sns, ModuleGroups(sns))
    ensures Covers(sns, ModuleGroups(sns))
    decreases |sns|
  {
    if sns != [] {
      var init := sns[..|sns| - 1];
      var sn := sns[|sns| - 1];
      ModuleGroupsOf(init);
      if Grouped(sn) {
        DistinctStep(ModuleGroups(init), Dir(sn.file_path), sn);
        MembersStep(sns);
        CoversStep(sns);
      } else {
        forall e ensures InDir(sns, e) == InDir(init, e) {
        }
      }
    }
  }

  /** Adding a member keeps the directories distinct. */
  lemma DistinctStep(g0: seq<Group>, d: string, sn: CodeSnippet)
    requires DistinctDirs(g0)
    ensures DistinctDirs(AddMember(g0, d, sn))
  {
    var gs := AddMember(g0, d, sn);
    forall i, j | 0 <= i < j < |gs| ensures gs[i].dir != gs[j].dir {
      if j == |g0| {
        assert !HasDir(g0, d);
        assert g0[i].dir != d;
      } else {
        assert gs[i].dir == g0[i].dir && gs[j].dir == g0[j].dir;
      }
    }
  }

  /** A grouped last snippet joins the group of its directory. */
  lemma MembersStep(sns: seq<CodeSnippet>)
    requires sns != [] && Grouped(sns[|sns| - 1])
    requires MembersExact(sns[..|sns| - 1], ModuleGroups(sns[..|sns| - 1]))
    requires Covers(sns[..|sns| - 1], ModuleGroups(sns[..|sns| - 1]))
    ensures MembersExact(sns, ModuleGroups(sns))
  {
    var init := sns[..|sns| - 1];
    var sn := sns[|sns| - 1];
    var d := Dir(sn.file_path);
    var g0 := ModuleGroups(init);
    var gs := ModuleGroups(sns);
    forall i | 0 <= i < |gs| ensures gs[i].members == InDir(sns, gs[i].dir) && gs[i].members != [] {
      assert InDir(sns, gs[i].dir) == InDir(init, gs[i].dir) + (if d == gs[i].dir then [sn] else []);
      if i == |g0| {
        assert !HasDir(g0, d);
        assert InDir(init, d) == [];
      }
    }
  }

  /** A grouped last snippet's directory has a group afterwards, and so does
      every directory that had one. */
  lemma CoversStep(sns: seq<CodeSnippet>)
    requires sns != [] && Grouped(sns[|sns| - 1])
    requires Covers(sns[..|sns| - 1], ModuleGroups(sns[..|sns| - 1]))
    ensures Covers(sns, ModuleGroups(sns))
  {
    var init := sns[..|sns| - 1];
    var sn := sns[|sns| - 1];
    var d := Dir(sn.file_path);
    var g0 := ModuleGroups(init);
    AddMemberDirs(g0, d, sn);
  }

  /** `module_info` built by the source's loop. */
  method GroupModules(sns: seq<CodeSnippet>) returns (groups: seq<Group>)
    ensures groups == ModuleGroups(sns)
  {
    groups := [];
    for k := 0 to |sns|
      invariant groups == ModuleGroups(sns[..k])
    {
      assert sns[..k + 1][..k] == sns[..k];
      if Grouped(sns[k]) {
        groups := AddMember(groups, Dir(sns[k].file_path), sns[k]);
      }
    }
    assert sns[..|sns|] == sns;
  }

  /** The first line of a truthy summary; other values as they are. */
  function FirstLine(summary: Option<string>): (r: Option<string>)
    ensures Truthy(summary) ==> r.Some? && '\n' !in r.value && StartsWith(summary.value, r.value)
    ensures !Truthy(summary) ==> r == summary
  {
    if Truthy(summary) then
      var s := summary.value;
      var line := Before(s, "\n");
      FirstPieceIsPrefix(s, "\n");
      CharFromContains(line, '\n');
      Some(line)
    else summary
  }

  lemma FirstPieceIsPrefix(s: string, sep: string)
    requires sep != []
    ensures StartsWith(s, Split(s, sep)[0])
  {
  }

  lemma CharFromContains(s: string, c: char)
    requires !Contains(s, [c])
    ensures c !in s
  {
    if c in s {
      var k :| 0 <= k < |s| && s[k] == c;
      assert s[k..k + 1] == [c];
      OccursAtContains(s, [c], k);
    }
  }

  /** What the overview prompt lists: per group, the name and first
      summary line of its first five module snippets. */
  function PromptGroups(gs: seq<Group>): (r: seq<ModuleGroup>)
    ensures |r| == |gs|
    ensures forall i :: 0 <= i < |gs| ==>
      && r[i].dir == gs[i].dir
      && |r[i].files| == Min(PromptFilesPerModule, |gs[i].members|)
      && forall j :: 0 <= j < |r[i].files| ==>
           r[i].files[j] == ModuleEntry(gs[i].members[j].symbol_name, FirstLine(gs[i].members[j].ai_summary_en))
  {
    seq(|gs|, i requires 0 <= i < |gs| =>
      var ms := gs[i].members[..Min(PromptFilesPerModule, |gs[i].members|)];
      ModuleGroup(gs[i].dir, seq(|ms|, j requires 0 <= j < |ms| =>
        ModuleEntry(ms[j].symbol_name, FirstLine(ms[j].ai_summary_en)))))
  }

  // ------------------------------------------- _generate_architectural_overview

  lemma OverviewHeadings()
    ensures HeadingPair(OverviewEn, OverviewVi)
  {
    assert OverviewEn[2..] == " OVERVIEW_EN";
    assert OverviewVi[2..] == " OVERVIEW_VI";
  }

  lemma ExplanationHeadings()
    ensures HeadingPair(ExplanationEn, ExplanationVi)
  {
    assert ExplanationEn[2..] == " EXPLANATION_EN";
    assert ExplanationVi[2..] == " EXPLANATION_VI";
  }

  function OverviewRequestOf(cfg: Settings, sns: seq<CodeSnippet>, repo: Option<RepositoryInfo>): Request
  {
    OverviewRequest(repo, PromptGroups(ModuleGroups(sns)), RequestedSections(cfg.output_languages, OverviewEn, OverviewVi))
  }

  /** The overview: the parsed reply, or the fixed failure text when the
      request fails in any way (no key, an HTTP error, a null content). */
  function Overview(cfg: Settings, env: Env, sns: seq<CodeSnippet>, repo: Option<RepositoryInfo>): (r: LangDict)
    ensures "en" in r && r["en"].Some?
  {
    OverviewHeadings();
    match Ask(cfg, env, OverviewRequestOf(cfg, sns, repo))
    case Answer(Some(c)) => ParseSections(c, OverviewEn, OverviewVi)
    case _ => map["en" := Some(OverviewFailed)]
  }

  /** Without an API key the overview is the failure text alone. */
  lemma OverviewNoKey(cfg: Settings, env: Env, sns: seq<CodeSnippet>, repo: Option<RepositoryInfo>)
    requires !Truthy(cfg.openrouter_api_key)
    ensures Overview(cfg, env, sns, repo) == map["en" := Some(OverviewFailed)]
  {
  }

  /** A reply laid out as the prompt asks reads back section by section. */
  lemma OverviewOfReply(cfg: Settings, env: Env, sns: seq<CodeSnippet>, repo: Option<RepositoryInfo>, a: string, b: string)
    requires Truthy(cfg.openrouter_api_key) && '#' !in a && '#' !in b
    requires env.chat(OverviewRequestOf(cfg, sns, repo)) == Answer(Some(OverviewEn + a + OverviewVi + b))
    ensures Overview(cfg, env, sns, repo) == map["en" := Some(Strip(a)), "vi" := Some(Strip(b))]
  {
    var c := OverviewEn + a + OverviewVi + b;
    assert Ask(cfg, env, OverviewRequestOf(cfg, sns, repo)) == Answer(Some(c));
    assert Overview(cfg, env, sns, repo) == ParseSections(c, OverviewEn, OverviewVi);
    OverviewHeadings();
    ParseRequestedReply(OverviewEn, OverviewVi, a, b);
  }

  // ------------------------------------------- _generate_module_explanations

  /** `modules`: the module snippets by file path, a later one replacing
      an earlier one with the same path. */
  function ModuleSnippets(sns: seq<CodeSnippet>): map<string, CodeSnippet>
    decreases |sns|
  {
    if sns == [] then map[]
    else
      var m := ModuleSnippets(sns[..|sns| - 1]);
      var sn := sns[|sns| - 1];
      if sn.symbol_type == "module" then m[sn.file_path := sn] else m
  }

  predicate IsModuleAt(sns: seq<CodeSnippet>, i: int, p: string)
    requires 0 <= i < |sns|
  {
    sns[i].symbol_type == "module" && sns[i].file_path == p
  }

  /** A path is a key exactly when some module snippet has it. */
  lemma {:induction false} ModuleSnippetsKeys(sns: seq<CodeSnippet>)
    ensures forall p :: p in ModuleSnippets(sns) <==> exists i :: 0 <= i < |sns| && IsModuleAt(sns, i, p)
    decreases |sns|
  {
    if sns != [] {
      var init := sns[..|sns| - 1];
      ModuleSnippetsKeys(init);
      forall p ensures p in ModuleSnippets(sns) <==> exists i :: 0 <= i < |sns| && IsModuleAt(sns, i, p) {
        if p in ModuleSnippets(init) {
          var i :| 0 <= i < |init| && IsModuleAt(init, i, p);
          assert IsModuleAt(sns, i, p);
        }
        if exists i :: 0 <= i < |sns| && IsModuleAt(sns, i, p) {
          var i :| 0 <= i < |sns| && IsModuleAt(sns, i, p);
          if i < |init| {
            assert IsModuleAt(init, i, p);
          } else {
            assert sns[|sns| - 1].symbol_type == "module" && sns[|sns| - 1].file_path == p;
          }
        }
        if IsModuleAt(sns, |sns| - 1, p) {
          assert p in ModuleSnippets(sns);
        }
      }
    }
  }

  /** The snippet kept under a path is the last module snippet with it. */
  lemma {:induction false} ModuleSnippetsLast(sns: seq<CodeSnippet>, i: nat)
    requires i < |sns| && IsModuleAt(sns, i, sns[i].file_path)
    requires forall j :: i < j < |sns| ==> !IsModuleAt(sns, j, sns[i].file_path)
    ensures sns[i].file_path in ModuleSnippets(sns) && ModuleSnippets(sns)[sns[i].file_path] == sns[i]
    decreases |sns|
  {
    var init := sns[..|sns| - 1];
    if i < |init| {
      forall j | i < j < |init| ensures !IsModuleAt(init, j, sns[i].file_path) {
        assert !IsModuleAt(sns, j, sns[i].file_path);
      }
      ModuleSnippetsLast(init, i);
      assert !IsModuleAt(sns, |sns| - 1, sns[i].file_path);
    }
  }

  /** `_generate_explanation`: the parsed reply, or the failure text. */
  function GenerateExplanation(cfg: Settings, env: Env, sn: CodeSnippet): (r: LangDict)
    ensures "en" in r && r["en"].Some?
  {
    ExplanationHeadings();
    match Ask(cfg, env, ExplanationRequest(sn, RequestedSections(cfg.output_languages, ExplanationEn, ExplanationVi)))
    case Answer(Some(c)) => ParseSections(c, ExplanationEn, ExplanationVi)
    case _ => map["en" := Some(ExplanationFailed)]
  }

  /** One module's explanation: its English summary (and Vietnamese one,
      when set) if it has one, a generated explanation otherwise. */
  function Explain(cfg: Settings, env: Env, sn: CodeSnippet): (r: LangDict)
    ensures "en" in r && r["en"].Some?
  {
    if Truthy(sn.ai_summary_en) then
      map["en" := sn.ai_summary_en] + (if Truthy(sn.ai_summary_vi) then map["vi" := sn.ai_summary_vi] else map[])
    else GenerateExplanation(cfg, env, sn)
  }

  /** A summarised module is explained by its summary, without a request. */
  lemma ExplainReusesSummary(cfg: Settings, env1: Env, env2: Env, sn: CodeSnippet)
    requires Truthy(sn.ai_summary_en)
    ensures Explain(cfg, env1, sn) == Explain(cfg, env2, sn)
    ensures var r := Explain(cfg, env1, sn);
      && r["en"] == sn.ai_summary_en
      && ("vi" in r <==> Truthy(sn.ai_summary_vi))
      && ("vi" in r ==> r["vi"] == sn.ai_summary_vi)
      && r.Keys <= {"en", "vi"}
  {
  }

  /** Without an API key an unsummarised module gets the failure text. */
  lemma ExplainNoKey(cfg: Settings, env: Env, sn: CodeSnippet)
    requires !Truthy(cfg.openrouter_api_key) && !Truthy(sn.ai_summary_en)
    ensures Explain(cfg, env, sn) == map["en" := Some(ExplanationFailed)]
  {
  }

  /** `module_explanations`: one entry per module path. */
  function Explanations(cfg: Settings, env: Env, sns: seq<CodeSnippet>): map<string, LangDict>
  {
    var m := ModuleSnippets(sns);
    map p | p in m :: Explain(cfg, env, m[p])
  }

  /** The explanation keys are the module paths, and a module's entry is
      that of the last module snippet with its path. */
  lemma ExplanationsOf(cfg: Settings, env: Env, sns: seq<CodeSnippet>, i: nat)
    requires i < |sns| && IsModuleAt(sns, i, sns[i].file_path)
    requires forall j :: i < j < |sns| ==> !IsModuleAt(sns, j, sns[i].file_path)
    ensures var ex := Explanations(cfg, env, sns);
      sns[i].file_path in ex && ex[sns[i].file_path] == Explain(cfg, env, sns[i])
    ensures forall p :: p in Explanations(cfg, env, sns) <==> exists j :: 0 <= j < |sns| && IsModuleAt(sns, j, p)
  {
    ModuleSnippetsLast(sns, i);
    ModuleSnippetsKeys(sns);
  }

  /** The source's two loops: group by path, then explain each module. */
  method GenerateModuleExplanations(cfg: Settings, env: Env, sns: seq<CodeSnippet>) returns (ex: map<string, LangDict>)
    ensures ex == Explanations(cfg, env, sns)
  {
    var modules: map<string, CodeSnippet> := map[];
    for k := 0 to |sns|
      invariant modules == ModuleSnippets(sns[..k])
    {
      assert sns[..k + 1][..k] == sns[..k];
      if sns[k].symbol_type == "module" {
        modules := modules[sns[k].file_path := sns[k]];
      }
    }
    assert sns[..|sns|] == sns;
    ex := map[];
    var todo := modules.Keys;
    while todo != {}
      invariant todo <= modules.Keys
      invariant ex.Keys == modules.Keys - todo
      invariant forall p :: p in ex ==> ex[p] == Explain(cfg, env, modules[p])
      decreases todo
    {
      var p :| p in todo;
      ex := ex[p := Explain(cfg, env, modules[p])];
      todo := todo - {p};
    }
    assert ex == map p | p in modules :: Explain(cfg, env, modules[p]);
  }

  // ------------------------------------------------------------------ _execute

  /** The stage has snippets and a Qdrant URL, so it connects. */
  predicate Connects(f: Fields, cfg: Settings)
  {
    HasItems(GetSnippets(f)) && Truthy(cfg.qdrant_url)
  }

  /** `_execute` */
  function Logic(s: State, cfg: Settings, env: Env): Step
  {
    var sns := GetSnippets(s.fields);
    if !HasItems(sns) then Step(Added(s, Name, Warning, NoSnippets, env.clock), Returned)
    else if !Truthy(cfg.qdrant_url) then Step(s, Raised(InitFailed + NoQdrantUrl))
    else
      var url := cfg.qdrant_url.value;
      var name := env.collectionName;
      match Provisioned(env, url, name)
      case Some(e) => Step(s, Raised(CreateFailed + e))
      case None =>
        var s1 := Added(s, Name, Info, StartText(|sns.value|), env.clock);
        var run := Indexed(env, url, name, Chunks(sns.value, BatchSize));
        if run.failure.Some? then Step(s1, Raised(IndexFailed + run.failure.value))
        else
          var rag := RagResults(Overview(cfg, env, sns.value, GetRepoInfo(s.fields)), Explanations(cfg, env, sns.value), name);
          Step(Added(Put(s1, "rag_results", Rag(rag)), Name, Success, DoneText, env.clock), Returned)
  }

  /** No snippets: one WARNING and nothing else. Otherwise the stage raises,
      with its fields unchanged, exactly when Qdrant is not configured, the
      collection cannot be provisioned or a batch upsert fails. */
  lemma LogicResult(s: State, cfg: Settings, env: Env)
    ensures var step := Logic(s, cfg, env); var sns := GetSnippets(s.fields);
      && AppendsOnly(s, step.state, Name)
      && (!HasItems(sns) ==>
            && step.outcome == Returned && step.state.fields == s.fields
            && Msgs(step.state) == Msgs(s) + [AgentMessage(Name, Warning, NoSnippets, env.clock(|Msgs(s)|))])
      && (step.outcome.Raised? ==> step.state.fields == s.fields && HasItems(sns))
      && (step.outcome.Raised? <==>
            HasItems(sns)
            && (!Truthy(cfg.qdrant_url)
                || Provisioned(env, cfg.qdrant_url.value, env.collectionName).Some?
                || Indexed(env, cfg.qdrant_url.value, env.collectionName, Chunks(sns.value, BatchSize)).failure.Some?))
  {
    var sns := GetSnippets(s.fields);
    if !HasItems(sns) {
      AddedAppends(s, s, Name, Warning, NoSnippets, env.clock);
    } else if Truthy(cfg.qdrant_url) && Provisioned(env, cfg.qdrant_url.value, env.collectionName).None? {
      var s1 := Added(s, Name, Info, StartText(|sns.value|), env.clock);
      AddedAppends(s, s, Name, Info, StartText(|sns.value|), env.clock);
      var run := Indexed(env, cfg.qdrant_url.value, env.collectionName, Chunks(sns.value, BatchSize));
      if run.failure.None? {
        var rag := RagResults(Overview(cfg, env, sns.value, GetRepoInfo(s.fields)), Explanations(cfg, env, sns.value),
                              env.collectionName);
        AddedAppends(s, Put(s1, "rag_results", Rag(rag)), Name, Success, DoneText, env.clock);
      }
    }
  }

  /** After a full run `rag_results` holds the overview, the module
      explanations and the collection's name, and SUCCESS is the last
      message. */
  lemma LogicStored(s: State, cfg: Settings, env: Env)
    requires Logic(s, cfg, env).outcome.Returned? && HasItems(GetSnippets(s.fields))
    ensures var step := Logic(s, cfg, env); var sns := GetSnippets(s.fields).value;
      && step.state.fields == s.fields["rag_results" := Rag(RagResults(
           Overview(cfg, env, sns, GetRepoInfo(s.fields)), Explanations(cfg, env, sns), env.collectionName))]
      && Msgs(step.state)[|Msgs(step.state)| - 1].message_type == Success
      && Msgs(step.state)[|Msgs(step.state)| - 1].content == DoneText
  {
  }

  // ------------------------------------------------------------------ query

  /** One search result, without its float score. */
  datatype Hit = Hit(
    snippet_id: string,
    file_path: string,
    symbol_name: Option<string>,
    symbol_type: string,
    text_content: string,
    ai_summary_en: Option<string>,
    ai_summary_vi: Option<string>)

  function HitOf(p: CodeSnippet): Hit
  {
    Hit(p.id, p.file_path, p.symbol_name, p.symbol_type, p.text_content, p.ai_summary_en, p.ai_summary_vi)
  }

  /** The agent object: the Qdrant client (named by its URL) and the
      collection name, both unset until the stage connects. */
  class Agent {
    var client: Option<string>
    var collection: Option<string>

    constructor ()
      ensures client == None && collection == None
    {
      client := None;
      collection := None;
    }

    /** `_init_qdrant` */
    method InitQdrant(cfg: Settings, env: Env) returns (err: Option<string>)
      modifies this
      ensures err.Some? <==> !Truthy(cfg.qdrant_url)
      ensures err.Some? ==> err.value == InitFailed + NoQdrantUrl && client == old(client) && collection == old(collection)
      ensures err.None? ==> client == cfg.qdrant_url && collection == Some(env.collectionName)
    {
      if !Truthy(cfg.qdrant_url) {
        return Some(InitFailed + NoQdrantUrl);
      }
      client := cfg.qdrant_url;
      collection := Some(env.collectionName);
      return None;
    }

    /** `_create_collection` */
    method CreateCollection(env: Env) returns (err: Option<string>)
      requires client.Some? && collection.Some?
      ensures err.None? <==> Provisioned(env, client.value, collection.value).None?
      ensures err.Some? ==> err.value == CreateFailed + Provisioned(env, client.value, collection.value).value
    {
      var names := env.collections(client.value);
      if names.Err? {
        return Some(CreateFailed + names.error);
      }
      if collection.value in names.value {
        return None;
      }
      var failure := env.createCollection(client.value, collection.value);
      if failure.Some? {
        return Some(CreateFailed + failure.value);
      }
      return None;
    }

    /** `_index_snippets`: `sent` lists the point batches upserted, the
        failing one last. */
    method IndexSnippets(env: Env, sns: seq<CodeSnippet>) returns (sent: seq<seq<Point>>, err: Option<string>)
      requires client.Some? && collection.Some?
      ensures var run := Indexed(env, client.value, collection.value, Chunks(sns, BatchSize));
        && sent == run.sent
        && err == (if run.failure.Some? then Some(IndexFailed + run.failure.value) else None)
    {
      var url := client.value;
      var name := collection.value;
      ghost var bs := Chunks(sns, BatchSize);
      sent := [];
      var i := 0;
      ghost var b := 0;
      assert sns[0..] == sns;
      while i < |sns|
        invariant 0 <= i <= |sns| && 0 <= b <= |bs|
        invariant bs[b..] == Chunks(sns[i..], BatchSize)
        invariant Indexed(env, url, name, bs[..b]) == IndexRun(sent, None)
        decreases |sns| - i
      {
        var hi := Min(i + BatchSize, |sns|);
        var batch := sns[i..hi];
        ChunksStep(sns, BatchSize, i);
        assert bs[b] == batch;
        var points := EmbedBatch(batch);
        IndexedNext(env, url, name, bs, b);
        sent := sent + [points];
        var failure := env.upsert(url, name, points);
        if failure.Some? {
          IndexedSticks(env, url, name, bs, b + 1);
          return sent, Some(IndexFailed + failure.value);
        }
        assert bs[b + 1..] == Chunks(sns[hi..], BatchSize);
        b := b + 1;
        i := hi;
      }
      assert sns[|sns|..] == [];
      assert bs[..b] == bs;
      err := None;
    }

    /** `query`: nothing before the stage connected or when the search fails;
        otherwise one hit per payload found, in order. */
    method Query(env: Env, queryText: string, topK: nat) returns (results: seq<Hit>)
      ensures client.None? || !Truthy(collection) ==> results == []
      ensures client.Some? && Truthy(collection) && env.search(client.value, collection.value, queryText, topK).Err?
        ==> results == []
      ensures client.Some? && Truthy(collection) && env.search(client.value, collection.value, queryText, topK).Ok? ==>
        var found := env.search(client.value, collection.value, queryText, topK).value;
        |results| == |found| && forall i :: 0 <= i < |found| ==> results[i] == HitOf(found[i])
    {
      if client.None? || !Truthy(collection) {
        return [];
      }
      var found := env.search(client.value, collection.value, queryText, topK);
      if found.Err? {
        return [];
      }
      results := [];
      for i := 0 to |found.value|
        invariant |results| == i
        invariant forall k :: 0 <= k < i ==> results[k] == HitOf(found.value[k])
      {
        results := results + [HitOf(found.value[i])];
      }
    }

    /** `_execute` on the shared state; the agent keeps the connection. */
    method Run(st: WorkflowState, cfg: Settings, env: Env) returns (o: Outcome)
      modifies st, this
      ensures Step(st.Snapshot(), o) == Logic(old(st.Snapshot()), cfg, env)
      ensures Connects(old(st.fields), cfg) ==> client == cfg.qdrant_url && collection == Some(env.collectionName)
      ensures !Connects(old(st.fields), cfg) ==> client == old(client) && collection == old(collection)
    {
      var sns := GetSnippets(st.fields);
      if !HasItems(sns) {
        st.AddMessage(Name, Warning, NoSnippets, env.clock);
        return Returned;
      }
      var initErr := InitQdrant(cfg, env);
      if initErr.Some? {
        return Raised(initErr.value);
      }
      var createErr := CreateCollection(env);
      if createErr.Some? {
        return Raised(createErr.value);
      }
      st.AddMessage(Name, Info, StartText(|sns.value|), env.clock);
      var sent, indexErr := IndexSnippets(env, sns.value);
      if indexErr.Some? {
        return Raised(indexErr.value);
      }
      var overview := Overview(cfg, env, sns.value, GetRepoInfo(st.fields));
      var explanations := GenerateModuleExplanations(cfg, env, sns.value);
      st.Set("rag_results", Rag(RagResults(overview, explanations, collection.value)));
      st.AddMessage(Name, Success, DoneText, env.clock);
      return Returned;
    }
  }
}
