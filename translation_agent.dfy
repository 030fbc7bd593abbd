/** `TranslationAgent` (autodocai/agents/translation_agent.py): when
    Vietnamese output is wanted, fills in the missing Vietnamese text of the
    code summaries, of the architectural overview and of each module
    explanation. Vietnamese text that is already there is never replaced. */
module TranslationAgent {
  import opened Wrappers
  import opened Text
  import opened Schemas
  import opened Config
  import opened States
  import opened Base
  import opened Collaborators
  import opened Batching

  const Name := "TranslationAgent"
  const Marker := "VIETNAMESE TRANSLATION:"
  const StartText := "Starting translation to Vietnamese"
  const DoneText := "Completed Vietnamese translation"
  const Stage := "translation_complete"

  /** `_translate_text`: None for a missing text, a failed request or a
      reply without content; "" for a blank text, without a request;
      otherwise the reply with the marker removed, trimmed. */
  function TranslateText(cfg: Settings, env: Env, text: Option<string>): (r: Option<string>)
    ensures text.None? ==> r.None?
    ensures text.Some? && Strip(text.value) == "" ==> r == Some("")
    ensures r.Some? ==> IsStripped(r.value)
  {
    if text.None? then None
    else if Strip(text.value) == "" then Some("")
    else
      match Ask(cfg, env, TranslationRequest(text.value))
      case Answer(Some(c)) => Some(Strip(Replace(c, Marker, "")))
      case _ => None
  }

  /** A reply that only echoes the marker before the translation reads as
      the trimmed translation. */
  lemma MarkerRemoved(cfg: Settings, env: Env, text: string, t: string)
    requires Truthy(cfg.openrouter_api_key) && Strip(text) != ""
    requires !Contains(t, Marker)
    requires env.chat(TranslationRequest(text)) == Answer(Some(Marker + t))
    ensures TranslateText(cfg, env, Some(text)) == Some(Strip(t))
  {
    TranslateAnswered(cfg, env, text, Marker + t);
    ReplaceLeading(Marker, t, "");
    assert "" + t == t;
    assert Replace(Marker + t, Marker, "") == t;
  }

  // -------------------------------------------------------------- summaries

  /** The guard of line 106 as written: "vi" is not a key of the entry. */
  predicate PendingAsWritten(e: LangDict)
  {
    "en" in e && "vi" !in e
  }

  /** The guard as intended: the entry has no Vietnamese text, whether the
      key is absent or holds nothing. */
  predicate Pending(e: LangDict)
  {
    "en" in e && ("vi" !in e || !Truthy(e["vi"]))
  }

  /** The translation of an entry's English text. */
  function Attempt(cfg: Settings, env: Env, e: LangDict): Option<string>
  {
    if "en" in e then TranslateText(cfg, env, e["en"]) else None
  }

  /** Whether the entry of `id` is sent and comes back with a translation. */
  predicate Filled(cfg: Settings, env: Env, sums: map<string, LangDict>, sent: set<string>, id: string)
    requires id in sums
  {
    id in sent && "en" in sums[id] && Truthy(Attempt(cfg, env, sums[id]))
  }

  /** `_translate_summaries` once the entries to send are chosen: the
      translated ones as {en, vi}, then every other entry that has a "vi"
      key, unchanged. */
  function Merge(cfg: Settings, env: Env, sums: map<string, LangDict>, sent: set<string>): map<string, LangDict>
  {
    map id | id in sums && (Filled(cfg, env, sums, sent, id) || "vi" in sums[id]) ::
      if Filled(cfg, env, sums, sent, id)
      then map["en" := sums[id]["en"], "vi" := Attempt(cfg, env, sums[id])]
      else sums[id]
  }

  function TranslatedSummariesAsWritten(cfg: Settings, env: Env, sums: map<string, LangDict>): map<string, LangDict>
  {
    Merge(cfg, env, sums, set id | id in sums && PendingAsWritten(sums[id]))
  }

  function TranslatedSummaries(cfg: Settings, env: Env, sums: map<string, LangDict>): map<string, LangDict>
  {
    Merge(cfg, env, sums, set id | id in sums && Pending(sums[id]))
  }

  /** As written, summaries in the shape the summarizer stores them, with a
      "vi" key on every entry, come back unchanged: none is translated. */
  lemma AsWrittenTranslatesNothing(cfg: Settings, env: Env, sums: map<string, LangDict>)
    requires forall id :: id in sums ==> sums[id].Keys == {"en", "vi"}
    ensures TranslatedSummariesAsWritten(cfg, env, sums) == sums
  {
    var r := TranslatedSummariesAsWritten(cfg, env, sums);
    forall id | id in sums ensures id in r && r[id] == sums[id] {
      assert "vi" in sums[id];
    }
  }

  const Example: LangDict := map["en" := Some("Adds two numbers."), "vi" := None]

  lemma ExampleAttempt(cfg: Settings, env: Env, t: string)
    requires Truthy(cfg.openrouter_api_key)
    requires env.chat(TranslationRequest("Adds two numbers.")) == Answer(Some(t))
    ensures Attempt(cfg, env, Example) == Some(Strip(Replace(t, Marker, "")))
    ensures Pending(Example)
  {
    var en := "Adds two numbers.";
    assert Example["en"] == Some(en);
    assert IsStripped(en);
    StripStripped(en);
    TranslateAnswered(cfg, env, en, t);
  }

  /** A non-blank text the model answers is translated to that answer,
      stripped and with the marker removed. */
  lemma TranslateAnswered(cfg: Settings, env: Env, text: string, t: string)
    requires Truthy(cfg.openrouter_api_key) && Strip(text) != ""
    requires env.chat(TranslationRequest(text)) == Answer(Some(t))
    ensures TranslateText(cfg, env, Some(text)) == Some(Strip(Replace(t, Marker, "")))
  {
    var reply := Ask(cfg, env, TranslationRequest(text));
    assert reply == Answer(Some(t));
    assert TranslateText(cfg, env, Some(text)) == match reply
      case Answer(Some(c)) => Some(Strip(Replace(c, Marker, "")))
      case _ => None;
  }

  /** A filled entry comes out as {en, vi}. */
  lemma MergeFilled(cfg: Settings, env: Env, sums: map<string, LangDict>, sent: set<string>, id: string)
    requires id in sums && Filled(cfg, env, sums, sent, id)
    ensures id in Merge(cfg, env, sums, sent)
    ensures Merge(cfg, env, sums, sent)[id] == map["en" := sums[id]["en"], "vi" := Attempt(cfg, env, sums[id])]
  {
  }

  /** The input that shows it: a summary whose "vi" entry is None keeps it,
      even when the translation is there to be had. */
  lemma AsWrittenKeepsMissingVietnamese(cfg: Settings, env: Env, t: string)
    requires Truthy(cfg.openrouter_api_key)
    requires env.chat(TranslationRequest("Adds two numbers.")) == Answer(Some(t))
    ensures var r := TranslatedSummariesAsWritten(cfg, env, map["s1" := Example]);
      "s1" in r && "vi" in r["s1"] && r["s1"]["vi"] == None
  {
    var sums := map["s1" := Example];
    AsWrittenTranslatesNothing(cfg, env, sums);
  }

  /** An entry without Vietnamese text whose translation succeeds is filled. */
  lemma PendingFilled(cfg: Settings, env: Env, sums: map<string, LangDict>, id: string)
    requires id in sums && Pending(sums[id]) && Truthy(Attempt(cfg, env, sums[id]))
    ensures id in TranslatedSummaries(cfg, env, sums)
    ensures TranslatedSummaries(cfg, env, sums)[id] == map["en" := sums[id]["en"], "vi" := Attempt(cfg, env, sums[id])]
  {
    var sent := set k | k in sums && Pending(sums[k]);
    assert id in sent;
    MergeFilled(cfg, env, sums, sent, id);
  }

  /** The intended guard sends the same summary and keeps its translation. */
  lemma IntendedFillsMissingVietnamese(cfg: Settings, env: Env, t: string)
    requires Truthy(cfg.openrouter_api_key) && Strip(Replace(t, Marker, "")) != ""
    requires env.chat(TranslationRequest("Adds two numbers.")) == Answer(Some(t))
    ensures var r := TranslatedSummaries(cfg, env, map["s1" := Example]);
      "s1" in r && "vi" in r["s1"] && r["s1"]["vi"] == Some(Strip(Replace(t, Marker, "")))
  {
    var sums := map["s1" := Example];
    var v := Strip(Replace(t, Marker, ""));
    ExampleAttempt(cfg, env, t);
    assert sums["s1"] == Example;
    assert Attempt(cfg, env, sums["s1"]) == Some(v);
    PendingFilled(cfg, env, sums, "s1");
    assert TranslatedSummaries(cfg, env, sums)["s1"] == map["en" := Example["en"], "vi" := Some(v)];
  }

  /** What the intended merge promises: only input ids come out, every
      entry has a "vi" key, Vietnamese text already present is kept as is,
      and a filled entry holds the original English and the translation. */
  lemma SummariesMerged(cfg: Settings, env: Env, sums: map<string, LangDict>)
    ensures var r := TranslatedSummaries(cfg, env, sums);
      && r.Keys <= sums.Keys
      && (forall id :: id in r ==> "vi" in r[id])
      && (forall id :: id in sums && "vi" in sums[id] && Truthy(sums[id]["vi"]) ==> id in r && r[id] == sums[id])
      && (forall id :: id in r && r[id] != sums[id] ==>
            "en" in sums[id] && r[id] == map["en" := sums[id]["en"], "vi" := Attempt(cfg, env, sums[id])]
            && Truthy(r[id]["vi"]))
      && (forall id :: id in sums && Pending(sums[id]) && Truthy(Attempt(cfg, env, sums[id])) ==>
            id in r && r[id]["vi"] == Attempt(cfg, env, sums[id]))
  {
  }

  /** The key-based and the intended guard agree on entries that either lack
      "vi" or hold Vietnamese text: the difference is only the empty "vi". */
  lemma GuardsDifferOnlyOnEmpty(e: LangDict)
    requires "vi" !in e || Truthy(e["vi"])
    ensures PendingAsWritten(e) <==> Pending(e)
  {
  }

  /** `batch_size` of `_translate_summaries`. */
  const BatchSize := 5

  /** The translation each entry would get. */
  function Attempts(cfg: Settings, env: Env, sums: map<string, LangDict>): (att: map<string, Option<string>>)
    ensures att.Keys == sums.Keys
    ensures forall id :: id in sums ==> att[id] == Attempt(cfg, env, sums[id])
  {
    map id | id in sums :: Attempt(cfg, env, sums[id])
  }

  /** What the batch loop has collected after the ids `ids` were sent, in
      order, when `att` holds each entry's translation: each id whose
      translation came back, as {en, vi}. */
  function Collected(sums: map<string, LangDict>, att: map<string, Option<string>>, ids: seq<string>): map<string, LangDict>
  {
    if ids == [] then map[]
    else
      var id := ids[|ids| - 1];
      var m := Collected(sums, att, ids[..|ids| - 1]);
      if id in sums && "en" in sums[id] && id in att && Truthy(att[id]) then
        m[id := map["en" := sums[id]["en"], "vi" := att[id]]]
      else m
  }

  /** An id is collected exactly when it was sent and its translation came
      back; it is then held as its English text and the translation. */
  lemma {:induction false} CollectedHas(sums: map<string, LangDict>, att: map<string, Option<string>>, ids: seq<string>, id: string)
    requires forall x :: x in ids ==> x in sums && x in att && "en" in sums[x]
    ensures id in Collected(sums, att, ids) <==> id in ids && Truthy(att[id])
    ensures id in Collected(sums, att, ids) ==>
      Collected(sums, att, ids)[id] == map["en" := sums[id]["en"], "vi" := att[id]]
    decreases |ids|
  {
    if ids != [] {
      var init := ids[..|ids| - 1];
      var last := ids[|ids| - 1];
      PrefixAndLast(ids);
      assert forall x :: x in init ==> x in ids;
      CollectedHas(sums, att, init, id);
      assert id in ids <==> id in init || id == last;
    }
  }

  /** The loop over `summaries.items()` that picks the entries to send. */
  method PendingIds(sums: map<string, LangDict>) returns (toTranslate: seq<string>)
    ensures forall id :: id in toTranslate <==> id in sums && Pending(sums[id])
  {
    toTranslate := [];
    var left := sums.Keys;
    while left != {}
      invariant left <= sums.Keys
      invariant forall id :: id in toTranslate <==> id in sums.Keys - left && Pending(sums[id])
      decreases left
    {
      var id :| id in left;
      if Pending(sums[id]) {
        toTranslate := toTranslate + [id];
      }
      left := left - {id};
    }
  }

  /** `asyncio.gather` over one batch: one result per id, in order. */
  method TranslateBatch(cfg: Settings, env: Env, sums: map<string, LangDict>, batch: seq<string>)
    returns (results: seq<Option<string>>)
    requires forall id :: id in batch ==> id in sums && "en" in sums[id]
    ensures |results| == |batch|
    ensures forall k :: 0 <= k < |batch| ==> results[k] == Attempt(cfg, env, sums[batch[k]])
  {
    results := [];
    for k := 0 to |batch|
      invariant |results| == k
      invariant AttemptsOf(cfg, env, sums, batch, results)
    {
      var id := batch[k];
      assert id in batch;
      var vi := TranslateText(cfg, env, sums[id]["en"]);
      AttemptsExtend(cfg, env, sums, batch, results, vi);
      results := results + [vi];
    }
  }

  /** `results` holds the translations of the first `|results|` ids of the batch. */
  predicate AttemptsOf(cfg: Settings, env: Env, sums: map<string, LangDict>, batch: seq<string>,
                       results: seq<Option<string>>)
  {
    |results| <= |batch| &&
    forall j :: 0 <= j < |results| ==> batch[j] in sums && results[j] == Attempt(cfg, env, sums[batch[j]])
  }

  /** Translating the next id of the batch extends the results by one. */
  lemma AttemptsExtend(cfg: Settings, env: Env, sums: map<string, LangDict>, batch: seq<string>,
                       results: seq<Option<string>>, vi: Option<string>)
    requires AttemptsOf(cfg, env, sums, batch, results) && |results| < |batch|
    requires batch[|results|] in sums && "en" in sums[batch[|results|]]
    requires vi == TranslateText(cfg, env, sums[batch[|results|]]["en"])
    ensures AttemptsOf(cfg, env, sums, batch, results + [vi])
  {
    var k := |results|;
    assert vi == Attempt(cfg, env, sums[batch[k]]);
    forall j | 0 <= j < k + 1
      ensures batch[j] in sums && (results + [vi])[j] == Attempt(cfg, env, sums[batch[j]])
    {
      if j < k {
        assert (results + [vi])[j] == results[j];
      }
    }
  }

  /** The `for i in range(0, len(to_translate), batch_size)` loop: the ids
      are sent in consecutive batches of five, the batches of `Chunks`, and
      the result is what sending them one by one collects. */
  method TranslateInBatches(cfg: Settings, env: Env, sums: map<string, LangDict>, toTranslate: seq<string>)
    returns (r: map<string, LangDict>)
    requires forall id :: id in toTranslate ==> id in sums && "en" in sums[id]
    ensures r == Collected(sums, Attempts(cfg, env, sums), toTranslate)
  {
    ghost var att := Attempts(cfg, env, sums);
    ghost var bs := Chunks(toTranslate, BatchSize);
    ghost var b := 0;
    r := map[];
    var i := 0;
    assert toTranslate[0..] == toTranslate;
    while i < |toTranslate|
      invariant 0 <= i <= |toTranslate| && 0 <= b <= |bs|
      invariant bs[b..] == Chunks(toTranslate[i..], BatchSize)
      invariant r == Collected(sums, att, toTranslate[..i])
      decreases |toTranslate| - i
    {
      ChunksAdvance(bs, toTranslate, BatchSize, b, i);
      var hi;
      r, hi := TranslateNextBatch(cfg, env, sums, att, toTranslate, i, r);
      b := b + 1;
      i := hi;
    }
    assert toTranslate[..|toTranslate|] == toTranslate;
  }

  /** One pass of the loop: the batch `to_translate[i:i + 5]` is sent and
      what came back is collected; `att` holds each entry's translation. */
  method TranslateNextBatch(cfg: Settings, env: Env, sums: map<string, LangDict>, ghost att: map<string, Option<string>>,
                            toTranslate: seq<string>, i: nat, r0: map<string, LangDict>)
    returns (r: map<string, LangDict>, hi: nat)
    requires i < |toTranslate|
    requires forall id :: id in toTranslate ==> id in sums && "en" in sums[id]
    requires forall id :: id in sums ==> id in att && att[id] == Attempt(cfg, env, sums[id])
    requires r0 == Collected(sums, att, toTranslate[..i])
    ensures hi == Min(i + BatchSize, |toTranslate|)
    ensures r == Collected(sums, att, toTranslate[..hi])
  {
    hi := Min(i + BatchSize, |toTranslate|);
    var batch := toTranslate[i..hi];
    assert forall id :: id in batch ==> id in toTranslate;
    var results := TranslateBatch(cfg, env, sums, batch);
    forall k | i <= k < hi
      ensures toTranslate[k] in sums && "en" in sums[toTranslate[k]] && toTranslate[k] in att
    {
      assert toTranslate[k] in toTranslate;
    }
    forall k | 0 <= k < hi - i
      ensures results[k] == att[toTranslate[i + k]]
    {
      assert batch[k] == toTranslate[i + k];
    }
    r := AddBatch(sums, att, toTranslate, i, hi, results, r0);
  }

  /** The inner `for (id, _), vi in zip(batch, results)` loop: each
      translation that came back is stored with its English text. */
  method AddBatch(sums: map<string, LangDict>, ghost att: map<string, Option<string>>, ids: seq<string>,
                  i: nat, hi: nat, results: seq<Option<string>>, r0: map<string, LangDict>)
    returns (r: map<string, LangDict>)
    requires i <= hi <= |ids| && |results| == hi - i
    requires forall k :: i <= k < hi ==> ids[k] in sums && "en" in sums[ids[k]] && ids[k] in att
    requires forall k :: 0 <= k < hi - i ==> results[k] == att[ids[i + k]]
    requires r0 == Collected(sums, att, ids[..i])
    ensures r == Collected(sums, att, ids[..hi])
  {
    r := r0;
    for j := i to hi
      invariant r == Collected(sums, att, ids[..j])
    {
      var id := ids[j];
      assert results[j - i] == att[id];
      CollectedNext(sums, att, ids, j);
      if Truthy(results[j - i]) {
        r := r[id := map["en" := sums[id]["en"], "vi" := results[j - i]]];
      }
    }
  }

  /** One more id sent: its translation is added when it came back. */
  lemma CollectedNext(sums: map<string, LangDict>, att: map<string, Option<string>>, ids: seq<string>, j: nat)
    requires j < |ids|
    ensures var id := ids[j];
      Collected(sums, att, ids[..j + 1]) ==
        if id in sums && "en" in sums[id] && id in att && Truthy(att[id]) then
          Collected(sums, att, ids[..j])[id := map["en" := sums[id]["en"], "vi" := att[id]]]
        else Collected(sums, att, ids[..j])
  {
    assert ids[..j + 1][..j] == ids[..j];
  }

  /** The last loop: every entry not translated that has a "vi" key is
      copied over unchanged. */
  method KeepTranslated(sums: map<string, LangDict>, r0: map<string, LangDict>) returns (r: map<string, LangDict>)
    requires r0.Keys <= sums.Keys
    ensures r.Keys == r0.Keys + (set id | id in sums && "vi" in sums[id])
    ensures forall id :: id in r ==> r[id] == if id in r0 then r0[id] else sums[id]
  {
    r := r0;
    var rest := sums.Keys;
    while rest != {}
      invariant rest <= sums.Keys
      invariant r.Keys == r0.Keys + (set id | id in sums.Keys - rest && "vi" in sums[id])
      invariant forall id :: id in r ==> r[id] == if id in r0 then r0[id] else sums[id]
      decreases rest
    {
      var id :| id in rest;
      if id !in r && "vi" in sums[id] {
        r := r[id := sums[id]];
      }
      rest := rest - {id};
    }
  }

  /** `_translate_summaries`: pick the entries to send, translate them in
      batches, then keep every other entry that has a "vi" key. */
  method TranslateSummaries(cfg: Settings, env: Env, sums: map<string, LangDict>) returns (r: map<string, LangDict>)
    ensures r == TranslatedSummaries(cfg, env, sums)
  {
    var toTranslate := PendingIds(sums);
    var translated := TranslateInBatches(cfg, env, sums, toTranslate);
    assert translated.Keys <= sums.Keys by {
      forall id | id in translated ensures id in sums { CollectedHas(sums, Attempts(cfg, env, sums), toTranslate, id); }
    }
    ghost var att := Attempts(cfg, env, sums);
    assert forall x :: x in toTranslate ==> x in sums && x in att && "en" in sums[x];
    r := KeepTranslated(sums, translated);
    ghost var m := TranslatedSummaries(cfg, env, sums);
    forall id ensures (id in r <==> id in m) && (id in r ==> r[id] == m[id]) {
      SummaryAt(cfg, env, sums, id);
      if id in sums {
        CollectedHas(sums, att, toTranslate, id);
      }
    }
    MapsEqual(r, m);
  }

  /** One entry of the intended merge: it is there when it is translated or
      already has a "vi" key, and holds the translation when there is one. */
  lemma SummaryAt(cfg: Settings, env: Env, sums: map<string, LangDict>, id: string)
    ensures id in TranslatedSummaries(cfg, env, sums) <==>
      id in sums && ((Pending(sums[id]) && Truthy(Attempt(cfg, env, sums[id]))) || "vi" in sums[id])
    ensures id in TranslatedSummaries(cfg, env, sums) ==>
      TranslatedSummaries(cfg, env, sums)[id] ==
        if Pending(sums[id]) && Truthy(Attempt(cfg, env, sums[id]))
        then map["en" := sums[id]["en"], "vi" := Attempt(cfg, env, sums[id])]
        else sums[id]
  {
    var sent := set k | k in sums && Pending(sums[k]);
    assert id in sums ==> (id in sent <==> Pending(sums[id]));
  }

  // ------------------------------------------------------------ RAG results

  /** The in-place fill of one overview or explanation dict. */
  function FillEntry(cfg: Settings, env: Env, e: LangDict): (r: LangDict)
    ensures "vi" in e ==> r == e
    ensures r.Keys == e.Keys || r.Keys == e.Keys + {"vi"}
    ensures forall k :: k in e && k != "vi" ==> k in r && r[k] == e[k]
    ensures r != e ==> PendingAsWritten(e) && r == e["vi" := Attempt(cfg, env, e)] && Truthy(r["vi"])
  {
    var a := Attempt(cfg, env, e);
    if PendingAsWritten(e) && Truthy(a) then
      assert e["vi" := a].Keys == e.Keys + {"vi"};
      e["vi" := a]
    else e
  }

  /** What the stage leaves in `rag_results`. */
  function TranslatedRag(cfg: Settings, env: Env, rag: RagResults): (r: RagResults)
    ensures r.collection_name == rag.collection_name
    ensures r.module_explanations.Keys == rag.module_explanations.Keys
  {
    rag.(architectural_overview := FillEntry(cfg, env, rag.architectural_overview),
         module_explanations := map p | p in rag.module_explanations :: FillEntry(cfg, env, rag.module_explanations[p]))
  }

  /** Filling is idempotent: a second pass changes nothing more. */
  lemma FillIdempotent(cfg: Settings, env: Env, e: LangDict)
    ensures FillEntry(cfg, env, FillEntry(cfg, env, e)) == FillEntry(cfg, env, e)
  {
  }

  /** The loop over `module_explanations.items()`. */
  method FillExplanations(cfg: Settings, env: Env, ex: map<string, LangDict>) returns (r: map<string, LangDict>)
    ensures r.Keys == ex.Keys
    ensures forall p :: p in r ==> r[p] == FillEntry(cfg, env, ex[p])
  {
    r := map[];
    var left := ex.Keys;
    while left != {}
      invariant left <= ex.Keys
      invariant r.Keys == ex.Keys - left
      invariant forall p :: p in r ==> r[p] == FillEntry(cfg, env, ex[p])
      decreases left
    {
      var p :| p in left;
      var e := FillOne(cfg, env, ex[p]);
      r := r[p := e];
      left := left - {p};
    }
  }

  /** One pass of that loop, and the fill of the overview: the English text
      is translated when "vi" is missing, and kept only when it came back. */
  method FillOne(cfg: Settings, env: Env, e0: LangDict) returns (e: LangDict)
    ensures e == FillEntry(cfg, env, e0)
  {
    e := e0;
    if "en" in e && "vi" !in e {
      var vi := TranslateText(cfg, env, e["en"]);
      if Truthy(vi) {
        e := e["vi" := vi];
      }
    }
  }

  // ------------------------------------------------------------------ stage

  /** The `translations` dict: a part is present only when it ran. */
  function TranslationsOf(cfg: Settings, env: Env, f: Fields): Translations
  {
    var sums := GetSummaries(f);
    var rag := GetRag(f);
    Translations(
      if sums.Some? && |sums.value| > 0 then Some(TranslatedSummaries(cfg, env, sums.value)) else None,
      if rag.Some? then Some(TranslatedRag(cfg, env, rag.value)) else None)
  }

  /** Where the stage writes its results. */
  function Stored(s: State, t: Translations): (r: State)
    ensures r.fields.Keys == s.fields.Keys + {"translations", "current_stage"}
      + (if t.rag_results.Some? then {"rag_results"} else {})
    ensures r.fields["translations"] == Translated(t) && r.fields["current_stage"] == Str(Stage)
    ensures t.rag_results.Some? ==> r.fields["rag_results"] == Rag(t.rag_results.value)
    ensures forall k :: k in s.fields && k !in {"translations", "current_stage", "rag_results"} ==>
      r.fields[k] == s.fields[k]
    ensures r.messages == s.messages && r.errors == s.errors
  {
    var s2 := if t.rag_results.Some? then Put(s, "rag_results", Rag(t.rag_results.value)) else s;
    Put(Put(s2, "translations", Translated(t)), "current_stage", Str(Stage))
  }

  /** `_execute` */
  function Logic(s: State, cfg: Settings, env: Env): Step
  {
    if "VI" !in cfg.output_languages then Step(s, Returned)
    else
      var s1 := Added(s, Name, Info, StartText, env.clock);
      var s3 := Stored(s1, TranslationsOf(cfg, env, s.fields));
      Step(Added(s3, Name, Success, DoneText, env.clock), Returned)
  }

  /** What the stage leaves after storing `t`: `translations` and the
      stage name are set, the updated `rag_results` is written back when
      there is one, and every other field is kept. */
  predicate Stores(s: State, r: State, t: Translations)
  {
    && "translations" in r.fields && r.fields["translations"] == Translated(t)
    && "current_stage" in r.fields && r.fields["current_stage"] == Str(Stage)
    && (t.rag_results.Some? ==> "rag_results" in r.fields && r.fields["rag_results"] == Rag(t.rag_results.value))
    && (forall k :: k in s.fields && k !in {"translations", "current_stage", "rag_results"} ==>
          k in r.fields && r.fields[k] == s.fields[k])
  }

  /** The stage always returns. Without Vietnamese it leaves the state
      untouched; with it, `translations` and the updated `rag_results` are
      the same value and no other field but `current_stage` changes. */
  lemma LogicResult(s: State, cfg: Settings, env: Env)
    ensures var step := Logic(s, cfg, env);
      && step.outcome == Returned
      && AppendsOnly(s, step.state, Name)
      && ("VI" !in cfg.output_languages ==> step.state == s)
      && ("VI" in cfg.output_languages ==> Stores(s, step.state, TranslationsOf(cfg, env, s.fields)))
  {
    if "VI" in cfg.output_languages {
      var t := TranslationsOf(cfg, env, s.fields);
      StoredAppends(s, t, env.clock);
      assert Logic(s, cfg, env).state == Added(Stored(Added(s, Name, Info, StartText, env.clock), t), Name, Success, DoneText, env.clock);
    }
  }

  /** The stage's messages around storing any translations `t`: only its
      own messages are added, and the fields are those `Stored` writes. */
  lemma StoredAppends(s: State, t: Translations, clock: nat -> string)
    ensures var r := Added(Stored(Added(s, Name, Info, StartText, clock), t), Name, Success, DoneText, clock);
      AppendsOnly(s, r, Name) && Stores(s, r, t)
  {
    var s1 := Added(s, Name, Info, StartText, clock);
    var s3 := Stored(s1, t);
    AddedAppends(s, s, Name, Info, StartText, clock);
    assert AppendsOnly(s, s3, Name);
    AddedAppends(s, s3, Name, Success, DoneText, clock);
  }

  /** `_execute` on the shared state. */
  method Run(st: WorkflowState, cfg: Settings, env: Env) returns (o: Outcome)
    modifies st
    ensures Step(st.Snapshot(), o) == Logic(old(st.Snapshot()), cfg, env)
  {
    if "VI" !in cfg.output_languages {
      return Returned;
    }
    var f0 := st.fields;
    st.AddMessage(Name, Info, StartText, env.clock);
    var summaries: Option<map<string, LangDict>> := None;
    var got := GetSummaries(f0);
    if got.Some? && |got.value| > 0 {
      var translated := TranslateSummaries(cfg, env, got.value);
      summaries := Some(translated);
    }
    var rag := GetRag(f0);
    var ragOut: Option<RagResults> := None;
    if rag.Some? {
      var overview := FillOne(cfg, env, rag.value.architectural_overview);
      var explanations := FillExplanations(cfg, env, rag.value.module_explanations);
      MapsEqual(explanations, TranslatedRag(cfg, env, rag.value).module_explanations);
      var updated := rag.value.(architectural_overview := overview, module_explanations := explanations);
      st.Set("rag_results", Rag(updated));
      ragOut := Some(updated);
    }
    st.Set("translations", Translated(Translations(summaries, ragOut)));
    st.Set("current_stage", Str(Stage));
    st.AddMessage(Name, Success, DoneText, env.clock);
    return Returned;
  }
}
