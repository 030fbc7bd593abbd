/** Reading a model reply that is organised under two headings, one for
    the English text and one for the Vietnamese text. The summarizer
    (autodocai/agents/summarizer_agent.py:199-228) and the RAG agent's
    overview and explanation parsers (autodocai/agents/rag_query_agent.py:393-413
    and 537-557) apply the same rule with their own headings. */
module Sections {
  import opened Wrappers
  import opened Text
  import opened States

  /** The headings the prompts ask for: "## " and a word free of "#" that
      ends in a visible character. */
  predicate Heading(h: string)
  {
    |h| >= 3 && h[0] == '#' && h[1] == '#' && h[2] == ' '
    && '#' !in h[2..] && !IsSpace(h[|h| - 1])
  }

  /** An English and a Vietnamese heading of one family, such as
      "## SUMMARY_EN" and "## SUMMARY_VI". */
  predicate HeadingPair(en: string, vi: string)
  {
    Heading(en) && Heading(vi) && |en| == |vi| && en != vi
  }

  /** The headings a prompt requests: always the English one, and the
      Vietnamese one only when "VI" is an output language. */
  function RequestedSections(languages: seq<string>, en: string, vi: string): (r: seq<string>)
    ensures |r| >= 1 && r[0] == en
    ensures vi in r <==> vi == en || "VI" in languages
  {
    [en] + (if "VI" in languages then [vi] else [])
  }

  /** The English text: after the English heading and before any
      Vietnamese heading, or the whole reply when it has no English heading. */
  function EnglishPart(content: string, en: string, vi: string): (r: string)
    requires en != [] && vi != []
    ensures IsStripped(r)
    ensures !Contains(content, en) ==> r == Strip(content)
    ensures Contains(content, en) ==> !Contains(r, en) && !Contains(r, vi)
  {
    if Contains(content, en) then
      StripKeepsAbsence(After(content, en), en);
      CutAt(Strip(After(content, en)), en, vi)
    else Strip(content)
  }

  /** The stripped text before the Vietnamese heading, if there is one. */
  function CutAt(part: string, en: string, vi: string): (r: string)
    requires vi != [] && IsStripped(part)
    ensures IsStripped(r) && !Contains(r, vi)
    ensures !Contains(part, en) ==> !Contains(r, en)
  {
    if Contains(part, vi) then
      var before := Before(part, vi);
      BeforeKeepsAbsence(part, vi, en);
      StripKeepsAbsence(before, en);
      StripKeepsAbsence(before, vi);
      Strip(before)
    else part
  }

  lemma BeforeKeepsAbsence(part: string, vi: string, en: string)
    requires vi != [] && Contains(part, vi)
    ensures !Contains(part, en) ==> !Contains(Before(part, vi), en)
  {
    BeforeAt(part, vi, Find(part, vi).value);
    if !Contains(part, en) {
      InfixKeepsAbsence(part, 0, |Before(part, vi)|, en);
    }
  }

  /** The parsed reply: "en" always, "vi" exactly when the Vietnamese
      heading occurs, both trimmed. */
  function ParseSections(content: string, en: string, vi: string): (d: LangDict)
    requires en != [] && vi != []
    ensures d.Keys == {"en"} + (if Contains(content, vi) then {"vi"} else {})
    ensures d["en"] == Some(EnglishPart(content, en, vi))
    ensures "vi" in d ==> d["vi"] == Some(Strip(After(content, vi))) && !Contains(d["vi"].value, vi)
  {
    var d := map["en" := Some(EnglishPart(content, en, vi))];
    if Contains(content, vi) then
      StripKeepsAbsence(After(content, vi), vi);
      d["vi" := Some(Strip(After(content, vi)))]
    else d
  }

  /** A heading is not found in text that has no "#". */
  lemma HeadingAbsent(s: string, h: string)
    requires Heading(h) && '#' !in s
    ensures !Contains(s, h)
  {
    FirstCharAbsent(s, h);
  }

  /** A heading `h` does not occur anywhere in `u + m + w` when `u` and `w`
      have no "#" and `m` is the other heading of its pair. */
  lemma HeadingOnlyOther(u: string, m: string, w: string, h: string)
    requires HeadingPair(h, m) || HeadingPair(m, h)
    requires '#' !in u && '#' !in w
    ensures !Contains(u + m + w, h)
  {
    var s := u + m + w;
    forall j: nat ensures !OccursAt(s, h, j) {
      if j + |h| <= |s| {
        if j < |u| {
          assert s[j] == u[j];
          assert s[j..j + |h|][0] == s[j];
        } else if j == |u| {
          assert s[j..j + |h|] == m;
        } else if j == |u| + 1 {
          assert s[j + 1] == m[2];
          assert s[j..j + |h|][1] == s[j + 1];
        } else if j < |u| + |m| {
          assert s[j] == m[j - |u|];
          assert m[j - |u|] in m[2..] by { assert m[2..][j - |u| - 2] == m[j - |u|]; }
          assert s[j..j + |h|][0] == s[j];
        } else {
          assert s[j] == w[j - |u| - |m|];
          assert s[j..j + |h|][0] == s[j];
        }
      }
    }
    NowhereNotContained(s, h);
  }

  /** The Vietnamese heading first occurs right after the English section. */
  lemma FindSecondHeading(en: string, a: string, vi: string, b: string)
    requires HeadingPair(en, vi) && '#' !in a
    ensures Find(en + a + vi + b, vi) == Some(|en| + |a|)
  {
    var s := en + a + vi + b;
    assert s[|en| + |a|..|en| + |a| + |vi|] == vi;
    OccursAtContains(s, vi, |en| + |a|);
    forall j: nat | j < |en| + |a| ensures !OccursAt(s, vi, j) {
      if j + |vi| <= |s| {
        if j == 0 {
          assert s[0..|vi|] == en;
        } else if j == 1 {
          assert s[2] == en[2];
          assert s[j..j + |vi|][1] == s[2];
        } else if j < |en| {
          assert s[j] == en[j];
          assert en[j] in en[2..] by { assert en[2..][j - 2] == en[j]; }
          assert s[j..j + |vi|][0] == s[j];
        } else {
          assert s[j] == a[j - |en|];
          assert s[j..j + |vi|][0] == s[j];
        }
      }
    }
  }

  /** The text after the English heading of a reply in the requested format. */
  lemma AfterEnglish(en: string, vi: string, a: string, b: string)
    requires HeadingPair(en, vi) && '#' !in a && '#' !in b
    ensures Contains(en + a + vi + b, en) && After(en + a + vi + b, en) == a + vi + b
  {
    var s := en + a + vi + b;
    assert s[0..|en|] == en;
    OccursAtContains(s, en, 0);
    assert s[|en|..] == a + vi + b;
    HeadingOnlyOther(a, vi, b, en);
    AfterAllRest(s, en, 0);
  }

  /** Cutting the rest of a requested reply at the Vietnamese heading. */
  lemma CutReply(ta: string, en: string, vi: string, tb: string)
    requires Heading(vi) && '#' !in ta && IsStripped(ta + vi + tb)
    ensures CutAt(ta + vi + tb, en, vi) == Strip(ta)
  {
    var part := ta + vi + tb;
    FindPart(ta, vi, tb);
    BeforeAt(part, vi, |ta|);
    assert part[..|ta|] == ta;
  }

  /** The English entry of a reply in the requested format. */
  lemma EnglishOfReply(en: string, vi: string, a: string, b: string)
    requires HeadingPair(en, vi) && '#' !in a && '#' !in b
    ensures EnglishPart(en + a + vi + b, en, vi) == Strip(a)
  {
    AfterEnglish(en, vi, a, b);
    StripAround(a, vi, b);
    CharAbsentTrimmed(a, '#');
    CutReply(TrimLeft(a), en, vi, TrimRight(b));
    TrimLeftTwice(a);
  }

  /** The text after the Vietnamese heading of a reply in the requested format. */
  lemma AfterVietnamese(en: string, vi: string, a: string, b: string)
    requires HeadingPair(en, vi) && '#' !in a && '#' !in b
    ensures Contains(en + a + vi + b, vi) && After(en + a + vi + b, vi) == b
  {
    var s := en + a + vi + b;
    FindSecondHeading(en, a, vi, b);
    assert s[|en| + |a| + |vi|..] == b;
    HeadingAbsent(b, vi);
    AfterAllRest(s, vi, |en| + |a|);
  }

  /** The reply format the prompts request reads back as what was put under
      each heading, trimmed. */
  lemma ParseRequestedReply(en: string, vi: string, a: string, b: string)
    requires HeadingPair(en, vi) && '#' !in a && '#' !in b
    ensures ParseSections(en + a + vi + b, en, vi) == map["en" := Some(Strip(a)), "vi" := Some(Strip(b))]
  {
    EnglishOfReply(en, vi, a, b);
    AfterVietnamese(en, vi, a, b);
    ParseBoth(en + a + vi + b, en, vi);
  }

  lemma ParseBoth(content: string, en: string, vi: string)
    requires en != [] && vi != [] && Contains(content, vi)
    ensures ParseSections(content, en, vi)
      == map["en" := Some(EnglishPart(content, en, vi)), "vi" := Some(Strip(After(content, vi)))]
  {
  }

  /** In `p + vi + q` with no "#" in `p`, the heading is first found at |p|. */
  lemma FindPart(p: string, vi: string, q: string)
    requires Heading(vi) && '#' !in p
    ensures Find(p + vi + q, vi) == Some(|p|)
  {
    var s := p + vi + q;
    assert s[|p|..|p| + |vi|] == vi;
    OccursAtContains(s, vi, |p|);
    forall j: nat | j < |p| ensures !OccursAt(s, vi, j) {
      if j + |vi| <= |s| {
        assert s[j] == p[j];
        assert s[j..j + |vi|][0] == s[j];
      }
    }
  }

  /** The text after the English heading of a reply with no Vietnamese part. */
  lemma AfterEnglishOnly(en: string, vi: string, a: string)
    requires HeadingPair(en, vi) && '#' !in a
    ensures Contains(en + a, en) && After(en + a, en) == a && !Contains(en + a, vi)
  {
    var s := en + a;
    assert s[0..|en|] == en;
    OccursAtContains(s, en, 0);
    assert s[|en|..] == a;
    HeadingAbsent(a, en);
    AfterAllRest(s, en, 0);
    HeadingOnlyOther([], en, a, vi);
    assert [] + en + a == s;
  }

  /** A reply with only the English section reads back as that section. */
  lemma ParseEnglishOnlyReply(en: string, vi: string, a: string)
    requires HeadingPair(en, vi) && '#' !in a
    ensures ParseSections(en + a, en, vi) == map["en" := Some(Strip(a))]
  {
    AfterEnglishOnly(en, vi, a);
    HeadingAbsent(a, vi);
    StripKeepsAbsence(a, vi);
    assert CutAt(Strip(a), en, vi) == Strip(a);
    assert EnglishPart(en + a, en, vi) == Strip(a);
    ParseEnglishOnly(en + a, en, vi);
  }

  lemma ParseEnglishOnly(content: string, en: string, vi: string)
    requires en != [] && vi != [] && !Contains(content, vi)
    ensures ParseSections(content, en, vi) == map["en" := Some(EnglishPart(content, en, vi))]
  {
  }
}
