/** autodocai/repo_manager/github_repo.py: the clone URL, the repository name
    taken from the URL, the language ranking and the README description. The
    clone itself, the directory walk and the README files are inputs. */
module GitHubRepo {
  import opened Wrappers
  import opened Text
  import opened Schemas

  // ------------------------------------------------------------- clone URL

  /** The URL handed to git: with a token and an "https://" URL, every
      "https://" gets the token as user name. */
  function CloneUrl(repoUrl: string, pat: Option<string>): (r: string)
    ensures !(Truthy(pat) && Contains(repoUrl, "https://")) ==> r == repoUrl
  {
    if Truthy(pat) && Contains(repoUrl, "https://") then Replace(repoUrl, "https://", "https://" + pat.value + "@")
    else repoUrl
  }

  /** For an ordinary "https://" URL the token lands right after the scheme. */
  lemma CloneUrlInsertsToken(rest: string, pat: string)
    requires pat != "" && !Contains(rest, "https://")
    ensures CloneUrl("https://" + rest, Some(pat)) == "https://" + pat + "@" + rest
  {
    ReplaceLeading("https://", rest, "https://" + pat + "@");
  }

  // ---------------------------------------------------- repository name

  /** The two patterns `_extract_repo_name` tries, in order:
      `github\.com[/:]([^/]+)/([^/.]+)(?:\.git)?$` and
      `github\.com[/:]([^/]+)/([^/.]+)/?$`. */
  datatype Pattern = WithGitSuffix | WithSlashSuffix

  function RepoRun(t: string): (n: nat)
    ensures n <= |t|
    ensures forall k :: 0 <= k < n ==> t[k] != '/' && t[k] != '.'
    ensures n < |t| ==> t[n] == '/' || t[n] == '.'
  {
    if t == [] || t[0] == '/' || t[0] == '.' then 0 else 1 + RepoRun(t[1..])
  }

  /** What may follow the repository group before `$`, which matches at the
      end or just before a final newline. */
  predicate TailMatches(p: Pattern, tail: string)
  {
    match p
    case WithGitSuffix => tail == "" || tail == ".git" || tail == ".git\n"
    case WithSlashSuffix => tail == "" || tail == "/" || tail == "/\n"
  }

  /** The match of a pattern starting at position `i`, as (user, repo). The
      user group runs to the next "/" (it cannot contain one) and the
      repository group is the longest run without "/" or ".". */
  function MatchAt(s: string, i: nat, p: Pattern): (r: Option<(string, string)>)
    ensures r.Some? ==> OccursAt(s, "github.com", i)
    ensures r.Some? ==> r.value.0 != "" && r.value.1 != "" && '/' !in r.value.1
  {
    if i + 11 <= |s| && s[i..i + 10] == "github.com" && (s[i + 10] == '/' || s[i + 10] == ':') then
      var rest := s[i + 11..];
      match Find(rest, "/")
      case None => None
      case Some(j) =>
        var t := rest[j + 1..];
        var n := RepoRun(t);
        if j > 0 && n > 0 && TailMatches(p, t[n..]) then Some((rest[..j], t[..n])) else None
    else None
  }

  /** `re.search`: the match at the leftmost position that has one. */
  function SearchFrom(s: string, i: nat, p: Pattern): (r: Option<(string, string)>)
    requires i <= |s|
    decreases |s| - i
  {
    if MatchAt(s, i, p).Some? then MatchAt(s, i, p)
    else if i == |s| then None
    else SearchFrom(s, i + 1, p)
  }

  function Search(s: string, p: Pattern): Option<(string, string)>
  {
    SearchFrom(s, 0, p)
  }

  /** `_extract_repo_name`: "{user}_{repo}" from the first pattern that
      matches, or "" when neither does. */
  function ExtractRepoName(url: string): string
  {
    match Search(url, WithGitSuffix)
    case Some((u, r)) => u + "_" + r
    case None =>
      match Search(url, WithSlashSuffix)
      case Some((u, r)) => u + "_" + r
      case None => ""
  }

  lemma {:induction false} SearchNoneWithoutHost(s: string, i: nat, p: Pattern)
    requires i <= |s|
    requires forall k: nat :: i <= k ==> !OccursAt(s, "github.com", k)
    ensures SearchFrom(s, i, p) == None
    decreases |s| - i
  {
    if i < |s| {
      SearchNoneWithoutHost(s, i + 1, p);
    }
  }

  /** A URL that does not mention github.com has no repository name. */
  lemma NotGitHub(url: string)
    requires !Contains(url, "github.com")
    ensures ExtractRepoName(url) == ""
  {
    forall k: nat ensures !OccursAt(url, "github.com", k) {
      if OccursAt(url, "github.com", k) {
        OccursAtContains(url, "github.com", k);
      }
    }
    SearchNoneWithoutHost(url, 0, WithGitSuffix);
    SearchNoneWithoutHost(url, 0, WithSlashSuffix);
  }

  /** The URLs the manager is meant for: a scheme or user part without dots,
      the host, "/" or ":", a user and a repository name without dots or
      slashes, then nothing, ".git" or "/". */
  predicate DotFree(x: string)
  {
    '.' !in x && '/' !in x
  }

  predicate UsualSuffix(suffix: string)
  {
    suffix == "" || suffix == ".git" || suffix == "/"
  }

  function GitHubUrl(prefix: string, sep: char, user: string, repo: string, suffix: string): string
  {
    prefix + "github.com" + [sep] + user + "/" + repo + suffix
  }

  /** For such a URL the name is "{user}_{repo}", whichever suffix it has. */
  lemma RepoNameOfUrl(prefix: string, sep: char, user: string, repo: string, suffix: string)
    requires '.' !in prefix && (sep == '/' || sep == ':')
    requires user != "" && DotFree(user) && repo != "" && DotFree(repo) && UsualSuffix(suffix)
    ensures ExtractRepoName(GitHubUrl(prefix, sep, user, repo, suffix)) == user + "_" + repo
  {
    var s := GitHubUrl(prefix, sep, user, repo, suffix);
    var h := |prefix|;
    HostOnlyAt(prefix, sep, user, repo, suffix);
    MatchAtHost(prefix, sep, user, repo, suffix);
    SearchSkipsToHost(s, 0, h, WithGitSuffix);
    SearchSkipsToHost(s, 0, h, WithSlashSuffix);
    if suffix == "/" {
      assert MatchAt(s, h, WithGitSuffix) == None;
      SearchNoneWithoutHost(s, h + 1, WithGitSuffix);
      assert SearchFrom(s, h, WithGitSuffix) == None;
    }
  }

  /** Where each character of such a URL comes from. */
  lemma UrlLayout(prefix: string, sep: char, user: string, repo: string, suffix: string)
    ensures var s := GitHubUrl(prefix, sep, user, repo, suffix); var h := |prefix|;
      var a := h + 12 + |user| + |repo|;
      && |s| == a + |suffix|
      && (forall d :: 0 <= d < h ==> s[d] == prefix[d])
      && (forall d :: h <= d < h + 10 ==> s[d] == "github.com"[d - h])
      && s[h + 10] == sep
      && (forall d :: h + 11 <= d < h + 11 + |user| ==> s[d] == user[d - h - 11])
      && s[h + 11 + |user|] == '/'
      && (forall d :: h + 12 + |user| <= d < a ==> s[d] == repo[d - h - 12 - |user|])
      && (forall d :: a <= d < |s| ==> s[d] == suffix[d - a])
  {
  }

  /** "github.com" occurs in such a URL only where the prefix ends. */
  lemma HostOnlyAt(prefix: string, sep: char, user: string, repo: string, suffix: string)
    requires '.' !in prefix && (sep == '/' || sep == ':')
    requires DotFree(user) && DotFree(repo) && UsualSuffix(suffix)
    ensures forall k: nat :: k != |prefix| ==> !OccursAt(GitHubUrl(prefix, sep, user, repo, suffix), "github.com", k)
  {
    var s := GitHubUrl(prefix, sep, user, repo, suffix);
    var a := |prefix| + 12 + |user| + |repo|;
    UrlLayout(prefix, sep, user, repo, suffix);
    assert ".git"[0] == '.' && ".git"[1] == 'g' && "/"[0] == '/';
    forall k: nat | k != |prefix| ensures !OccursAt(s, "github.com", k) {
      if k + 10 <= |s| {
        assert s[k + 6] != '.' || s[k + 7] != 'c';
        assert "github.com"[6] == '.' && "github.com"[7] == 'c';
      }
    }
  }

  /** The match at a host whose remainder is "{user}/{t}". */
  lemma MatchAtOf(s: string, i: nat, user: string, t: string, p: Pattern)
    requires i + 11 <= |s| && s[i..i + 10] == "github.com" && (s[i + 10] == '/' || s[i + 10] == ':')
    requires s[i + 11..] == user + "/" + t && user != [] && '/' !in user
    ensures MatchAt(s, i, p)
      == (if RepoRun(t) > 0 && TailMatches(p, t[RepoRun(t)..]) then Some((user, t[..RepoRun(t)])) else None)
  {
    var rest := s[i + 11..];
    assert rest == user + ['/'] + t;
    FindAfterPrefix(user, '/', t);
    assert rest[..|user|] == user;
    assert rest[|user| + 1..] == t;
  }

  /** At the host the first pattern gives (user, repo) unless the URL ends in
      "/", where only the second one does. */
  lemma MatchAtHost(prefix: string, sep: char, user: string, repo: string, suffix: string)
    requires sep == '/' || sep == ':'
    requires user != "" && DotFree(user) && repo != "" && DotFree(repo) && UsualSuffix(suffix)
    ensures MatchAt(GitHubUrl(prefix, sep, user, repo, suffix), |prefix|, WithGitSuffix)
      == (if suffix == "/" then None else Some((user, repo)))
    ensures MatchAt(GitHubUrl(prefix, sep, user, repo, suffix), |prefix|, WithSlashSuffix)
      == (if suffix == ".git" then None else Some((user, repo)))
  {
    var s := GitHubUrl(prefix, sep, user, repo, suffix);
    var h := |prefix|;
    var t := repo + suffix;
    assert s == prefix + "github.com" + [sep] + (user + "/" + t);
    assert s[h..h + 10] == "github.com";
    assert s[h + 11..] == user + "/" + t;
    RepoRunOf(repo, suffix);
    assert t[..|repo|] == repo && t[|repo|..] == suffix;
    MatchAtOf(s, h, user, t, WithGitSuffix);
    MatchAtOf(s, h, user, t, WithSlashSuffix);
  }

  lemma {:induction false} RepoRunOf(repo: string, suffix: string)
    requires DotFree(repo) && (suffix == [] || suffix[0] == '/' || suffix[0] == '.')
    ensures RepoRun(repo + suffix) == |repo|
    decreases |repo|
  {
    if repo != [] {
      assert (repo + suffix)[1..] == repo[1..] + suffix;
      RepoRunOf(repo[1..], suffix);
    } else {
      assert repo + suffix == suffix;
    }
  }

  lemma {:induction false} SearchSkipsToHost(s: string, i: nat, h: nat, p: Pattern)
    requires i <= h <= |s|
    requires forall k: nat :: i <= k < h ==> !OccursAt(s, "github.com", k)
    ensures SearchFrom(s, i, p) == SearchFrom(s, h, p)
    decreases h - i
  {
    if i < h {
      assert MatchAt(s, i, p) == None;
      SearchSkipsToHost(s, i + 1, h, p);
    }
  }

  /** The two URL shapes the manager documents, as instances. */
  lemma HttpsAndSshNames(user: string, repo: string)
    requires user != "" && DotFree(user) && repo != "" && DotFree(repo)
    ensures ExtractRepoName("https://github.com/" + user + "/" + repo + ".git") == user + "_" + repo
    ensures ExtractRepoName("git@github.com:" + user + "/" + repo + ".git") == user + "_" + repo
  {
    assert "https://github.com/" + user + "/" + repo + ".git" == GitHubUrl("https://", '/', user, repo, ".git");
    assert "git@github.com:" + user + "/" + repo + ".git" == GitHubUrl("git@", ':', user, repo, ".git");
    assert '.' !in "https://" && '.' !in "git@";
    RepoNameOfUrl("https://", '/', user, repo, ".git");
    RepoNameOfUrl("git@", ':', user, repo, ".git");
  }

  // ------------------------------------------------------------ languages

  /** `os.path.splitext(name)[1]` for a bare file name: from the last ".",
      unless only dots come before it. */
  function Extension(name: string): (ext: string)
    ensures ext == "" || (StartsWith(ext, ".") && EndsWith(name, ext))
  {
    match LastDot(name, |name|)
    case None => ""
    case Some(d) =>
      if exists k :: 0 <= k < d && name[k] != '.' then name[d..] else ""
  }

  function LastDot(s: string, n: nat): (r: Option<nat>)
    requires n <= |s|
    ensures r.Some? ==> r.value < n && s[r.value] == '.'
    ensures r.Some? ==> forall k :: r.value < k < n ==> s[k] != '.'
    ensures r.None? ==> forall k :: 0 <= k < n ==> s[k] != '.'
  {
    if n == 0 then None else if s[n - 1] == '.' then Some(n - 1) else LastDot(s, n - 1)
  }

  /** The fifteen-entry extension table. */
  function LanguageOf(ext: string): Option<string>
  {
    if ext == ".py" then Some("Python")
    else if ext == ".js" || ext == ".jsx" then Some("JavaScript")
    else if ext == ".ts" || ext == ".tsx" then Some("TypeScript")
    else if ext == ".java" then Some("Java")
    else if ext == ".c" then Some("C")
    else if ext == ".cpp" then Some("C++")
    else if ext == ".cs" then Some("C#")
    else if ext == ".go" then Some("Go")
    else if ext == ".rb" then Some("Ruby")
    else if ext == ".php" then Some("PHP")
    else if ext == ".swift" then Some("Swift")
    else if ext == ".kt" then Some("Kotlin")
    else if ext == ".rs" then Some("Rust")
    else None
  }

  /** One step of `os.walk`: a directory and the names of the files in it. */
  datatype WalkEntry = WalkEntry(root: string, files: seq<string>)

  /** The language of each counted file, in walk order; directories whose
      path contains ".git" (which includes ".github") are skipped. */
  function FileLanguages(walk: seq<WalkEntry>): seq<string>
  {
    if walk == [] then []
    else
      var prev := FileLanguages(walk[..|walk| - 1]);
      var e := walk[|walk| - 1];
      if Contains(e.root, ".git") then prev else prev + EntryLanguages(e.files)
  }

  function EntryLanguages(files: seq<string>): seq<string>
  {
    if files == [] then []
    else
      var prev := EntryLanguages(files[..|files| - 1]);
      match LanguageOf(Extension(files[|files| - 1]))
      case None => prev
      case Some(l) => prev + [l]
  }

  /** `language_count`: how many files each language has, and the order in
      which the languages were first seen (the dict's insertion order). */
  function Tally(langs: seq<string>): (r: (map<string, nat>, seq<string>))
  {
    if langs == [] then (map[], [])
    else
      var (counts, order) := Tally(langs[..|langs| - 1]);
      var l := langs[|langs| - 1];
      (counts[l := (if l in counts then counts[l] else 0) + 1], if l in counts then order else order + [l])
  }

  function Occurrences(langs: seq<string>, l: string): nat
  {
    if langs == [] then 0
    else Occurrences(langs[..|langs| - 1], l) + (if langs[|langs| - 1] == l then 1 else 0)
  }

  /** The tally counts every language exactly, lists each counted language
      once, and lists nothing else. */
  lemma {:induction false} TallyExact(langs: seq<string>)
    ensures forall l :: l in Tally(langs).0 <==> l in langs
    ensures forall l :: l in Tally(langs).0 ==> Tally(langs).0[l] == Occurrences(langs, l) >= 1
    ensures forall l :: l in Tally(langs).1 <==> l in Tally(langs).0
    ensures NoDuplicates(Tally(langs).1)
    decreases |langs|
  {
    if langs != [] {
      var init := langs[..|langs| - 1];
      var last := langs[|langs| - 1];
      TallyExact(init);
      assert langs == init + [last];
      forall l ensures l in langs <==> l in init || l == last {
      }
      forall l | l in Tally(langs).0 ensures Tally(langs).0[l] == Occurrences(langs, l) >= 1 {
        assert Occurrences(langs, l) == Occurrences(init, l) + (if last == l then 1 else 0);
        if l !in init {
          OccurrencesAbsent(init, l);
        }
      }
    }
  }

  lemma {:induction false} OccurrencesAbsent(langs: seq<string>, l: string)
    requires l !in langs
    ensures Occurrences(langs, l) == 0
    decreases |langs|
  {
    if langs != [] {
      OccurrencesAbsent(langs[..|langs| - 1], l);
    }
  }

  predicate NoDuplicates(s: seq<string>)
  {
    forall i, j :: 0 <= i < j < |s| ==> s[i] != s[j]
  }

  /** Insert `x` after every entry with at least its count. */
  function InsertByCount(x: string, s: seq<string>, counts: map<string, nat>): (r: seq<string>)
    requires x in counts && forall k :: 0 <= k < |s| ==> s[k] in counts
    ensures multiset(r) == multiset(s) + multiset{x}
    ensures forall k :: 0 <= k < |r| ==> r[k] in counts
  {
    if s == [] then [x]
    else if counts[s[0]] >= counts[x] then
      var rest := InsertByCount(x, s[1..], counts);
      assert s == [s[0]] + s[1..];
      [s[0]] + rest
    else [x] + s
  }

  /** `sorted(language_count.items(), key=count, reverse=True)`: Python's
      sort is stable also when reversed, so equal counts keep first-seen
      order. */
  function RankByCount(order: seq<string>, counts: map<string, nat>): (r: seq<string>)
    requires forall k :: 0 <= k < |order| ==> order[k] in counts
    ensures multiset(r) == multiset(order)
    ensures forall k :: 0 <= k < |r| ==> r[k] in counts
  {
    if order == [] then []
    else
      var init := order[..|order| - 1];
      assert order == init + [order[|order| - 1]];
      InsertByCount(order[|order| - 1], RankByCount(init, counts), counts)
  }

  predicate Descending(s: seq<string>, counts: map<string, nat>)
    requires forall k :: 0 <= k < |s| ==> s[k] in counts
  {
    forall i, j :: 0 <= i < j < |s| ==> counts[s[i]] >= counts[s[j]]
  }

  /** The entries with count `v`, in order. */
  function WithCount(s: seq<string>, counts: map<string, nat>, v: nat): seq<string>
    requires forall k :: 0 <= k < |s| ==> s[k] in counts
  {
    if s == [] then []
    else (if counts[s[0]] == v then [s[0]] else []) + WithCount(s[1..], counts, v)
  }

  lemma {:induction false} InsertBounded(x: string, s: seq<string>, counts: map<string, nat>, b: nat)
    requires x in counts && forall k :: 0 <= k < |s| ==> s[k] in counts
    requires counts[x] <= b && forall k :: 0 <= k < |s| ==> counts[s[k]] <= b
    ensures forall k :: 0 <= k < |InsertByCount(x, s, counts)| ==> counts[InsertByCount(x, s, counts)[k]] <= b
    decreases |s|
  {
    if s != [] && counts[s[0]] >= counts[x] {
      InsertBounded(x, s[1..], counts, b);
    }
  }

  lemma {:induction false} InsertDescending(x: string, s: seq<string>, counts: map<string, nat>)
    requires x in counts && forall k :: 0 <= k < |s| ==> s[k] in counts
    requires Descending(s, counts)
    ensures Descending(InsertByCount(x, s, counts), counts)
    decreases |s|
  {
    if s != [] && counts[s[0]] >= counts[x] {
      var rest := InsertByCount(x, s[1..], counts);
      InsertDescending(x, s[1..], counts);
      InsertBounded(x, s[1..], counts, counts[s[0]]);
      var r := [s[0]] + rest;
      forall i, j | 0 <= i < j < |r| ensures counts[r[i]] >= counts[r[j]] {
        if i > 0 {
          assert r[i] == rest[i - 1] && r[j] == rest[j - 1];
        } else {
          assert r[j] == rest[j - 1];
        }
      }
    }
  }

  lemma {:induction false} InsertWithCount(x: string, s: seq<string>, counts: map<string, nat>, v: nat)
    requires x in counts && forall k :: 0 <= k < |s| ==> s[k] in counts
    requires Descending(s, counts)
    ensures WithCount(InsertByCount(x, s, counts), counts, v)
      == WithCount(s, counts, v) + (if counts[x] == v then [x] else [])
    decreases |s|
  {
    var t := if counts[x] == v then [x] else [];
    if s == [] {
    } else if counts[s[0]] >= counts[x] {
      var rest := InsertByCount(x, s[1..], counts);
      var h := if counts[s[0]] == v then [s[0]] else [];
      DescendingTail(s, counts);
      InsertWithCount(x, s[1..], counts, v);
      WithCountCons(s[0], rest, counts, v);
      assert WithCount(s, counts, v) == h + WithCount(s[1..], counts, v);
      SeqAssoc(h, WithCount(s[1..], counts, v), t);
    } else {
      WithCountCons(x, s, counts, v);
      if counts[x] == v {
        NoneWithCount(s, counts, v);
      }
    }
  }

  lemma WithCountCons(x: string, s: seq<string>, counts: map<string, nat>, v: nat)
    requires x in counts && forall k :: 0 <= k < |s| ==> s[k] in counts
    ensures WithCount([x] + s, counts, v) == (if counts[x] == v then [x] else []) + WithCount(s, counts, v)
  {
    assert ([x] + s)[1..] == s;
  }

  lemma DescendingTail(s: seq<string>, counts: map<string, nat>)
    requires s != [] && forall k :: 0 <= k < |s| ==> s[k] in counts
    requires Descending(s, counts)
    ensures Descending(s[1..], counts)
  {
    forall i, j | 0 <= i < j < |s[1..]| ensures counts[s[1..][i]] >= counts[s[1..][j]] {
      assert s[1..][i] == s[i + 1] && s[1..][j] == s[j + 1];
    }
  }

  /** In a descending list whose head is below `v`, nothing has count `v`. */
  lemma {:induction false} NoneWithCount(s: seq<string>, counts: map<string, nat>, v: nat)
    requires forall k :: 0 <= k < |s| ==> s[k] in counts
    requires s != [] ==> counts[s[0]] < v
    requires Descending(s, counts)
    ensures WithCount(s, counts, v) == []
    decreases |s|
  {
    if s != [] {
      if |s| > 1 {
        assert counts[s[1]] <= counts[s[0]];
      }
      NoneWithCount(s[1..], counts, v);
    }
  }

  lemma {:induction false} WithCountSnoc(s: seq<string>, x: string, counts: map<string, nat>, v: nat)
    requires x in counts && forall k :: 0 <= k < |s| ==> s[k] in counts
    ensures WithCount(s + [x], counts, v) == WithCount(s, counts, v) + (if counts[x] == v then [x] else [])
    decreases |s|
  {
    if s == [] {
      assert [] + [x] == [x];
    } else {
      assert (s + [x])[1..] == s[1..] + [x];
      WithCountSnoc(s[1..], x, counts, v);
    }
  }

  /** The ranking is by descending count. */
  lemma {:induction false} RankByCountDescending(order: seq<string>, counts: map<string, nat>)
    requires forall k :: 0 <= k < |order| ==> order[k] in counts
    ensures Descending(RankByCount(order, counts), counts)
    decreases |order|
  {
    if order != [] {
      var init := order[..|order| - 1];
      RankByCountDescending(init, counts);
      InsertDescending(order[|order| - 1], RankByCount(init, counts), counts);
    }
  }

  /** Among the entries with count `v`, the ranking keeps first-seen order. */
  lemma {:induction false} RankByCountTies(order: seq<string>, counts: map<string, nat>, v: nat)
    requires forall k :: 0 <= k < |order| ==> order[k] in counts
    ensures WithCount(RankByCount(order, counts), counts, v) == WithCount(order, counts, v)
    decreases |order|
  {
    if order != [] {
      var init := order[..|order| - 1];
      var x := order[|order| - 1];
      var before := RankByCount(init, counts);
      assert RankByCount(order, counts) == InsertByCount(x, before, counts);
      var t := if counts[x] == v then [x] else [];
      RankByCountTies(init, counts, v);
      RankByCountDescending(init, counts);
      InsertWithCount(x, before, counts, v);
      assert WithCount(RankByCount(order, counts), counts, v) == WithCount(init, counts, v) + t;
      PrefixAndLast(order);
      WithCountSnoc(init, x, counts, v);
    }
  }

  /** The ranking is by descending count, is a permutation of the first-seen
      order, and breaks ties by first-seen order. */
  lemma RankByCountStable(order: seq<string>, counts: map<string, nat>)
    requires forall k :: 0 <= k < |order| ==> order[k] in counts
    ensures Descending(RankByCount(order, counts), counts)
    ensures forall v: nat :: WithCount(RankByCount(order, counts), counts, v) == WithCount(order, counts, v)
  {
    RankByCountDescending(order, counts);
    forall v: nat ensures WithCount(RankByCount(order, counts), counts, v) == WithCount(order, counts, v) {
      RankByCountTies(order, counts, v);
    }
  }

  lemma TallySnoc(langs: seq<string>, l: string)
    ensures Tally(langs + [l]) == (Tally(langs).0[l := (if l in Tally(langs).0 then Tally(langs).0[l] else 0) + 1],
      if l in Tally(langs).0 then Tally(langs).1 else Tally(langs).1 + [l])
  {
    assert (langs + [l])[..|langs|] == langs;
  }

  /** `_detect_languages` */
  method DetectLanguages(walk: seq<WalkEntry>) returns (languages: seq<string>)
    ensures languages == Ranked(walk)
  {
    var counts: map<string, nat> := map[];
    var order: seq<string> := [];
    var i := 0;
    while i < |walk|
      invariant 0 <= i <= |walk|
      invariant (counts, order) == Tally(FileLanguages(walk[..i]))
    {
      assert walk[..i + 1][..i] == walk[..i];
      if !Contains(walk[i].root, ".git") {
        counts, order := CountFiles(walk[i].files, counts, order, FileLanguages(walk[..i]));
      }
      i := i + 1;
    }
    assert walk[..|walk|] == walk;
    TallyExact(FileLanguages(walk));
    languages := RankByCount(order, counts);
  }

  /** The inner loop of `_detect_languages`: count the files of one directory
      on top of the tally so far. */
  method CountFiles(files: seq<string>, counts0: map<string, nat>, order0: seq<string>, ghost before: seq<string>)
    returns (counts: map<string, nat>, order: seq<string>)
    requires (counts0, order0) == Tally(before)
    ensures (counts, order) == Tally(before + EntryLanguages(files))
  {
    counts, order := counts0, order0;
    var j := 0;
    assert before + EntryLanguages(files[..0]) == before;
    while j < |files|
      invariant 0 <= j <= |files|
      invariant (counts, order) == Tally(before + EntryLanguages(files[..j]))
    {
      EntryLanguagesNext(before, files, j);
      var language := LanguageOf(Extension(files[j]));
      if language.Some? {
        var lang := language.value;
        TallySnoc(before + EntryLanguages(files[..j]), lang);
        var seen := lang in counts;
        counts := counts[lang := (if seen then counts[lang] else 0) + 1];
        order := if seen then order else order + [lang];
      }
      j := j + 1;
    }
    assert files[..|files|] == files;
  }

  /** The languages counted after one more file of a directory. */
  lemma EntryLanguagesNext(before: seq<string>, files: seq<string>, j: nat)
    requires j < |files|
    ensures LanguageOf(Extension(files[j])).None? ==>
      before + EntryLanguages(files[..j + 1]) == before + EntryLanguages(files[..j])
    ensures LanguageOf(Extension(files[j])).Some? ==>
      before + EntryLanguages(files[..j + 1]) == (before + EntryLanguages(files[..j])) + [LanguageOf(Extension(files[j])).value]
  {
    assert files[..j + 1][..j] == files[..j];
  }

  /** The languages of a repository listing, most files first. */
  function Ranked(walk: seq<WalkEntry>): (r: seq<string>)
  {
    var t := Tally(FileLanguages(walk));
    TallyExact(FileLanguages(walk));
    RankByCount(t.1, t.0)
  }

  // ----------------------------------------------------------- description

  /** Every line with surrounding whitespace removed. */
  function StrippedLines(lines: seq<string>): (r: seq<string>)
    ensures |r| == |lines| && forall k :: 0 <= k < |lines| ==> r[k] == Strip(lines[k])
  {
    seq(|lines|, k requires 0 <= k < |lines| => Strip(lines[k]))
  }

  /** A stripped line the description skips before it starts: blank or a
      title. */
  predicate TitleOrBlank(line: string)
  {
    line == "" || StartsWith(line, "#")
  }

  /** Where the first paragraph starts: the first stripped line from `i` on
      that is neither blank nor a title. */
  function SkipTitles(lines: seq<string>, i: nat): (k: nat)
    requires i <= |lines|
    ensures i <= k <= |lines|
    ensures forall m :: i <= m < k ==> TitleOrBlank(lines[m])
    ensures k < |lines| ==> !TitleOrBlank(lines[k])
    decreases |lines| - i
  {
    if i < |lines| && TitleOrBlank(lines[i]) then SkipTitles(lines, i + 1) else i
  }

  /** The stripped lines from `i` up to the first blank one. */
  function ParagraphFrom(lines: seq<string>, i: nat): (para: seq<string>)
    requires i <= |lines|
    ensures i + |para| <= |lines|
    decreases |lines| - i
  {
    if i == |lines| || lines[i] == "" then [] else [lines[i]] + ParagraphFrom(lines, i + 1)
  }

  /** The paragraph is the run of non-blank lines from `i`, ended by a blank
      line or by the end of the text. */
  lemma {:induction false} ParagraphShape(lines: seq<string>, i: nat)
    requires i <= |lines|
    ensures var para := ParagraphFrom(lines, i);
      && (forall j :: i <= j < i + |para| ==> para[j - i] == lines[j] && lines[j] != "")
      && (i + |para| < |lines| ==> lines[i + |para|] == "")
    decreases |lines| - i
  {
    if i < |lines| && lines[i] != "" {
      ParagraphShape(lines, i + 1);
      var rest := ParagraphFrom(lines, i + 1);
      assert ParagraphFrom(lines, i) == [lines[i]] + rest;
    }
  }

  /** `s[:n]` */
  function Prefix(s: string, n: nat): (r: string)
    ensures |r| == Min(n, |s|) && StartsWith(s, r)
  {
    s[..Min(n, |s|)]
  }

  /** The description a README found: its first paragraph after the
      titles, joined by spaces and cut at 500 characters. */
  function DescriptionOf(content: string): (d: Option<string>)
    ensures d.Some? ==> |d.value| <= 500
  {
    Describe(StrippedLines(Split(content, "\n")))
  }

  /** The description of the stripped lines of a README. */
  function Describe(lines: seq<string>): (d: Option<string>)
    ensures d.Some? ==> |d.value| <= 500
  {
    var para := ParagraphFrom(lines, SkipTitles(lines, 0));
    if para == [] then None else Some(Prefix(Join(para, " "), 500))
  }

  /** A README found no description exactly when all its lines are blank
      or titles; otherwise the description starts with the first other line. */
  lemma DescribePresence(lines: seq<string>)
    ensures Describe(lines).None? <==> forall k :: 0 <= k < |lines| ==> TitleOrBlank(lines[k])
    ensures var k := SkipTitles(lines, 0);
      Describe(lines).Some? ==> k < |lines| && StartsWith(Join(ParagraphFrom(lines, k), " "), Describe(lines).value)
  {
    var k := SkipTitles(lines, 0);
    if k < |lines| {
      assert !TitleOrBlank(lines[k]);
      assert ParagraphFrom(lines, k) != [];
    }
  }

  /** The loops of `_extract_description` over one README's text. */
  method ExtractDescription(content: string) returns (d: Option<string>)
    ensures d == DescriptionOf(content)
  {
    var lines := Split(content, "\n");
    ghost var stripped := StrippedLines(lines);
    var start := SkipTitleLines(lines);
    var descriptionLines := FirstParagraph(lines, start);
    if descriptionLines != [] {
      d := Some(Prefix(Join(descriptionLines, " "), 500));
    } else {
      d := None;
    }
  }

  /** The `while` loop: skip blank and title lines. */
  method SkipTitleLines(lines: seq<string>) returns (start: nat)
    ensures start == SkipTitles(StrippedLines(lines), 0)
  {
    ghost var stripped := StrippedLines(lines);
    start := 0;
    while start < |lines| && (Strip(lines[start]) == "" || StartsWith(Strip(lines[start]), "#"))
      invariant start <= |lines|
      invariant SkipTitles(stripped, 0) == SkipTitles(stripped, start)
      decreases |lines| - start
    {
      start := start + 1;
    }
  }

  /** The `for` loop: collect stripped lines up to the first blank one. */
  method FirstParagraph(lines: seq<string>, start: nat) returns (descriptionLines: seq<string>)
    requires start <= |lines|
    ensures descriptionLines == ParagraphFrom(StrippedLines(lines), start)
  {
    ghost var stripped := StrippedLines(lines);
    ghost var whole := ParagraphFrom(stripped, start);
    descriptionLines := [];
    var i := start;
    while i < |lines|
      invariant start <= i <= |lines|
      invariant descriptionLines + ParagraphFrom(stripped, i) == whole
      decreases |lines| - i
    {
      var line := Strip(lines[i]);
      assert line == stripped[i];
      if line == "" {
        break;
      }
      ParagraphNext(stripped, i, descriptionLines, line);
      descriptionLines := descriptionLines + [line];
      i := i + 1;
    }
    ParagraphEnd(stripped, i, descriptionLines);
  }

  /** A non-blank line extends the paragraph by itself. */
  lemma ParagraphNext(stripped: seq<string>, i: nat, acc: seq<string>, line: string)
    requires i < |stripped| && stripped[i] == line && line != ""
    ensures acc + ParagraphFrom(stripped, i) == (acc + [line]) + ParagraphFrom(stripped, i + 1)
  {
    SeqAssoc(acc, [line], ParagraphFrom(stripped, i + 1));
  }

  /** The paragraph ends at a blank line or at the end. */
  lemma ParagraphEnd(stripped: seq<string>, i: nat, acc: seq<string>)
    requires i <= |stripped| && (i == |stripped| || stripped[i] == "")
    ensures acc + ParagraphFrom(stripped, i) == acc
  {
  }

  /** The README names tried, in order. */
  const ReadmeNames: seq<string> := ["README.md", "Readme.md", "readme.md", "README.txt", "README"]

  /** The README files of a checkout: a name is present when the file
      exists, with its text, or None when reading it failed. */
  type Readmes = map<string, Option<string>>

  /** The description the README called `name` found, if it exists and
      can be read. */
  function DescriptionAt(name: string, readmes: Readmes): Option<string>
  {
    if name in readmes && readmes[name].Some? then DescriptionOf(readmes[name].value) else None
  }

  /** The first result in `names` that is present. */
  function FirstOf(names: seq<string>, found: string -> Option<string>): (d: Option<string>)
  {
    if names == [] then None
    else if found(names[0]).Some? then found(names[0]) else FirstOf(names[1..], found)
  }

  /** The result found is that of the earliest name yielding one; there is
      none exactly when no name found one. */
  lemma {:induction false} FirstOfEarliest(names: seq<string>, found: string -> Option<string>)
    ensures FirstOf(names, found).None? <==> forall k :: 0 <= k < |names| ==> found(names[k]).None?
    ensures FirstOf(names, found).Some? ==>
      exists k :: 0 <= k < |names| && found(names[k]) == FirstOf(names, found)
        && forall m :: 0 <= m < k ==> found(names[m]).None?
    decreases |names|
  {
    if names != [] {
      var tail := names[1..];
      assert forall k :: 0 <= k < |tail| ==> tail[k] == names[k + 1];
      FirstOfEarliest(tail, found);
      if found(names[0]).None? && FirstOf(names, found).Some? {
        var k :| 0 <= k < |tail| && found(tail[k]) == FirstOf(tail, found)
          && forall m :: 0 <= m < k ==> found(tail[m]).None?;
        assert found(names[k + 1]) == FirstOf(names, found);
        forall m | 0 <= m < k + 1 ensures found(names[m]).None? {
          if m > 0 {
            assert names[m] == tail[m - 1];
          }
        }
      }
    }
  }

  /** The description of the first README, in the order tried, that found
      one. */
  function FirstDescription(readmes: Readmes): Option<string>
  {
    FirstOf(ReadmeNames, name => DescriptionAt(name, readmes))
  }

  /** The loop of `_extract_description` over the README names. */
  method FindDescription(readmes: Readmes) returns (d: Option<string>)
    ensures d == FirstDescription(readmes)
  {
    ghost var found := name => DescriptionAt(name, readmes);
    var i := 0;
    while i < |ReadmeNames|
      invariant 0 <= i <= |ReadmeNames|
      invariant FirstOf(ReadmeNames, found) == FirstOf(ReadmeNames[i..], found)
    {
      var name := ReadmeNames[i];
      assert ReadmeNames[i..][1..] == ReadmeNames[i + 1..];
      var described := None;
      if name in readmes && readmes[name].Some? {
        described := ExtractDescription(readmes[name].value);
      }
      assert described == found(name);
      if described.Some? {
        return described;
      }
      i := i + 1;
    }
    d := None;
  }

  // -------------------------------------------------------------- manager

  /** What git leaves after a clone: the active branch (reading it fails on
      a detached head), the directory walk and the README files. */
  datatype Checkout = Checkout(branch: Result<string>, walk: seq<WalkEntry>, readmes: Readmes)

  const AuthenticationMessage: string :=
    "Authentication failed. If this is a private repository, please provide a valid GitHub Personal Access Token."

  /** What `clone` gives for a repository URL, token and working directory,
      when git turns the clone URL and target path into `git`'s result. */
  function CloneResult(repoUrl: string, pat: Option<string>, workDir: string,
                       git: (string, string) -> Result<Checkout>): (r: Result<RepositoryInfo>)
  {
    var name := ExtractRepoName(repoUrl);
    if name == "" then Err("Invalid GitHub repository URL: " + repoUrl)
    else
      var path := PathJoin(workDir, name);
      ClonedInfo(repoUrl, pat, path, git(CloneUrl(repoUrl, pat), path))
  }

  /** The outcome of cloning into `path`, given what git did. */
  function ClonedInfo(repoUrl: string, pat: Option<string>, path: string, cloned: Result<Checkout>): (r: Result<RepositoryInfo>)
  {
    match cloned
    case Err(e) => if Contains(e, "Authentication failed") then Err(AuthenticationMessage) else Err(e)
    case Ok(co) =>
      match co.branch
      case Err(e) => Err(e)
      case Ok(branch) =>
        Ok(RepositoryInfo(
          name := Basename(path),
          url := repoUrl,
          local_path := path,
          default_branch := branch,
          languages := Ranked(co.walk),
          description := FirstDescription(co.readmes),
          is_private := Truthy(pat)))
  }

  class GitHubRepoManager {
    const repo_url: string
    const github_pat: Option<string>
    const git_executable: Option<string>
    const clone_url: string
    const work_dir: string
    var repo_path: Option<string>

    /** The clone URL always derives from the URL and the token. */
    predicate Valid()
    {
      clone_url == CloneUrl(repo_url, github_pat)
    }

    /** `tempDir` is the directory `tempfile.mkdtemp` would create. */
    constructor (repoUrl: string, pat: Option<string>, gitExecutable: Option<string>, workDir: Option<string>, tempDir: string)
      ensures repo_url == repoUrl && github_pat == pat && git_executable == gitExecutable
      ensures clone_url == CloneUrl(repoUrl, pat) && Valid()
      ensures work_dir == (if Truthy(workDir) then workDir.value else tempDir)
      ensures repo_path == None
    {
      repo_url := repoUrl;
      github_pat := pat;
      git_executable := gitExecutable;
      clone_url := CloneUrl(repoUrl, pat);
      work_dir := if Truthy(workDir) then workDir.value else tempDir;
      repo_path := None;
    }

    /** `clone`: the target path is set once the URL names a repository. */
    method Clone(git: (string, string) -> Result<Checkout>) returns (r: Result<RepositoryInfo>)
      requires Valid()
      modifies this
      ensures r == CloneResult(repo_url, github_pat, work_dir, git)
      ensures repo_path == (if ExtractRepoName(repo_url) == "" then old(repo_path)
                            else Some(PathJoin(work_dir, ExtractRepoName(repo_url))))
    {
      var name := ExtractRepoName(repo_url);
      if name == "" {
        return Err("Invalid GitHub repository URL: " + repo_url);
      }
      var path := PathJoin(work_dir, name);
      repo_path := Some(path);
      var cloned := git(clone_url, path);
      assert CloneResult(repo_url, github_pat, work_dir, git) == ClonedInfo(repo_url, github_pat, path, cloned);
      r := FromCheckout(cloned);
    }

    /** What `clone` does once git has run. */
    method FromCheckout(cloned: Result<Checkout>) returns (r: Result<RepositoryInfo>)
      requires repo_path.Some?
      ensures r == ClonedInfo(repo_url, github_pat, repo_path.value, cloned)
    {
      var path := repo_path.value;
      if cloned.Err? {
        if Contains(cloned.error, "Authentication failed") {
          return Err(AuthenticationMessage);
        }
        return Err(cloned.error);
      }
      var co := cloned.value;
      if co.branch.Err? {
        return Err(co.branch.error);
      }
      var languages := DetectLanguages(co.walk);
      var description := FindDescription(co.readmes);
      r := Ok(RepositoryInfo(Basename(path), repo_url, path, co.branch.value, languages, description, Truthy(github_pat)));
    }
  }

  /** A clone of a well-formed URL is named "{user}_{repo}", lives in the
      working directory under that name, and is private when a token was
      given. */
  lemma CloneNamesRepository(prefix: string, sep: char, user: string, repo: string, suffix: string,
                             pat: Option<string>, workDir: string, git: (string, string) -> Result<Checkout>)
    requires '.' !in prefix && (sep == '/' || sep == ':')
    requires user != "" && DotFree(user) && repo != "" && DotFree(repo) && UsualSuffix(suffix)
    requires var url := GitHubUrl(prefix, sep, user, repo, suffix);
      git(CloneUrl(url, pat), PathJoin(workDir, user + "_" + repo)).Ok?
      && git(CloneUrl(url, pat), PathJoin(workDir, user + "_" + repo)).value.branch.Ok?
    ensures var r := CloneResult(GitHubUrl(prefix, sep, user, repo, suffix), pat, workDir, git);
      && r.Ok?
      && r.value.name == user + "_" + repo
      && r.value.local_path == PathJoin(workDir, user + "_" + repo)
      && r.value.is_private == Truthy(pat)
  {
    RepoNameOfUrl(prefix, sep, user, repo, suffix);
    BasenameOfJoin(workDir, user + "_" + repo);
  }

  /** Failures of the clone: an unusable URL, and git's authentication
      error, which is replaced by advice about the token. */
  lemma CloneFailures(repoUrl: string, pat: Option<string>, workDir: string, git: (string, string) -> Result<Checkout>)
    ensures ExtractRepoName(repoUrl) == "" ==> CloneResult(repoUrl, pat, workDir, git) == Err("Invalid GitHub repository URL: " + repoUrl)
    ensures var path := PathJoin(workDir, ExtractRepoName(repoUrl)); var g := git(CloneUrl(repoUrl, pat), path);
      ExtractRepoName(repoUrl) != "" && g.Err? ==>
        CloneResult(repoUrl, pat, workDir, git) == Err(if Contains(g.error, "Authentication failed") then AuthenticationMessage else g.error)
  {
  }

  /** What git reports about a local repository. */
  datatype LocalRepo = LocalRepo(remote: Option<string>, branch: Result<string>, walk: seq<WalkEntry>, readmes: Readmes)

  /** `get_repo_info`: `repo` is None when the path is not a git repository;
      an unreadable remote becomes "Unknown" and an unreadable branch "main". */
  function GetRepoInfo(repoPath: string, repo: Option<LocalRepo>): (r: Result<RepositoryInfo>)
    ensures repo.None? <==> r.Err?
    ensures r.Err? ==> r.error == "The path '" + repoPath + "' is not a valid git repository."
    ensures r.Ok? ==> && r.value.name == Basename(repoPath)
                      && r.value.url == repo.value.remote.GetOr("Unknown")
                      && r.value.default_branch == (if repo.value.branch.Ok? then repo.value.branch.value else "main")
                      && r.value.local_path == repoPath && !r.value.is_private
                      && r.value.languages == Ranked(repo.value.walk)
                      && r.value.description == FirstDescription(repo.value.readmes)
  {
    match repo
    case None => Err("The path '" + repoPath + "' is not a valid git repository.")
    case Some(lr) =>
      Ok(RepositoryInfo(
        name := Basename(repoPath),
        url := lr.remote.GetOr("Unknown"),
        local_path := repoPath,
        default_branch := if lr.branch.Ok? then lr.branch.value else "main",
        languages := Ranked(lr.walk),
        description := FirstDescription(lr.readmes),
        is_private := false))
  }
}
