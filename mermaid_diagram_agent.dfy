/** `MermaidDiagramAgent` (autodocai/agents/mermaid_diagram_agent.py):
    builds Mermaid diagram texts from the parsed modules (a module
    dependency graph, one class diagram per module with classes), asks the
    model for flow charts of long functions and for an architecture chart,
    and stores them all under `diagrams`. */
module MermaidDiagramAgent {
  import opened Wrappers
  import opened Text
  import opened Schemas
  import opened Config
  import opened States
  import opened Base
  import opened Collaborators

  const Name := "MermaidDiagramAgent"
  const NoCode := "No code to generate diagrams for"
  const Starting := "Starting Mermaid diagram generation"
  /** The text of the `TypeError` raised when a field holds None instead
      of a list. */
  const NotIterable := "'NoneType' object is not iterable"
  /** The text of the `AttributeError` raised by `None.replace`. */
  const NoReplace := "'NoneType' object has no attribute 'replace'"

  // ------------------------------------------------------------ _sanitize_id

  /** What `[a-zA-Z0-9_]` matches. */
  predicate IdChar(c: char)
  {
    ('a' <= c <= 'z') || ('A' <= c <= 'Z') || ('0' <= c <= '9') || c == '_'
  }

  predicate IsId(s: string)
  {
    forall i :: 0 <= i < |s| ==> IdChar(s[i])
  }

  /** Every occurrence of the character `c` replaced by `d`. */
  function Subst(s: string, c: char, d: char): (r: string)
    ensures |r| == |s|
    ensures forall i :: 0 <= i < |s| ==> r[i] == (if s[i] == c then d else s[i])
  {
    seq(|s|, i requires 0 <= i < |s| => if s[i] == c then d else s[i])
  }

  /** `re.sub(r"[^a-zA-Z0-9_]", "_", s)` */
  function SubNonId(s: string): (r: string)
    ensures |r| == |s| && IsId(r)
    ensures forall i :: 0 <= i < |s| ==> r[i] == (if IdChar(s[i]) then s[i] else '_')
  {
    seq(|s|, i requires 0 <= i < |s| => if IdChar(s[i]) then s[i] else '_')
  }

  /** `_sanitize_id` */
  function SanitizeId(text: string): string
  {
    if text == "" then ""
    else
      var sanitized := SubNonId(Replace(Replace(text, " ", "_"), "-", "_"));
      if sanitized != [] && IsAsciiDigit(sanitized[0]) then "n" + sanitized else sanitized
  }

  /** Replacing a one-character pattern replaces that character everywhere. */
  lemma {:induction false} ReplaceChar(s: string, c: char, d: char)
    ensures Replace(s, [c], [d]) == Subst(s, c, d)
    decreases |s|
  {
    match Find(s, [c])
    case None =>
      forall k | 0 <= k < |s| ensures s[k] != c {
        assert !OccursAt(s, [c], k);
        assert s[k..k + 1] == [s[k]];
      }
    case Some(i) =>
      ReplaceChar(s[i + 1..], c, d);
      var r := s[..i] + [d] + Subst(s[i + 1..], c, d);
      forall k | 0 <= k < |s| ensures r[k] == Subst(s, c, d)[k] {
        if k < i {
          assert !OccursAt(s, [c], k);
          assert s[k..k + 1] == [s[k]];
        } else if k == i {
          assert s[i..i + 1] == [c];
        }
      }
  }

  /** The three replacements together map each character on its own: kept
      when it may appear in an id, `_` otherwise. */
  lemma SanitizedChars(text: string)
    ensures SubNonId(Replace(Replace(text, " ", "_"), "-", "_")) == SubNonId(text)
  {
    ReplaceChar(text, ' ', '_');
    var a := Replace(text, " ", "_");
    ReplaceChar(a, '-', '_');
  }

  /** `_sanitize_id` yields an id: only `[A-Za-z0-9_]`, never a leading
      digit, empty exactly for the empty text, and one `n` longer than its
      input exactly when a leading digit had to be covered. */
  lemma SanitizeIdShape(text: string)
    ensures var r := SanitizeId(text);
      && IsId(r)
      && (r == "" <==> text == "")
      && (r != "" ==> !IsAsciiDigit(r[0]))
      && (text != "" && IsAsciiDigit(text[0]) ==> r == "n" + text[..1] + SubNonId(text[1..]))
      && (text != "" && !IsAsciiDigit(text[0]) ==> r == SubNonId(text))
  {
    SanitizeIdSub(text);
    if text != "" {
      var z := SubNonId(text);
      assert z[0] == (if IdChar(text[0]) then text[0] else '_');
      if IsAsciiDigit(text[0]) {
        assert z == text[..1] + SubNonId(text[1..]);
        assert IsId("n" + z) by {
          forall i | 0 <= i < |"n" + z| ensures IdChar(("n" + z)[i]) {
            if i > 0 { assert ("n" + z)[i] == z[i - 1]; }
          }
        }
      }
    }
  }

  /** `_sanitize_id` is one character mapping, with an `n` in front of a
      leading digit. */
  lemma SanitizeIdSub(text: string)
    ensures text == "" ==> SanitizeId(text) == ""
    ensures text != "" ==>
      SanitizeId(text) == if IsAsciiDigit(text[0]) then "n" + SubNonId(text) else SubNonId(text)
  {
    if text != "" {
      SanitizedChars(text);
      assert SubNonId(text)[0] == (if IdChar(text[0]) then text[0] else '_');
    }
  }

  /** Sanitising an id changes nothing, so `_sanitize_id` is idempotent. */
  lemma SanitizeIdIdempotent(text: string)
    ensures SanitizeId(SanitizeId(text)) == SanitizeId(text)
  {
    var r := SanitizeId(text);
    SanitizeIdShape(text);
    SanitizeIdShape(r);
    if r != "" {
      assert SubNonId(r) == r;
    }
  }

  // ------------------------------------------------- _should_retry_exception

  /** The exceptions `_call_openrouter_api` can end with. */
  datatype ApiException =
    | ClientError
    | Timeout
    | ValueError(message: string)
    | OtherException(message: string)

  const RetryTerms: seq<string> := ["rate limit", "429", "500", "503", "timeout", "too many requests"]

  function AnyTerm(s: string, terms: seq<string>): (r: bool)
    ensures r <==> exists t :: t in terms && Contains(s, t)
  {
    if terms == [] then false
    else Contains(s, terms[0]) || AnyTerm(s, terms[1..])
  }

  /** `_should_retry_exception`: network errors and timeouts, and a
      `ValueError` whose lower-cased text names a rate limit, a server
      error or a timeout. */
  function ShouldRetry(e: ApiException): (r: bool)
    ensures r <==> e.ClientError? || e.Timeout?
                   || (e.ValueError? && exists t :: t in RetryTerms && Contains(Lower(e.message), t))
  {
    match e
    case ClientError => true
    case Timeout => true
    case ValueError(m) => AnyTerm(Lower(m), RetryTerms)
    case OtherException(_) => false
  }

  /** The `ValueError` text for a non-200 response with the given status;
      `detail` is what follows the status (the error type and message from
      the body, or the start of the body). */
  function StatusError(status: int, detail: string): string
  {
    var em := "API request failed with status " + IntToString(status) + ": " + detail;
    if status == 429 then "Rate limit exceeded: " + em
    else if status >= 500 then "Server error: " + em
    else "API error: " + em
  }

  /** What comes before the status number in that text. */
  function StatusHead(status: int): string
  {
    (if status == 429 then "Rate limit exceeded: " else if status >= 500 then "Server error: " else "API error: ")
    + "API request failed with status "
  }

  lemma StatusErrorParts(status: int, detail: string)
    ensures StatusError(status, detail) == StatusHead(status) + IntToString(status) + (": " + detail)
  {
  }

  /** Lower-casing leaves digits where they are. */
  lemma LowerKeepsDigits(s: string, lo: nat, d: string)
    requires lo + |d| <= |s| && s[lo..lo + |d|] == d
    requires forall i :: 0 <= i < |d| ==> IsAsciiDigit(d[i])
    ensures OccursAt(Lower(s), d, lo) && Contains(Lower(s), d)
  {
    assert Lower(s)[lo..lo + |d|] == d by {
      forall i | 0 <= i < |d| ensures Lower(s)[lo + i] == d[i] {
        assert s[lo + i] == d[i];
      }
    }
    OccursAtContains(Lower(s), d, lo);
  }

  lemma StatusText(status: int)
    requires status == 429 || status == 500 || status == 503
    ensures IntToString(status) == (if status == 429 then "429" else if status == 500 then "500" else "503")
  {
    assert NatToString(4) == "4" && NatToString(5) == "5";
    assert NatToString(42) == "42" && NatToString(50) == "50";
  }

  /** The middle piece of a three-piece text. */
  lemma MiddleAt(a: string, b: string, c: string)
    ensures (a + b + c)[|a|..|a| + |b|] == b
  {
  }

  /** A status of 429, 500 or 503 is always retried, whatever the body
      says: its number is part of the message. */
  lemma StatusRetried(status: int, detail: string)
    requires status == 429 || status == 500 || status == 503
    ensures ShouldRetry(ValueError(StatusError(status, detail)))
  {
    StatusText(status);
    var code := IntToString(status);
    var head := StatusHead(status);
    var m := StatusError(status, detail);
    StatusErrorParts(status, detail);
    MiddleAt(head, code, ": " + detail);
    LowerKeepsDigits(m, |head|, code);
    assert code in RetryTerms;
  }

  // ------------------------------------------------------- prompt truncation

  const MaxPromptLength := 4000
  const TruncatedMark := "...[truncated]"

  /** The prompt as `_call_openrouter_api` sends it: longer than 4000
      characters, it is cut to its first 4000 and marked. */
  function TruncatePrompt(p: string): (r: string)
    ensures |p| <= MaxPromptLength ==> r == p
    ensures |r| <= MaxPromptLength + |TruncatedMark|
    ensures StartsWith(r, p[..Min(|p|, MaxPromptLength)])
    ensures |p| > MaxPromptLength ==> EndsWith(r, TruncatedMark) && |r| == MaxPromptLength + |TruncatedMark|
  {
    if |p| > MaxPromptLength then p[..MaxPromptLength] + TruncatedMark else p
  }

  /** A truncated prompt is truncated once more only to the same text. */
  lemma TruncateTwice(p: string)
    ensures TruncatePrompt(TruncatePrompt(p)) == TruncatePrompt(p)
  {
    if |p| > MaxPromptLength {
      var r := TruncatePrompt(p);
      assert r[..MaxPromptLength] == p[..MaxPromptLength];
    }
  }

  // --------------------------------------------- extracting a fenced diagram

  const Fence := "```mermaid"
  const Close := "```"

  /** The position after the whitespace that starts at `i`. */
  function SkipSpace(s: string, i: nat): (k: nat)
    requires i <= |s|
    ensures i <= k <= |s| && AllSpace(s[i..k])
    ensures k < |s| ==> !IsSpace(s[k])
    decreases |s| - i
  {
    if i < |s| && IsSpace(s[i]) then
      var k := SkipSpace(s, i + 1);
      assert s[i..k] == [s[i]] + s[i + 1..k];
      k
    else i
  }

  /** `re.search(r"```mermaid\s*(.*?)```", content, re.DOTALL)` followed by
      `.group(1).strip()`: the body after the first fence, up to the next
      closing fence. The match, when there is one, is at the first fence:
      the fence does not overlap itself, and a later fence holds a closing
      one. */
  function ExtractMermaid(content: string): Option<string>
  {
    match MermaidSpan(content)
    case None => None
    case Some((k, j)) => Some(Strip(content[k..j]))
  }

  /** Where the body of the first fenced diagram starts and ends. */
  function MermaidSpan(content: string): (r: Option<(nat, nat)>)
    ensures r.Some? ==> r.value.0 <= r.value.1 <= |content|
  {
    match Find(content, Fence)
    case None => None
    case Some(i) =>
      var k := SkipSpace(content, i + |Fence|);
      match FindFrom(content, Close, k)
      case None => None
      case Some(j) => Some((k, j))
  }

  /** There is a diagram exactly when a closing fence follows the first
      fence. Its body starts after the fence and the whitespace after it,
      ends at the next closing fence (so holds none itself) and is
      stripped. */
  lemma ExtractMermaidShape(content: string)
    ensures var r := ExtractMermaid(content);
      && (r.Some? <==> Contains(content, Fence)
                       && FindFrom(content, Close, SkipSpace(content, Find(content, Fence).value + |Fence|)).Some?)
      && (r.Some? ==> IsStripped(r.value))
      && (r.Some? ==>
            var i := Find(content, Fence).value;
            var (k, j) := MermaidSpan(content).value;
            && OccursAt(content, Close, j)
            && i + |Fence| <= k <= j
            && AllSpace(content[i + |Fence|..k])
            && !Contains(content[k..j], Close)
            && r.value == Strip(content[k..j]))
  {
    if MermaidSpan(content).Some? {
      var (k, j) := MermaidSpan(content).value;
      ClosingFree(content, k, j);
    }
  }

  /** Nothing between `k` and the first closing fence after it is one. */
  lemma ClosingFree(s: string, k: nat, j: nat)
    requires k <= |s| && FindFrom(s, Close, k) == Some(j)
    ensures !Contains(s[k..j], Close)
  {
    forall p: nat ensures !OccursAt(s[k..j], Close, p) {
      if p + |Close| <= j - k {
        assert !OccursAt(s, Close, k + p);
        assert s[k..j][p..p + |Close|] == s[k + p..k + p + |Close|];
      }
    }
    NowhereNotContained(s[k..j], Close);
  }

  /** Fencing a stripped, non-empty body that holds no closing fence and
      extracting it again gives the body back. */
  lemma ExtractFenced(body: string)
    requires body != [] && IsStripped(body) && !Contains(body, Close)
    ensures ExtractMermaid(Fence + "\n" + body + "\n" + Close) == Some(body)
  {
    var c := Fence + "\n" + body + "\n" + Close;
    assert OccursAt(c, Fence, 0) by { assert c[..|Fence|] == Fence; }
    FindFromFirst(c, Fence, 0, 0);
    assert c[|Fence|] == '\n' && c[|Fence| + 1] == body[0];
    assert SkipSpace(c, |Fence| + 1) == |Fence| + 1;
    assert SkipSpace(c, |Fence|) == |Fence| + 1;
    assert c[|Fence| + 1..] == body + "\n" + Close;
    ClosedAfter(body, |Fence| + 1, c);
    var k: nat := |Fence| + 1;
    var j: nat := k + |body| + 1;
    assert Find(c, Fence) == Some(0);
    assert MermaidSpan(c) == Some((k, j));
    assert ExtractMermaid(c) == Some(Strip(c[k..j]));
  }

  /** The first closing fence after a body that holds none is the one right
      after it. */
  lemma ClosedAfter(body: string, k: nat, c: string)
    requires !Contains(body, Close) && IsStripped(body)
    requires k <= |c| && c[k..] == body + "\n" + Close
    ensures FindFrom(c, Close, k) == Some(k + |body| + 1)
    ensures Strip(c[k..k + |body| + 1]) == body
  {
    ClosingFound(body, k, c);
    BodyStripped(body, k, c);
  }

  lemma ClosingFound(body: string, k: nat, c: string)
    requires !Contains(body, Close)
    requires k <= |c| && c[k..] == body + "\n" + Close
    ensures FindFrom(c, Close, k) == Some(k + |body| + 1)
  {
    FenceAfter(body, k, c);
    NoCloseBefore(body, k, c);
    FindFromFirst(c, Close, k, k + |body| + 1);
  }

  lemma BodyStripped(body: string, k: nat, c: string)
    requires IsStripped(body)
    requires k <= |c| && c[k..] == body + "\n" + Close
    ensures Strip(c[k..k + |body| + 1]) == body
  {
    FenceAfter(body, k, c);
    StripPadded("", body, "\n");
    assert "" + body + "\n" == body + "\n";
  }

  /** Where the body and its newline end, the closing fence starts. */
  lemma FenceAfter(body: string, k: nat, c: string)
    requires k <= |c| && c[k..] == body + "\n" + Close
    ensures OccursAt(c, Close, k + |body| + 1)
    ensures c[k..k + |body| + 1] == body + "\n"
  {
    var t := body + "\n" + Close;
    assert t[|body| + 1..] == Close;
    assert t[..|body| + 1] == body + "\n";
    assert c[k + |body| + 1..] == t[|body| + 1..];
    assert c[k..k + |body| + 1] == t[..|body| + 1];
  }

  lemma NoCloseBefore(body: string, k: nat, c: string)
    requires !Contains(body, Close)
    requires k <= |c| && c[k..] == body + "\n" + Close
    ensures forall p :: k <= p < k + |body| + 1 ==> !OccursAt(c, Close, p)
  {
    forall p | k <= p < k + |body| + 1 ensures !OccursAt(c, Close, p) {
      if p + 3 <= k + |body| {
        assert c[p..p + 3] == c[k..][p - k..p - k + 3] == body[p - k..p - k + 3];
        assert !OccursAt(body, Close, p - k);
      } else if p + 3 <= |c| {
        assert c[k + |body|] == c[k..][|body|] == '\n';
        assert c[p..p + 3][k + |body| - p] == '\n';
      }
    }
  }

  lemma {:induction false} FindFromFirst(s: string, sub: string, k: nat, j: nat)
    requires k <= j && OccursAt(s, sub, j)
    requires forall p :: k <= p < j ==> !OccursAt(s, sub, p)
    ensures FindFrom(s, sub, k) == Some(j)
    decreases j - k
  {
    if k < j {
      FindFromFirst(s, sub, k + 1, j);
    }
  }

  // ------------------------------------- _generate_module_dependency_diagram

  const StdlibPrefixes: seq<string> :=
    ["os", "sys", "re", "json", "time", "datetime", "math", "random", "collections", "typing"]

  /** `module.startswith((...))`: a prefix test, so a name like `requests`
      counts as standard library too. */
  predicate Stdlib(m: string)
  {
    exists p :: p in StdlibPrefixes && StartsWith(m, p)
  }

  /** Some names the prefix test refuses and one it keeps. */
  lemma StdlibExamples()
    ensures Stdlib("requests") && Stdlib("os.path") && Stdlib("typing")
    ensures !Stdlib("autodocai.schemas")
  {
    assert StartsWith("requests", StdlibPrefixes[2]);
    assert StartsWith("os.path", StdlibPrefixes[0]);
    assert StartsWith("typing", StdlibPrefixes[9]);
    forall p | p in StdlibPrefixes ensures !StartsWith("autodocai.schemas", p) {
      assert p[0] != 'a';
    }
  }

  /** `os.path.basename(module.file_path).replace('.py', '')` */
  function ModuleName(m: ParsedModule): string
  {
    Replace(Basename(m.file_path), ".py", "")
  }

  predicate Kept(imp: Import)
  {
    imp.module_name != "" && !Stdlib(imp.module_name)
  }

  /** `imp.module.split('.')[-1]` */
  function Target(imp: Import): string
  {
    LastPart(imp.module_name, ".")
  }

  predicate Distinct(s: seq<string>)
  {
    forall i, j :: 0 <= i < j < |s| ==> s[i] != s[j]
  }

  /** The set of targets of one module's imports, listed in the order the
      targets are first met. */
  function Targets(imps: seq<Import>): seq<string>
    decreases |imps|
  {
    if imps == [] then []
    else
      var rest := Targets(imps[..|imps| - 1]);
      var imp := imps[|imps| - 1];
      if Kept(imp) && Target(imp) !in rest then rest + [Target(imp)] else rest
  }

  /** The targets are exactly those of the kept imports, each once. */
  lemma {:induction false} TargetsOf(imps: seq<Import>)
    ensures Distinct(Targets(imps))
    ensures forall t :: t in Targets(imps) <==> exists imp :: imp in imps && Kept(imp) && t == Target(imp)
    decreases |imps|
  {
    if imps != [] {
      var init := imps[..|imps| - 1];
      TargetsOf(init);
      assert imps == init + [imps[|imps| - 1]];
    }
  }

  /** The `dependencies` dict as its (module name, targets) entries in
      insertion order. */
  type Deps = seq<(string, seq<string>)>

  function Names(d: Deps): (r: seq<string>)
    ensures |r| == |d| && forall i :: 0 <= i < |d| ==> r[i] == d[i].0
  {
    seq(|d|, i requires 0 <= i < |d| => d[i].0)
  }

  /** `d[k] = v`: an existing key keeps its place and takes the new value. */
  function Assign(d: Deps, k: string, v: seq<string>): (r: Deps)
    ensures k in Names(d) ==> |r| == |d| && Names(r) == Names(d)
    ensures k !in Names(d) ==> r == d + [(k, v)]
    ensures (k, v) in r
    ensures forall i :: 0 <= i < |d| && d[i].0 != k ==> d[i] in r
    ensures forall e :: e in r ==> e == (k, v) || e in d
    decreases |d|
  {
    if d == [] then [(k, v)]
    else if d[0].0 == k then [(k, v)] + d[1..]
    else [d[0]] + Assign(d[1..], k, v)
  }

  /** The loop over the modules: each module's name takes a fresh set of
      the targets of its own imports. */
  function Dependencies(ms: seq<ParsedModule>): Deps
    decreases |ms|
  {
    if ms == [] then []
    else
      var m := ms[|ms| - 1];
      Assign(Dependencies(ms[..|ms| - 1]), ModuleName(m), Targets(m.imports))
  }

  /** Some module of `ms` has the name `n`. */
  ghost predicate NamedIn(ms: seq<ParsedModule>, n: string)
  {
    exists m :: m in ms && n == ModuleName(m)
  }

  lemma NamedInLast(ms: seq<ParsedModule>)
    requires ms != []
    ensures forall n :: NamedIn(ms, n) <==> NamedIn(ms[..|ms| - 1], n) || n == ModuleName(ms[|ms| - 1])
  {
    var init := ms[..|ms| - 1];
    var m := ms[|ms| - 1];
    forall n ensures NamedIn(ms, n) <==> NamedIn(init, n) || n == ModuleName(m) {
      if NamedIn(ms, n) && n != ModuleName(m) {
        var x :| x in ms && n == ModuleName(x);
        var i :| 0 <= i < |ms| && ms[i] == x;
        assert i < |init| && init[i] == x;
      }
      if NamedIn(init, n) {
        var x :| x in init && n == ModuleName(x);
        var i :| 0 <= i < |init| && init[i] == x;
        assert ms[i] == x;
      }
      if n == ModuleName(m) {
        assert m in ms;
      }
    }
  }

  /** The names are the modules' names, each once. */
  lemma {:induction false} DependencyNames(ms: seq<ParsedModule>)
    ensures Distinct(Names(Dependencies(ms)))
    ensures forall n :: n in Names(Dependencies(ms)) <==> NamedIn(ms, n)
    decreases |ms|
  {
    if ms != [] {
      var init := ms[..|ms| - 1];
      var m := ms[|ms| - 1];
      DependencyNames(init);
      AssignDistinct(Dependencies(init), ModuleName(m), Targets(m.imports));
      NamedInLast(ms);
    }
  }

  /** Each entry is a module's name with the targets of that module. */
  lemma {:induction false} DependencyEntries(ms: seq<ParsedModule>)
    ensures forall e :: e in Dependencies(ms) ==> exists m :: m in ms && e == (ModuleName(m), Targets(m.imports))
    decreases |ms|
  {
    if ms != [] {
      var init := ms[..|ms| - 1];
      DependencyEntries(init);
      assert ms == init + [ms[|ms| - 1]];
    }
  }

  /** The module that is the last of its name has its own targets in the
      dict: an earlier module of the same name was overwritten. */
  lemma {:induction false} DependencyLatest(ms: seq<ParsedModule>, i: nat)
    requires i < |ms| && forall j :: i < j < |ms| ==> ModuleName(ms[j]) != ModuleName(ms[i])
    ensures (ModuleName(ms[i]), Targets(ms[i].imports)) in Dependencies(ms)
    decreases |ms|
  {
    var init := ms[..|ms| - 1];
    var m := ms[|ms| - 1];
    var d := Dependencies(init);
    if i < |ms| - 1 {
      assert ms[i] == init[i];
      DependencyLatest(init, i);
      var e := (ModuleName(ms[i]), Targets(ms[i].imports));
      var k :| 0 <= k < |d| && d[k] == e;
      assert d[k].0 != ModuleName(m);
    }
  }

  lemma AssignDistinct(d: Deps, k: string, v: seq<string>)
    requires Distinct(Names(d))
    ensures Distinct(Names(Assign(d, k, v)))
    ensures forall n :: n in Names(Assign(d, k, v)) <==> n in Names(d) || n == k
    ensures forall e :: e in Assign(d, k, v) && e.0 == k ==> e == (k, v)
    decreases |d|
  {
    var r := Assign(d, k, v);
    if k !in Names(d) {
      assert Names(r) == Names(d) + [k];
    } else {
      forall n ensures n in Names(r) <==> n in Names(d) || n == k {
        if n == k {
          var i :| 0 <= i < |r| && r[i] == (k, v);
          assert Names(r)[i] == k;
        }
      }
    }
  }

  /** `f'    {sanitize(source)} --> {sanitize(target)}'` */
  function EdgeLine(source: string, target: string): string
  {
    "    " + SanitizeId(source) + " --> " + SanitizeId(target)
  }

  /** The edges from one source: one per target that is a node. */
  function EdgesFrom(source: string, ts: seq<string>, nodes: seq<string>): seq<string>
    decreases |ts|
  {
    if ts == [] then []
    else
      var rest := EdgesFrom(source, ts[..|ts| - 1], nodes);
      var t := ts[|ts| - 1];
      if t in nodes then rest + [EdgeLine(source, t)] else rest
  }

  function Edges(d: Deps, nodes: seq<string>): seq<string>
    decreases |d|
  {
    if d == [] then []
    else Edges(d[..|d| - 1], nodes) + EdgesFrom(d[|d| - 1].0, d[|d| - 1].1, nodes)
  }

  lemma {:induction false} EdgesFromOf(source: string, ts: seq<string>, nodes: seq<string>)
    ensures forall e :: e in EdgesFrom(source, ts, nodes) <==>
                          exists t :: t in ts && t in nodes && e == EdgeLine(source, t)
    decreases |ts|
  {
    if ts != [] {
      EdgesFromOf(source, ts[..|ts| - 1], nodes);
      assert ts == ts[..|ts| - 1] + [ts[|ts| - 1]];
    }
  }

  /** The edges are those of the entries, each entry's in turn. */
  lemma {:induction false} EdgesOf(d: Deps, nodes: seq<string>)
    ensures forall e :: e in Edges(d, nodes) <==>
                          exists i :: 0 <= i < |d| && e in EdgesFrom(d[i].0, d[i].1, nodes)
    decreases |d|
  {
    if d != [] {
      var init := d[..|d| - 1];
      EdgesOf(init, nodes);
      forall e ensures e in Edges(d, nodes) <==> exists i :: 0 <= i < |d| && e in EdgesFrom(d[i].0, d[i].1, nodes) {
        if e in Edges(init, nodes) {
          var i :| 0 <= i < |init| && e in EdgesFrom(init[i].0, init[i].1, nodes);
          assert d[i] == init[i];
        }
        if exists i :: 0 <= i < |d| && e in EdgesFrom(d[i].0, d[i].1, nodes) {
          var i :| 0 <= i < |d| && e in EdgesFrom(d[i].0, d[i].1, nodes);
          if i < |init| {
            assert init[i] == d[i];
          }
        }
      }
    }
  }

  /** `f'    {sanitize(node)}[{node}]\n'` for each node. */
  function NodeLines(nodes: seq<string>): string
    decreases |nodes|
  {
    if nodes == [] then ""
    else NodeLines(nodes[..|nodes| - 1]) + "    " + SanitizeId(nodes[|nodes| - 1]) + "[" + nodes[|nodes| - 1] + "]\n"
  }

  function EdgeLines(edges: seq<string>): string
    decreases |edges|
  {
    if edges == [] then ""
    else EdgeLines(edges[..|edges| - 1]) + edges[|edges| - 1] + "\n"
  }

  const GraphHeader := "```mermaid\ngraph TD\n"

  /** `_generate_module_dependency_diagram`. Nothing in it raises, so it
      never returns None. */
  function DependencyChart(ms: seq<ParsedModule>): string
  {
    var d := Dependencies(ms);
    var edges := Edges(d, Names(d));
    GraphHeader + (if edges == [] then NodeLines(Names(d)) else EdgeLines(edges)) + Close
  }

  /** The chart is a `graph TD` fenced block holding the edge lines, or
      the bare nodes only when there is no edge at all. */
  lemma DependencyChartShape(ms: seq<ParsedModule>)
    ensures var d := Dependencies(ms); var edges := Edges(d, Names(d)); var r := DependencyChart(ms);
      && StartsWith(r, GraphHeader) && EndsWith(r, Close)
      && (edges == [] ==> r == GraphHeader + NodeLines(Names(d)) + Close)
      && (edges != [] ==> r == GraphHeader + EdgeLines(edges) + Close)
  {
    var d := Dependencies(ms);
    var edges := Edges(d, Names(d));
    var r := DependencyChart(ms);
    var mid := if edges == [] then NodeLines(Names(d)) else EdgeLines(edges);
    assert r == GraphHeader + mid + Close;
    assert r[..|GraphHeader|] == GraphHeader;
    assert r[|r| - |Close|..] == Close;
  }

  /** Every edge goes from a module to the target of one of its kept
      imports, and that target is the name of a module. */
  lemma DependencyEdgeOrigin(ms: seq<ParsedModule>, e: string)
    requires var d := Dependencies(ms); e in Edges(d, Names(d))
    ensures exists m, imp :: m in ms && imp in m.imports && Kept(imp)
                             && (exists n :: n in ms && ModuleName(n) == Target(imp))
                             && e == EdgeLine(ModuleName(m), Target(imp))
  {
    var d := Dependencies(ms);
    DependencyEntries(ms);
    DependencyNames(ms);
    EdgesOf(d, Names(d));
    var i :| 0 <= i < |d| && e in EdgesFrom(d[i].0, d[i].1, Names(d));
    EdgesFromOf(d[i].0, d[i].1, Names(d));
    var t :| t in d[i].1 && t in Names(d) && e == EdgeLine(d[i].0, t);
    assert NamedIn(ms, t);
    assert d[i] in d;
    var m :| m in ms && d[i] == (ModuleName(m), Targets(m.imports));
    TargetsOf(m.imports);
    var imp :| imp in m.imports && Kept(imp) && t == Target(imp);
  }

  /** An import of another module of the repository, kept by the filter,
      is drawn as an edge when its module is the last of its name. */
  lemma DependencyEdgeDrawn(ms: seq<ParsedModule>, i: nat, imp: Import, j: nat)
    requires i < |ms| && j < |ms| && imp in ms[i].imports && Kept(imp) && ModuleName(ms[j]) == Target(imp)
    requires forall k :: i < k < |ms| ==> ModuleName(ms[k]) != ModuleName(ms[i])
    ensures var d := Dependencies(ms); EdgeLine(ModuleName(ms[i]), Target(imp)) in Edges(d, Names(d))
  {
    var d := Dependencies(ms);
    DependencyNames(ms);
    DependencyLatest(ms, i);
    EdgesOf(d, Names(d));
    TargetsOf(ms[i].imports);
    var e := (ModuleName(ms[i]), Targets(ms[i].imports));
    var k :| 0 <= k < |d| && d[k] == e;
    assert ms[j] in ms;
    assert NamedIn(ms, Target(imp));
    assert Target(imp) in Names(d);
    assert Target(imp) in d[k].1;
    EdgesFromOf(d[k].0, d[k].1, Names(d));
  }

  method CollectTargets(imps: seq<Import>) returns (ts: seq<string>)
    ensures ts == Targets(imps)
  {
    ts := [];
    for i := 0 to |imps|
      invariant ts == Targets(imps[..i])
    {
      assert imps[..i + 1][..i] == imps[..i];
      var imp := imps[i];
      if imp.module_name != "" && !Stdlib(imp.module_name) {
        var target := LastPart(imp.module_name, ".");
        if target !in ts {
          ts := ts + [target];
        }
      }
    }
    assert imps[..|imps|] == imps;
  }

  method CollectDependencies(ms: seq<ParsedModule>) returns (d: Deps)
    ensures d == Dependencies(ms)
  {
    d := [];
    for i := 0 to |ms|
      invariant d == Dependencies(ms[..i])
    {
      assert ms[..i + 1][..i] == ms[..i];
      var ts := CollectTargets(ms[i].imports);
      d := Assign(d, ModuleName(ms[i]), ts);
    }
    assert ms[..|ms|] == ms;
  }

  method CollectEdgesFrom(source: string, ts: seq<string>, nodes: seq<string>) returns (edges: seq<string>)
    ensures edges == EdgesFrom(source, ts, nodes)
  {
    edges := [];
    for i := 0 to |ts|
      invariant edges == EdgesFrom(source, ts[..i], nodes)
    {
      assert ts[..i + 1][..i] == ts[..i];
      if ts[i] in nodes {
        edges := edges + [EdgeLine(source, ts[i])];
      }
    }
    assert ts[..|ts|] == ts;
  }

  method CollectEdges(d: Deps, nodes: seq<string>) returns (edges: seq<string>)
    ensures edges == Edges(d, nodes)
  {
    edges := [];
    for i := 0 to |d|
      invariant edges == Edges(d[..i], nodes)
    {
      assert d[..i + 1][..i] == d[..i];
      var more := CollectEdgesFrom(d[i].0, d[i].1, nodes);
      edges := edges + more;
    }
    assert d[..|d|] == d;
  }

  method RenderNodes(nodes: seq<string>) returns (text: string)
    ensures text == NodeLines(nodes)
  {
    text := "";
    for i := 0 to |nodes|
      invariant text == NodeLines(nodes[..i])
    {
      assert nodes[..i + 1][..i] == nodes[..i];
      text := text + "    " + SanitizeId(nodes[i]) + "[" + nodes[i] + "]\n";
    }
    assert nodes[..|nodes|] == nodes;
  }

  method RenderEdges(edges: seq<string>) returns (text: string)
    ensures text == EdgeLines(edges)
  {
    text := "";
    for i := 0 to |edges|
      invariant text == EdgeLines(edges[..i])
    {
      assert edges[..i + 1][..i] == edges[..i];
      text := text + edges[i] + "\n";
    }
    assert edges[..|edges|] == edges;
  }

  /** `_generate_module_dependency_diagram` */
  method BuildDependencyChart(ms: seq<ParsedModule>) returns (chart: string)
    ensures chart == DependencyChart(ms)
  {
    var d := CollectDependencies(ms);
    var nodes := Names(d);
    var edges := CollectEdges(d, nodes);
    var content;
    if edges == [] {
      content := RenderNodes(nodes);
    } else {
      content := RenderEdges(edges);
    }
    chart := GraphHeader + content + Close;
  }

  // ------------------------------------------------- _generate_class_diagrams

  /** The quote Python's `repr` puts around a string: a double quote when
      the string holds a single quote and no double quote, a single quote
      otherwise. */
  function ReprQuote(s: string): (q: char)
    ensures q == '\'' || q == '"'
  {
    if '\'' in s && '"' !in s then '"' else '\''
  }

  const HexDigits := "0123456789abcdef"

  /** The characters `repr` writes as `\xNN`: the control characters other
      than tab, newline and carriage return, DEL, the C1 controls, the
      no-break space and the soft hyphen. */
  predicate HexEscaped(c: char)
  {
    var n := c as int;
    (n < 0x20 && c != '\t' && c != '\n' && c != '\r') || (0x7f <= n <= 0xa0) || n == 0xad
  }

  /** One character as `repr` writes it between quotes `q`. */
  function EscapeChar(c: char, q: char): string
  {
    if c == q || c == '\\' then ['\\', c]
    else if c == '\t' then ['\\', 't']
    else if c == '\n' then ['\\', 'n']
    else if c == '\r' then ['\\', 'r']
    else if HexEscaped(c) then ['\\', 'x', HexDigits[c as int / 16], HexDigits[c as int % 16]]
    else [c]
  }

  function Escaped(s: string, q: char): string
    decreases |s|
  {
    if s == [] then [] else EscapeChar(s[0], q) + Escaped(s[1..], q)
  }

  /** Python's `repr` of a `str`. */
  function PyRepr(s: string): (r: string)
    ensures |r| >= 2 && r[0] == ReprQuote(s) && r[|r| - 1] == ReprQuote(s)
  {
    var q := ReprQuote(s);
    [q] + Escaped(s, q) + [q]
  }

  /** The value of a lower-case hex digit. */
  function HexValue(d: char): (n: int)
    ensures 0 <= n < 16
  {
    if '0' <= d <= '9' then d as int - '0' as int
    else if 'a' <= d <= 'f' then d as int - 'a' as int + 10
    else 0
  }

  /** Reading the escapes back: what Python's parser makes of a string
      literal's body. */
  function Unescaped(t: string): string
    decreases |t|
  {
    if t == [] then []
    else if t[0] == '\\' && |t| >= 2 then
      var e := t[1];
      if e == 't' then ['\t'] + Unescaped(t[2..])
      else if e == 'n' then ['\n'] + Unescaped(t[2..])
      else if e == 'r' then ['\r'] + Unescaped(t[2..])
      else if e == 'x' && |t| >= 4 then [(HexValue(t[2]) * 16 + HexValue(t[3])) as char] + Unescaped(t[4..])
      else [e] + Unescaped(t[2..])
    else [t[0]] + Unescaped(t[1..])
  }

  /** A hex digit reads back as its value. */
  lemma HexDigitValue(k: int)
    requires 0 <= k < 16
    ensures HexValue(HexDigits[k]) == k
  {
  }

  /** One escaped character reads back as that character. */
  lemma UnescapeChar(c: char, q: char, rest: string)
    requires q == '\'' || q == '"'
    ensures Unescaped(EscapeChar(c, q) + rest) == [c] + Unescaped(rest)
  {
    var t := EscapeChar(c, q) + rest;
    if c == q || c == '\\' || c == '\t' || c == '\n' || c == '\r' {
      assert t[2..] == rest;
    } else if HexEscaped(c) {
      var n := c as int;
      HexDigitValue(n / 16);
      HexDigitValue(n % 16);
      assert t[4..] == rest;
    } else {
      assert t[1..] == rest;
    }
  }

  /** `repr` loses nothing: reading the text between the quotes back gives
      the string. */
  lemma {:induction false} EscapedRoundTrip(s: string, q: char)
    requires q == '\'' || q == '"'
    ensures Unescaped(Escaped(s, q)) == s
    decreases |s|
  {
    if s != [] {
      EscapedRoundTrip(s[1..], q);
      UnescapeChar(s[0], q, Escaped(s[1..], q));
    }
  }

  lemma PyReprRoundTrip(s: string)
    ensures var r := PyRepr(s); Unescaped(r[1..|r| - 1]) == s
  {
    var q := ReprQuote(s);
    var r := PyRepr(s);
    assert r[1..|r| - 1] == Escaped(s, q);
    EscapedRoundTrip(s, q);
  }

  /** A character `repr` writes as it is. */
  predicate Plain(c: char)
  {
    ' ' <= c <= '~' && c != '\\' && c != '\''
  }

  /** Text of plain characters comes back in single quotes, unchanged. */
  lemma {:induction false} PlainRepr(s: string)
    requires forall k :: 0 <= k < |s| ==> Plain(s[k])
    ensures PyRepr(s) == "'" + s + "'"
  {
    assert '\'' !in s;
    PlainEscaped(s);
  }

  lemma {:induction false} PlainEscaped(s: string)
    requires forall k :: 0 <= k < |s| ==> Plain(s[k])
    ensures Escaped(s, '\'') == s
    decreases |s|
  {
    if s != [] {
      PlainEscaped(s[1..]);
      assert s == [s[0]] + s[1..];
    }
  }

  /** A default of `'a'`, as the parser keeps it, is shown in double
      quotes. */
  lemma QuotedDefault()
    ensures PyRepr("'a'") == "\"'a'\""
  {
    assert Escaped("'a'", '"') == "'a'" by {
      assert Escaped("", '"') == "";
      assert Escaped("'", '"') == "'";
      assert ("'a'")[1..] == "a'";
      assert ("a'")[1..] == "'";
    }
  }

  function ReprOr(s: Option<string>): string
  {
    if s.Some? then PyRepr(s.value) else "None"
  }

  /** `str(attr)` of a `ClassAttribute` model: its fields as `name=value`,
      each value as `repr` shows it. */
  function AttrText(a: ClassAttribute): string
  {
    "name=" + PyRepr(a.name) + " type_hint=" + ReprOr(a.type_hint) + " default_value=" + ReprOr(a.default_value)
  }

  /** `x = 'a'` in a class body is shown with its quoted default in
      double quotes. */
  lemma AttrTextQuotedDefault()
    ensures AttrText(ClassAttribute("x", None, Some("'a'"))) == "name=" + "'x'" + " type_hint=None" + " default_value=" + "\"'a'\""
  {
    QuotedDefault();
    PlainRepr("x");
  }

  function AttrLines(attrs: seq<ClassAttribute>): string
    decreases |attrs|
  {
    if attrs == [] then ""
    else AttrLines(attrs[..|attrs| - 1]) + "        +" + AttrText(attrs[|attrs| - 1]) + "\n"
  }

  function ParamNames(ps: seq<FunctionParam>): (r: seq<string>)
    ensures |r| == |ps| && forall i :: 0 <= i < |ps| ==> r[i] == ps[i].name
  {
    seq(|ps|, i requires 0 <= i < |ps| => ps[i].name)
  }

  function MethodLine(f: ParsedFunction): string
  {
    "        +" + f.name + "(" + Join(ParamNames(f.params), ", ") + ")\n"
  }

  function MethodLines(fs: seq<ParsedFunction>): string
    decreases |fs|
  {
    if fs == [] then "" else MethodLines(fs[..|fs| - 1]) + MethodLine(fs[|fs| - 1])
  }

  /** `f'    {base_name} <|-- {cls.name}\n'`, the base named by its last
      dotted part. */
  function BaseLines(bases: seq<string>, cls: string): string
    decreases |bases|
  {
    if bases == [] then ""
    else BaseLines(bases[..|bases| - 1], cls) + "    " + LastPart(bases[|bases| - 1], ".") + " <|-- " + cls + "\n"
  }

  function ClassHead(c: ParsedClass): string
  {
    "    class " + SanitizeId(c.name) + " {\n"
  }

  /** One class: its block of attributes and methods, then its bases. */
  function ClassBlock(c: ParsedClass): string
  {
    ClassHead(c) + AttrLines(c.attributes) + MethodLines(c.methods) + "    }\n"
    + BaseLines(c.base_classes, c.name)
  }

  function ClassBlocks(cs: seq<ParsedClass>): string
    decreases |cs|
  {
    if cs == [] then "" else ClassBlocks(cs[..|cs| - 1]) + ClassBlock(cs[|cs| - 1])
  }

  lemma ClassBlocksNext(cs: seq<ParsedClass>, i: nat)
    requires i < |cs|
    ensures ClassBlocks(cs[..i + 1]) == ClassBlocks(cs[..i]) + ClassBlock(cs[i])
  {
    assert cs[..i + 1][..i] == cs[..i];
  }

  const ClassHeader := "```mermaid\nclassDiagram\n"

  /** The class diagram of one module; `relationships` stays empty, so
      nothing follows the blocks. */
  function ClassChart(m: ParsedModule): string
  {
    ClassHeader + ClassBlocks(m.classes) + Close
  }

  function ClassKey(m: ParsedModule): string { "class_" + ModuleName(m) }

  /** `_generate_class_diagrams`: a later module of the same name replaces
      an earlier one's diagram. */
  function ClassDiagrams(ms: seq<ParsedModule>): map<string, string>
    decreases |ms|
  {
    if ms == [] then map[]
    else
      var d := ClassDiagrams(ms[..|ms| - 1]);
      var m := ms[|ms| - 1];
      if m.classes == [] then d else d[ClassKey(m) := ClassChart(m)]
  }

  /** There is a diagram for exactly the modules with classes, under
      `class_` and the module's name. */
  lemma {:induction false} ClassDiagramKeys(ms: seq<ParsedModule>)
    ensures forall k :: k in ClassDiagrams(ms) <==> exists m :: m in ms && m.classes != [] && k == ClassKey(m)
    decreases |ms|
  {
    if ms != [] {
      var init := ms[..|ms| - 1];
      ClassDiagramKeys(init);
      assert ms == init + [ms[|ms| - 1]];
    }
  }

  /** The diagram under a key is the chart of the last module with classes
      that has that key. */
  lemma {:induction false} ClassDiagramLatest(ms: seq<ParsedModule>, i: nat)
    requires i < |ms| && ms[i].classes != []
    requires forall j :: i < j < |ms| && ms[j].classes != [] ==> ClassKey(ms[j]) != ClassKey(ms[i])
    ensures ClassKey(ms[i]) in ClassDiagrams(ms) && ClassDiagrams(ms)[ClassKey(ms[i])] == ClassChart(ms[i])
    decreases |ms|
  {
    var init := ms[..|ms| - 1];
    if i < |ms| - 1 {
      assert ms[i] == init[i];
      ClassDiagramLatest(init, i);
    }
  }

  lemma ContainsLeft(a: string, b: string, sub: string)
    requires Contains(a, sub)
    ensures Contains(a + b, sub)
  {
    assert (a + b)[..|a|] == a;
    ContainsInfix(a + b, 0, |a|, sub);
  }

  lemma ContainsRight(a: string, b: string, sub: string)
    requires StartsWith(b, sub)
    ensures Contains(a + b, sub)
  {
    assert (a + b)[|a|..|a| + |sub|] == sub;
    OccursAtContains(a + b, sub, |a|);
  }

  lemma ClassBlockStarts(c: ParsedClass)
    ensures StartsWith(ClassBlock(c), ClassHead(c))
  {
    var h := ClassHead(c);
    var x := h + AttrLines(c.attributes);
    var y := x + MethodLines(c.methods);
    var z := y + "    }\n";
    StartsAppend(h, AttrLines(c.attributes), h);
    StartsAppend(x, MethodLines(c.methods), h);
    StartsAppend(y, "    }\n", h);
    StartsAppend(z, BaseLines(c.base_classes, c.name), h);
  }

  /** A prefix stays a prefix when something is appended. */
  lemma StartsAppend(a: string, b: string, p: string)
    requires StartsWith(a, p)
    ensures StartsWith(a + b, p)
  {
    assert (a + b)[..|p|] == a[..|p|];
  }

  /** Every class of the module is declared in its chart. */
  lemma {:induction false} ClassBlocksShow(cs: seq<ParsedClass>, i: nat)
    requires i < |cs|
    ensures Contains(ClassBlocks(cs), ClassHead(cs[i]))
    decreases |cs|
  {
    var init := cs[..|cs| - 1];
    assert ClassBlocks(cs) == ClassBlocks(init) + ClassBlock(cs[|cs| - 1]);
    if i < |cs| - 1 {
      assert cs[i] == init[i];
      ClassBlocksShow(init, i);
      ContainsLeft(ClassBlocks(init), ClassBlock(cs[|cs| - 1]), ClassHead(cs[i]));
    } else {
      ClassBlockStarts(cs[i]);
      ContainsRight(ClassBlocks(init), ClassBlock(cs[i]), ClassHead(cs[i]));
    }
  }

  lemma ClassChartShows(m: ParsedModule, i: nat)
    requires i < |m.classes|
    ensures Contains(ClassChart(m), ClassHead(m.classes[i]))
  {
    ClassBlocksShow(m.classes, i);
    var r := ClassChart(m);
    assert r[|ClassHeader|..|ClassHeader| + |ClassBlocks(m.classes)|] == ClassBlocks(m.classes);
    ContainsInfix(r, |ClassHeader|, |ClassHeader| + |ClassBlocks(m.classes)|, ClassHead(m.classes[i]));
  }

  method RenderAttributes(attrs: seq<ClassAttribute>) returns (text: string)
    ensures text == AttrLines(attrs)
  {
    text := "";
    for i := 0 to |attrs|
      invariant text == AttrLines(attrs[..i])
    {
      assert attrs[..i + 1][..i] == attrs[..i];
      text := text + "        +" + AttrText(attrs[i]) + "\n";
    }
    assert attrs[..|attrs|] == attrs;
  }

  method RenderMethods(fs: seq<ParsedFunction>) returns (text: string)
    ensures text == MethodLines(fs)
  {
    text := "";
    for i := 0 to |fs|
      invariant text == MethodLines(fs[..i])
    {
      assert fs[..i + 1][..i] == fs[..i];
      text := text + MethodLine(fs[i]);
    }
    assert fs[..|fs|] == fs;
  }

  method RenderBases(bases: seq<string>, cls: string) returns (text: string)
    ensures text == BaseLines(bases, cls)
  {
    text := "";
    for i := 0 to |bases|
      invariant text == BaseLines(bases[..i], cls)
    {
      assert bases[..i + 1][..i] == bases[..i];
      text := text + "    " + LastPart(bases[i], ".") + " <|-- " + cls + "\n";
    }
    assert bases[..|bases|] == bases;
  }

  method RenderClass(c: ParsedClass) returns (text: string)
    ensures text == ClassBlock(c)
  {
    var attrs := RenderAttributes(c.attributes);
    var methods := RenderMethods(c.methods);
    var bases := RenderBases(c.base_classes, c.name);
    text := ClassHead(c) + attrs + methods + "    }\n" + bases;
  }

  method RenderClassChart(m: ParsedModule) returns (chart: string)
    ensures chart == ClassChart(m)
  {
    var content := "";
    for i := 0 to |m.classes|
      invariant content == ClassBlocks(m.classes[..i])
    {
      ClassBlocksNext(m.classes, i);
      var block := RenderClass(m.classes[i]);
      content := content + block;
    }
    assert m.classes[..|m.classes|] == m.classes;
    chart := ClassHeader + content + Close;
  }

  /** `_generate_class_diagrams` */
  method BuildClassDiagrams(ms: seq<ParsedModule>) returns (diagrams: map<string, string>)
    ensures diagrams == ClassDiagrams(ms)
  {
    diagrams := map[];
    for i := 0 to |ms|
      invariant diagrams == ClassDiagrams(ms[..i])
    {
      assert ms[..i + 1][..i] == ms[..i];
      if ms[i].classes != [] {
        var chart := RenderClassChart(ms[i]);
        diagrams := diagrams[ClassKey(ms[i]) := chart];
      }
    }
    assert ms[..|ms|] == ms;
  }

  // ----------------------------------------- _generate_function_flow_diagrams

  const FlowLimit := 5
  const MinFlowCode := 20
  const MinFlowBody := 30

  /** A function or method whose stripped text has more than ten lines. */
  predicate IsFlowCandidate(sn: CodeSnippet)
  {
    sn.symbol_type in ["function", "method"] && |Split(Strip(sn.text_content), "\n")| > 10
  }

  /** `complex_functions`, in snippet order. */
  function FlowCandidates(sns: seq<CodeSnippet>): (r: seq<CodeSnippet>)
    ensures |r| <= |sns|
    ensures forall x :: x in r <==> x in sns && IsFlowCandidate(x)
    decreases |sns|
  {
    if sns == [] then []
    else
      assert sns == sns[..|sns| - 1] + [sns[|sns| - 1]];
      var rest := FlowCandidates(sns[..|sns| - 1]);
      if IsFlowCandidate(sns[|sns| - 1]) then rest + [sns[|sns| - 1]] else rest
  }

  /** `complex_functions[:5]` */
  function FirstFlows(sns: seq<CodeSnippet>): (r: seq<CodeSnippet>)
    ensures |r| <= FlowLimit && forall x :: x in r ==> x in sns && IsFlowCandidate(x)
  {
    var cs := FlowCandidates(sns);
    cs[..Min(|cs|, FlowLimit)]
  }

  /** The diagram validation for flow charts: at least 30 characters and
      the word `graph` in any case. */
  predicate FlowAccepts(body: string)
  {
    |body| >= MinFlowBody && Contains(Lower(body), "graph")
  }

  function Fenced(body: string): string
  {
    Fence + "\n" + body + "\n" + Close
  }

  /** `_generate_function_flow_with_ai`: None for short code, other kinds
      of snippet, a failed or empty reply, a reply without a fenced block
      or a block the validation refuses. */
  function FlowChart(cfg: Settings, env: Env, sn: CodeSnippet): Option<string>
  {
    if |sn.text_content| < MinFlowCode then None
    else if sn.symbol_type !in ["function", "method"] then None
    else
      match Ask(cfg, env, FlowChartRequest(sn.text_content))
      case Answer(Some(c)) =>
        if c == "" then None
        else
          (match ExtractMermaid(c)
           case None => None
           case Some(body) => if FlowAccepts(body) then Some(Fenced(body)) else None)
      case _ => None
  }

  /** A chart is made only for long enough code of a function or method,
      only with an API key, and is a fenced body that passed validation. */
  lemma FlowChartShape(cfg: Settings, env: Env, sn: CodeSnippet)
    ensures var r := FlowChart(cfg, env, sn);
      && (r.Some? ==> |sn.text_content| >= MinFlowCode && sn.symbol_type in ["function", "method"])
      && (r.Some? ==> exists body :: FlowAccepts(body) && IsStripped(body) && r.value == Fenced(body))
      && (!Truthy(cfg.openrouter_api_key) ==> r.None?)
  {
  }

  /** A reply that is one fenced, acceptable diagram is kept as it is. */
  lemma FlowChartKeepsReply(cfg: Settings, env: Env, sn: CodeSnippet, body: string)
    requires |sn.text_content| >= MinFlowCode && sn.symbol_type in ["function", "method"]
    requires body != [] && IsStripped(body) && !Contains(body, Close) && FlowAccepts(body)
    requires Ask(cfg, env, FlowChartRequest(sn.text_content)) == Answer(Some(Fenced(body)))
    ensures FlowChart(cfg, env, sn) == Some(Fenced(body))
  {
    ExtractFenced(body);
  }

  function FlowKey(name: string): string
  {
    "flow_" + Replace(name, ".", "_")
  }

  /** The loop over the first five candidates; a successful chart for a
      snippet without a symbol name makes `None.replace` raise, which ends
      the loop and the stage. */
  function Flows(cfg: Settings, env: Env, cs: seq<CodeSnippet>): Result<map<string, string>>
    decreases |cs|
  {
    if cs == [] then Ok(map[])
    else FlowAdd(Flows(cfg, env, cs[..|cs| - 1]), cs[|cs| - 1], FlowChart(cfg, env, cs[|cs| - 1]))
  }

  /** One turn of that loop, given the chart made for the snippet. */
  function FlowAdd(acc: Result<map<string, string>>, sn: CodeSnippet, chart: Option<string>): Result<map<string, string>>
  {
    match acc
    case Err(e) => Err(e)
    case Ok(d) =>
      match chart
      case None => Ok(d)
      case Some(g) =>
        if sn.symbol_name.None? then Err(NoReplace) else Ok(d[FlowKey(sn.symbol_name.value) := g])
  }

  lemma FlowsStep(cfg: Settings, env: Env, cs: seq<CodeSnippet>, i: nat)
    requires i < |cs|
    ensures Flows(cfg, env, cs[..i + 1]) == FlowAdd(Flows(cfg, env, cs[..i]), cs[i], FlowChart(cfg, env, cs[i]))
  {
    assert cs[..i + 1][..i] == cs[..i];
  }

  /** One turn from a loop that has not failed: a candidate without a chart
      changes nothing, one with a chart but no name fails, and otherwise
      the chart is stored under its key. */
  lemma FlowsNext(cfg: Settings, env: Env, cs: seq<CodeSnippet>, i: nat, d: map<string, string>)
    requires i < |cs| && Flows(cfg, env, cs[..i]) == Ok(d)
    ensures var chart := FlowChart(cfg, env, cs[i]);
      Flows(cfg, env, cs[..i + 1]) ==
        if chart.None? then Ok(d)
        else if cs[i].symbol_name.None? then Err(NoReplace)
        else Ok(d[FlowKey(cs[i].symbol_name.value) := chart.value])
  {
    FlowsStep(cfg, env, cs, i);
  }

  /** The key, and the candidate it came from, of a stored chart. */
  predicate FlowFrom(cfg: Settings, env: Env, cs: seq<CodeSnippet>, k: string)
  {
    exists i :: 0 <= i < |cs| && cs[i].symbol_name.Some? && k == FlowKey(cs[i].symbol_name.value)
                && FlowChart(cfg, env, cs[i]).Some?
  }

  /** At most one chart per candidate, each under `flow_` and the name of
      a candidate whose chart succeeded. */
  lemma {:induction false} FlowsOf(cfg: Settings, env: Env, cs: seq<CodeSnippet>)
    ensures Flows(cfg, env, cs).Ok? ==>
      var d := Flows(cfg, env, cs).value;
      && |d| <= |cs|
      && forall k :: k in d ==> StartsWith(k, "flow_") && FlowFrom(cfg, env, cs, k)
    decreases |cs|
  {
    if cs != [] {
      var init := cs[..|cs| - 1];
      FlowsOf(cfg, env, init);
      if Flows(cfg, env, cs).Ok? {
        var d := Flows(cfg, env, cs).value;
        var d0 := Flows(cfg, env, init).value;
        forall k | k in d ensures StartsWith(k, "flow_") && FlowFrom(cfg, env, cs, k) {
          FlowFromGrows(cfg, env, cs, k);
          if k !in d0 {
            var n := cs[|cs| - 1].symbol_name.value;
            assert k == FlowKey(n);
            assert k[..5] == "flow_";
          }
        }
      }
    }
  }

  lemma FlowFromGrows(cfg: Settings, env: Env, cs: seq<CodeSnippet>, k: string)
    requires cs != []
    ensures FlowFrom(cfg, env, cs[..|cs| - 1], k) ==> FlowFrom(cfg, env, cs, k)
    ensures var sn := cs[|cs| - 1];
      sn.symbol_name.Some? && k == FlowKey(sn.symbol_name.value) && FlowChart(cfg, env, sn).Some? ==>
        FlowFrom(cfg, env, cs, k)
  {
    var init := cs[..|cs| - 1];
    if FlowFrom(cfg, env, init, k) {
      var i :| 0 <= i < |init| && init[i].symbol_name.Some? && k == FlowKey(init[i].symbol_name.value)
               && FlowChart(cfg, env, init[i]).Some?;
      assert cs[i] == init[i];
    }
  }

  /** Without an API key no chart is made and nothing raises. */
  lemma {:induction false} NoKeyNoFlows(cfg: Settings, env: Env, cs: seq<CodeSnippet>)
    requires !Truthy(cfg.openrouter_api_key)
    ensures Flows(cfg, env, cs) == Ok(map[])
    decreases |cs|
  {
    if cs != [] {
      NoKeyNoFlows(cfg, env, cs[..|cs| - 1]);
    }
  }

  /** Once the loop has raised, the rest does not matter. */
  lemma {:induction false} FlowsErrSticks(cfg: Settings, env: Env, cs: seq<CodeSnippet>, i: nat, e: string)
    requires i <= |cs| && Flows(cfg, env, cs[..i]) == Err(e)
    ensures Flows(cfg, env, cs) == Err(e)
    decreases |cs| - i
  {
    if i < |cs| {
      assert cs[..i + 1][..i] == cs[..i];
      FlowsErrSticks(cfg, env, cs, i + 1, e);
    } else {
      assert cs[..i] == cs;
    }
  }

  /** `_generate_function_flow_diagrams` */
  method BuildFlows(cfg: Settings, env: Env, sns: seq<CodeSnippet>) returns (r: Result<map<string, string>>)
    ensures r == Flows(cfg, env, FirstFlows(sns))
  {
    var cs := FirstFlows(sns);
    var diagrams: map<string, string> := map[];
    for i := 0 to |cs|
      invariant Flows(cfg, env, cs[..i]) == Ok(diagrams)
    {
      var chart := FlowChart(cfg, env, cs[i]);
      FlowsNext(cfg, env, cs, i, diagrams);
      if chart.Some? {
        if cs[i].symbol_name.None? {
          FlowsErrSticks(cfg, env, cs, i + 1, NoReplace);
          return Err(NoReplace);
        }
        diagrams := diagrams[FlowKey(cs[i].symbol_name.value) := chart.value];
      }
    }
    assert cs[..|cs|] == cs;
    r := Ok(diagrams);
  }

  // ------------------------------------------- _generate_architectural_diagram

  const ArchSnippetLimit := 10

  /** The file paths of the first ten snippets, non-empty ones only, each
      once, in order. */
  function ArchFiles(sns: seq<CodeSnippet>): seq<string>
    decreases |sns|
  {
    if sns == [] then []
    else
      var rest := ArchFiles(sns[..|sns| - 1]);
      var p := sns[|sns| - 1].file_path;
      if |sns| <= ArchSnippetLimit && p != "" && p !in rest then rest + [p] else rest
  }

  lemma {:induction false} ArchFilesOf(sns: seq<CodeSnippet>)
    ensures Distinct(ArchFiles(sns))
    ensures forall p :: p in ArchFiles(sns) <==>
              p != "" && exists i :: 0 <= i < |sns| && i < ArchSnippetLimit && sns[i].file_path == p
    decreases |sns|
  {
    if sns != [] {
      var init := sns[..|sns| - 1];
      ArchFilesOf(init);
      forall p ensures p in ArchFiles(sns) <==>
                       p != "" && exists i :: 0 <= i < |sns| && i < ArchSnippetLimit && sns[i].file_path == p
      {
        if exists i :: 0 <= i < |init| && i < ArchSnippetLimit && init[i].file_path == p {
          var i :| 0 <= i < |init| && i < ArchSnippetLimit && init[i].file_path == p;
          assert sns[i] == init[i];
        }
        if exists i :: 0 <= i < |sns| && i < ArchSnippetLimit && sns[i].file_path == p {
          var i :| 0 <= i < |sns| && i < ArchSnippetLimit && sns[i].file_path == p;
          if i < |init| {
            assert init[i] == sns[i];
          }
        }
      }
    }
  }

  method CollectFiles(sns: seq<CodeSnippet>) returns (paths: seq<string>)
    ensures paths == ArchFiles(sns[..Min(|sns|, ArchSnippetLimit)])
  {
    var first := sns[..Min(|sns|, ArchSnippetLimit)];
    paths := [];
    for i := 0 to |first|
      invariant paths == ArchFiles(first[..i])
    {
      assert first[..i + 1][..i] == first[..i];
      var p := first[i].file_path;
      if p != "" && p !in paths {
        paths := paths + [p];
      }
    }
    assert first[..|first|] == first;
  }

  /** The first ten snippets are all that matter. */
  lemma {:induction false} ArchFilesFirst(sns: seq<CodeSnippet>)
    ensures ArchFiles(sns) == ArchFiles(sns[..Min(|sns|, ArchSnippetLimit)])
    decreases |sns|
  {
    if |sns| > ArchSnippetLimit {
      ArchFilesFirst(sns[..|sns| - 1]);
      assert sns[..|sns| - 1][..ArchSnippetLimit] == sns[..ArchSnippetLimit];
    } else {
      assert sns[..|sns|] == sns;
    }
  }

  /** `rag_results.get("architectural_overview", {}).get("en", "")` */
  function ArchOverview(rag: RagResults): Option<string>
  {
    if "en" in rag.architectural_overview then rag.architectural_overview["en"] else Some("")
  }

  /** The reply handling of the architecture chart: any non-empty fenced
      block is taken. */
  function ArchReply(reply: Reply): Option<string>
  {
    match reply
    case Answer(Some(c)) =>
      if c == "" then None
      else
        (match ExtractMermaid(c)
         case None => None
         case Some(body) => if body == "" then None else Some(Fenced(body)))
    case _ => None
  }

  /** The architecture chart is a non-empty fenced body of the reply, and
      a fenced reply comes back as it is. */
  lemma ArchReplyShape(reply: Reply)
    ensures ArchReply(reply).Some? ==>
      exists body :: body != "" && IsStripped(body) && ArchReply(reply).value == Fenced(body)
  {
  }

  lemma ArchReplyFenced(body: string)
    requires body != [] && IsStripped(body) && !Contains(body, Close)
    ensures ArchReply(Answer(Some(Fenced(body)))) == Some(Fenced(body))
  {
    ExtractFenced(body);
    assert ExtractMermaid(Fenced(body)) == Some(body);
  }

  /** `_generate_architectural_diagram` as written: `repo_info.get(...)` on
      the `RepositoryInfo` the cloner stores raises `AttributeError`, which
      the `except` turns into None. The first ten snippets' paths go into
      the prompt. */
  function ArchitectureChartAsWritten(cfg: Settings, env: Env, f: Fields): Option<string>
  {
    match GetRag(f)
    case None => None
    case Some(rag) =>
      if |rag.architectural_overview| == 0 then None
      else if "repo_info" in f then None
      else
        match GetSnippets(f)
        case None => None
        case Some(sns) =>
          ArchReply(Ask(cfg, env, ArchitectureChartRequest("Project", ArchOverview(rag), ArchFiles(sns))))
  }

  /** The repository name as evidently intended: the stored repository's
      `name`, and "Project" when there is none. */
  function RepoName(f: Fields): string
  {
    if GetRepoInfo(f).Some? then GetRepoInfo(f).value.name else "Project"
  }

  /** `_generate_architectural_diagram` with the name read from the stored
      repository. */
  function ArchitectureChart(cfg: Settings, env: Env, f: Fields): Option<string>
  {
    match GetRag(f)
    case None => None
    case Some(rag) =>
      if |rag.architectural_overview| == 0 then None
      else
        match GetSnippets(f)
        case None => None
        case Some(sns) =>
          ArchReply(Ask(cfg, env, ArchitectureChartRequest(RepoName(f), ArchOverview(rag), ArchFiles(sns))))
  }

  /** As written, a state holding a repository never gets an architecture
      chart, and the cloner always stores one before this stage runs. */
  lemma ArchitectureAsWrittenNeverWithRepo(cfg: Settings, env: Env, f: Fields)
    requires GetRepoInfo(f).Some?
    ensures ArchitectureChartAsWritten(cfg, env, f) == None
  {
  }

  /** With the name read from the repository, the same state gets the
      model's chart, asked for under the repository's own name. */
  lemma ArchitectureIntended(cfg: Settings, env: Env, f: Fields, body: string)
    requires GetRepoInfo(f).Some? && GetRag(f).Some? && |GetRag(f).value.architectural_overview| > 0
    requires GetSnippets(f).Some?
    requires body != [] && IsStripped(body) && !Contains(body, Close)
    requires Ask(cfg, env, ArchitectureChartRequest(GetRepoInfo(f).value.name, ArchOverview(GetRag(f).value),
                                                    ArchFiles(GetSnippets(f).value)))
             == Answer(Some(Fenced(body)))
    ensures ArchitectureChart(cfg, env, f) == Some(Fenced(body))
    ensures ArchitectureChartAsWritten(cfg, env, f) == None
  {
    ArchReplyFenced(body);
  }

  /** Without a repository both versions ask for "Project" and agree. */
  lemma ArchitectureVersionsAgreeWithoutRepo(cfg: Settings, env: Env, f: Fields)
    requires "repo_info" !in f
    ensures ArchitectureChartAsWritten(cfg, env, f) == ArchitectureChart(cfg, env, f)
  {
  }

  method BuildArchitectureChart(cfg: Settings, env: Env, f: Fields) returns (r: Option<string>)
    ensures r == ArchitectureChart(cfg, env, f)
  {
    var rag := GetRag(f);
    if rag.None? || |rag.value.architectural_overview| == 0 {
      return None;
    }
    var sns := GetSnippets(f);
    if sns.None? {
      return None;
    }
    var paths := CollectFiles(sns.value);
    ArchFilesFirst(sns.value);
    var reply := Ask(cfg, env, ArchitectureChartRequest(RepoName(f), ArchOverview(rag.value), paths));
    r := ArchReply(reply);
  }

  // ------------------------------------------------------------------ _execute

  const ModuleKey := "module_dependencies"
  const ArchKey := "architecture"

  /** The `diagrams` dict: the dependency chart when there are modules,
      the class charts, the flow charts and the architecture chart. */
  function Collected(ms: seq<ParsedModule>, flows: map<string, string>, arch: Option<string>): map<string, string>
  {
    Assembled(if ms != [] then Some(DependencyChart(ms)) else None, ClassDiagrams(ms), flows, arch)
  }

  /** The dict filled in that order from its four parts. */
  function Assembled(deps: Option<string>, classes: map<string, string>, flows: map<string, string>,
                     arch: Option<string>): map<string, string>
  {
    var d0: map<string, string> := if deps.Some? then map[ModuleKey := deps.value] else map[];
    var d1 := d0 + classes + flows;
    if arch.Some? then d1[ArchKey := arch.value] else d1
  }

  function DoneText(n: nat): string
  {
    "Completed diagram generation: " + NatToString(n) + " diagrams created"
  }

  /** Everything the stage draws once the fields hold lists: the loop
      over the flow candidates may raise, the rest cannot. */
  function AllDiagrams(cfg: Settings, env: Env, f: Fields, ms: seq<ParsedModule>, sns: seq<CodeSnippet>)
    : Result<map<string, string>>
  {
    match Flows(cfg, env, FirstFlows(sns))
    case Err(e) => Err(e)
    case Ok(flows) => Ok(Collected(ms, flows, ArchitectureChart(cfg, env, f)))
  }

  /** `_execute` */
  function Logic(s: State, cfg: Settings, env: Env): Step
  {
    var modules := GetModules(s.fields);
    var snippets := GetSnippets(s.fields);
    if !HasItems(modules) && !HasItems(snippets) then Step(Added(s, Name, Warning, NoCode, env.clock), Returned)
    else
      var s1 := Added(s, Name, Info, Starting, env.clock);
      if modules.None? || snippets.None? then Step(s1, Raised(NotIterable))
      else
        match AllDiagrams(cfg, env, s.fields, modules.value, snippets.value)
        case Err(e) => Step(s1, Raised(e))
        case Ok(d) =>
          var s2 := Put(s1, "diagrams", Diagrams(d));
          Step(Added(s2, Name, Success, DoneText(|d|), env.clock), Returned)
  }

  lemma ClassKeysPrefix(ms: seq<ParsedModule>)
    ensures forall k :: k in ClassDiagrams(ms) ==> StartsWith(k, "class_")
  {
    ClassDiagramKeys(ms);
    forall k | k in ClassDiagrams(ms) ensures StartsWith(k, "class_") {
      var m :| m in ms && m.classes != [] && k == ClassKey(m);
      assert k[..6] == "class_";
    }
  }

  lemma DisjointSize(a: map<string, string>, b: map<string, string>)
    requires forall k :: k in a ==> k !in b
    ensures |a + b| == |a| + |b|
  {
    assert (a + b).Keys == a.Keys + b.Keys;
    assert a.Keys * b.Keys == {};
  }

  /** Keys under `class_`, `flow_`, `module_dependencies` and
      `architecture` never coincide. */
  lemma KeysApart(classes: map<string, string>, flows: map<string, string>)
    requires forall k :: k in classes ==> StartsWith(k, "class_")
    requires forall k :: k in flows ==> StartsWith(k, "flow_")
    ensures ModuleKey !in classes && ModuleKey !in flows && ArchKey !in classes && ArchKey !in flows
    ensures forall k :: k in classes ==> k !in flows
  {
    assert forall k :: k in classes ==> k[0] == 'c';
    assert forall k :: k in flows ==> k[0] == 'f';
  }

  /** The four kinds of diagram have their own keys, so none replaces
      another and the count is the sum of the parts. */
  lemma AssembledParts(deps: Option<string>, classes: map<string, string>, flows: map<string, string>,
                       arch: Option<string>)
    requires forall k :: k in classes ==> StartsWith(k, "class_")
    requires forall k :: k in flows ==> StartsWith(k, "flow_")
    ensures var d := Assembled(deps, classes, flows, arch);
      && |d| == (if deps.Some? then 1 else 0) + |classes| + |flows| + (if arch.Some? then 1 else 0)
      && (ModuleKey in d <==> deps.Some?) && (ArchKey in d <==> arch.Some?)
      && (forall k :: k in classes ==> k in d && d[k] == classes[k])
      && (forall k :: k in flows ==> k in d && d[k] == flows[k])
      && (deps.Some? ==> d[ModuleKey] == deps.value)
      && (arch.Some? ==> d[ArchKey] == arch.value)
  {
    AssembledSize(deps, classes, flows, arch);
    AssembledEntries(deps, classes, flows, arch);
  }

  lemma AssembledSize(deps: Option<string>, classes: map<string, string>, flows: map<string, string>,
                      arch: Option<string>)
    requires forall k :: k in classes ==> StartsWith(k, "class_")
    requires forall k :: k in flows ==> StartsWith(k, "flow_")
    ensures |Assembled(deps, classes, flows, arch)|
      == (if deps.Some? then 1 else 0) + |classes| + |flows| + (if arch.Some? then 1 else 0)
  {
    KeysApart(classes, flows);
    var d0: map<string, string> := if deps.Some? then map[ModuleKey := deps.value] else map[];
    assert d0.Keys <= {ModuleKey};
    DisjointSize(d0, classes);
    DisjointSize(d0 + classes, flows);
    var d1 := d0 + classes + flows;
    assert ArchKey !in d1;
  }

  lemma AssembledEntries(deps: Option<string>, classes: map<string, string>, flows: map<string, string>,
                         arch: Option<string>)
    requires forall k :: k in classes ==> StartsWith(k, "class_")
    requires forall k :: k in flows ==> StartsWith(k, "flow_")
    ensures var d := Assembled(deps, classes, flows, arch);
      && (ModuleKey in d <==> deps.Some?) && (ArchKey in d <==> arch.Some?)
      && (forall k :: k in classes ==> k in d && d[k] == classes[k])
      && (forall k :: k in flows ==> k in d && d[k] == flows[k])
      && (deps.Some? ==> d[ModuleKey] == deps.value)
      && (arch.Some? ==> d[ArchKey] == arch.value)
  {
    KeysApart(classes, flows);
  }

  /** The same for the charts of the stage. */
  lemma CollectedCount(ms: seq<ParsedModule>, flows: map<string, string>, arch: Option<string>)
    requires forall k :: k in flows ==> StartsWith(k, "flow_")
    ensures var d := Collected(ms, flows, arch);
      && |d| == (if ms != [] then 1 else 0) + |ClassDiagrams(ms)| + |flows| + (if arch.Some? then 1 else 0)
      && (ModuleKey in d <==> ms != []) && (ArchKey in d <==> arch.Some?)
      && (forall k :: k in ClassDiagrams(ms) ==> k in d && d[k] == ClassDiagrams(ms)[k])
      && (forall k :: k in flows ==> k in d && d[k] == flows[k])
      && (ms != [] ==> d[ModuleKey] == DependencyChart(ms))
  {
    ClassKeysPrefix(ms);
    AssembledParts(if ms != [] then Some(DependencyChart(ms)) else None, ClassDiagrams(ms), flows, arch);
  }

  /** The count of stored diagrams is the sum of the parts, with at most
      five flow charts. */
  lemma AllDiagramsCount(cfg: Settings, env: Env, f: Fields, ms: seq<ParsedModule>, sns: seq<CodeSnippet>)
    ensures AllDiagrams(cfg, env, f, ms, sns).Ok? ==>
      var flows := Flows(cfg, env, FirstFlows(sns)).value;
      var arch := ArchitectureChart(cfg, env, f);
      var d := AllDiagrams(cfg, env, f, ms, sns).value;
      && d == Collected(ms, flows, arch)
      && |d| == (if ms != [] then 1 else 0) + |ClassDiagrams(ms)| + |flows| + (if arch.Some? then 1 else 0)
      && |flows| <= FlowLimit
  {
    var cs := FirstFlows(sns);
    if Flows(cfg, env, cs).Ok? {
      FlowsOf(cfg, env, cs);
      CollectedCount(ms, Flows(cfg, env, cs).value, ArchitectureChart(cfg, env, f));
    }
  }

  /** No modules and no snippets: one WARNING and no `diagrams`. Otherwise
      the stage either raises (a field holding None, or a nameless flow
      snippet) with its fields unchanged, or returns. */
  lemma LogicResult(s: State, cfg: Settings, env: Env)
    ensures var step := Logic(s, cfg, env);
            var modules := GetModules(s.fields); var snippets := GetSnippets(s.fields);
      && AppendsOnly(s, step.state, Name)
      && (!HasItems(modules) && !HasItems(snippets) ==>
            && step.outcome == Returned && step.state.fields == s.fields
            && |Msgs(step.state)| == |Msgs(s)| + 1
            && Msgs(step.state)[|Msgs(s)|].message_type == Warning)
      && (step.outcome.Raised? ==> step.state.fields == s.fields)
      && (step.outcome.Raised? <==>
            (HasItems(modules) || HasItems(snippets))
            && (modules.None? || snippets.None? || Flows(cfg, env, FirstFlows(snippets.value)).Err?))
  {
    var modules := GetModules(s.fields);
    var snippets := GetSnippets(s.fields);
    if !HasItems(modules) && !HasItems(snippets) {
      assert Logic(s, cfg, env) == Step(Added(s, Name, Warning, NoCode, env.clock), Returned);
      AddedAppends(s, s, Name, Warning, NoCode, env.clock);
    } else {
      var s1 := Added(s, Name, Info, Starting, env.clock);
      AddedAppends(s, s, Name, Info, Starting, env.clock);
      if modules.Some? && snippets.Some? {
        var r := AllDiagrams(cfg, env, s.fields, modules.value, snippets.value);
        assert r.Err? <==> Flows(cfg, env, FirstFlows(snippets.value)).Err?;
        if r.Ok? {
          var s2 := Put(s1, "diagrams", Diagrams(r.value));
          assert Logic(s, cfg, env) == Step(Added(s2, Name, Success, DoneText(|r.value|), env.clock), Returned);
          AddedAppends(s, s2, Name, Success, DoneText(|r.value|), env.clock);
        } else {
          assert Logic(s, cfg, env) == Step(s1, Raised(r.error));
        }
      } else {
        assert Logic(s, cfg, env) == Step(s1, Raised(NotIterable));
      }
    }
  }

  /** When the stage returns after drawing, `diagrams` holds the collected
      charts and the SUCCESS message reports how many. */
  lemma LogicStored(s: State, cfg: Settings, env: Env)
    requires var modules := GetModules(s.fields); var snippets := GetSnippets(s.fields);
      (HasItems(modules) || HasItems(snippets)) && modules.Some? && snippets.Some?
      && Flows(cfg, env, FirstFlows(snippets.value)).Ok?
    ensures var step := Logic(s, cfg, env);
            var ms := GetModules(s.fields).value; var sns := GetSnippets(s.fields).value;
            var flows := Flows(cfg, env, FirstFlows(sns)).value;
            var arch := ArchitectureChart(cfg, env, s.fields);
            var d := Collected(ms, flows, arch);
      && step.outcome == Returned
      && step.state.fields == s.fields["diagrams" := Diagrams(d)]
      && |d| == (if ms != [] then 1 else 0) + |ClassDiagrams(ms)| + |flows| + (if arch.Some? then 1 else 0)
      && |flows| <= FlowLimit
      && Msgs(step.state)[|Msgs(step.state)| - 1].message_type == Success
      && Msgs(step.state)[|Msgs(step.state)| - 1].content == DoneText(|d|)
  {
    AllDiagramsCount(cfg, env, s.fields, GetModules(s.fields).value, GetSnippets(s.fields).value);
  }

  /** The charts of one run, drawn by the stage's helpers in turn. */
  method Generate(cfg: Settings, env: Env, f: Fields, ms: seq<ParsedModule>, sns: seq<CodeSnippet>)
    returns (r: Result<map<string, string>>)
    ensures r == AllDiagrams(cfg, env, f, ms, sns)
  {
    var deps: Option<string> := None;
    if ms != [] {
      var chart := BuildDependencyChart(ms);
      deps := Some(chart);
    }
    var classes := BuildClassDiagrams(ms);
    var flows := BuildFlows(cfg, env, sns);
    if flows.Err? {
      return Err(flows.error);
    }
    var arch := BuildArchitectureChart(cfg, env, f);
    var diagrams := Assemble(deps, classes, flows.value, arch);
    r := Ok(diagrams);
  }

  /** The `diagrams` dict filled in part by part. */
  method Assemble(deps: Option<string>, classes: map<string, string>, flows: map<string, string>,
                  arch: Option<string>) returns (diagrams: map<string, string>)
    ensures diagrams == Assembled(deps, classes, flows, arch)
  {
    diagrams := if deps.Some? then map[ModuleKey := deps.value] else map[];
    diagrams := diagrams + classes;
    diagrams := diagrams + flows;
    if arch.Some? {
      diagrams := diagrams[ArchKey := arch.value];
    }
  }

  /** `_execute` on the shared state. */
  method Run(st: WorkflowState, cfg: Settings, env: Env) returns (o: Outcome)
    modifies st
    ensures Step(st.Snapshot(), o) == Logic(old(st.Snapshot()), cfg, env)
  {
    var f := st.fields;
    var modules := GetModules(f);
    var snippets := GetSnippets(f);
    if !HasItems(modules) && !HasItems(snippets) {
      st.AddMessage(Name, Warning, NoCode, env.clock);
      return Returned;
    }
    st.AddMessage(Name, Info, Starting, env.clock);
    if modules.None? || snippets.None? {
      return Raised(NotIterable);
    }
    var diagrams := Generate(cfg, env, f, modules.value, snippets.value);
    if diagrams.Err? {
      return Raised(diagrams.error);
    }
    st.Set("diagrams", Diagrams(diagrams.value));
    st.AddMessage(Name, Success, DoneText(|diagrams.value|), env.clock);
    return Returned;
  }
}
