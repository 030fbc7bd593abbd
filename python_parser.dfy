/** autodocai/code_parser/python_parser.py over an abstract syntax tree.
    The tree keeps the node kinds the parser inspects; every other node is an
    `Other` that only contributes line numbers and nested statements. An
    expression is represented by what `ast.unparse` makes of it and by the
    largest line number inside it. Reading the file and `ast.parse` itself
    are outside the model: the tree and the source text are inputs. */
module PythonParser {
  import opened Wrappers
  import opened Text
  import opened Schemas

  // ------------------------------------------------------------------ the tree

  /** An expression: `ast.unparse(e)` and the largest `lineno` in it. */
  datatype Expr = Expr(text: string, line: nat)

  /** `ast.arg` */
  datatype Arg = Arg(arg: string, annotation: Option<Expr>, line: nat)

  /** `ast.arguments`; `kw_defaults` holds one entry per keyword-only
      parameter, None where it has no default. */
  datatype Arguments = Arguments(
    posonlyargs: seq<Arg>,
    args: seq<Arg>,
    defaults: seq<Expr>,
    vararg: Option<Arg>,
    kwonlyargs: seq<Arg>,
    kw_defaults: seq<Option<Expr>>,
    kwarg: Option<Arg>)

  /** An assignment target. `owner` is the name an attribute is taken from
      when that is a plain name (`self` in `self.x`). */
  datatype Target =
    | NameTarget(id: string, line: nat)
    | AttributeTarget(owner: Option<string>, attr: string, line: nat)
    | OtherTarget(line: nat)

  datatype Alias = Alias(name: string, asname: Option<string>, line: nat)

  datatype Node =
    | FunctionDef(name: string, is_async: bool, args: Arguments, result_annotation: Option<Expr>,
                  decorators: seq<Expr>, docstring: Option<string>, lineno: nat, body: seq<Node>)
    | ClassDef(name: string, bases: seq<Expr>, keywords: seq<Expr>, decorators: seq<Expr>,
               docstring: Option<string>, lineno: nat, body: seq<Node>)
    | Assign(targets: seq<Target>, value: Expr, lineno: nat)
    | AnnAssign(target: Target, annotation: Expr, annValue: Option<Expr>, lineno: nat)
    | ImportStmt(names: seq<Alias>, lineno: nat)
    | ImportFrom(module_name: Option<string>, names: seq<Alias>, lineno: nat)
    | Other(line: Option<nat>, exprs: seq<Expr>, children: seq<Node>)

  /** `ast.Module`; `docstring` is what `ast.get_docstring` returns for it. */
  datatype ModuleAst = ModuleAst(docstring: Option<string>, body: seq<Node>)

  /** The statements (and statement containers) directly below a node. */
  function Children(n: Node): seq<Node>
  {
    match n
    case FunctionDef(_, _, _, _, _, _, _, body) => body
    case ClassDef(_, _, _, _, _, _, body) => body
    case Other(_, _, children) => children
    case _ => []
  }

  // ------------------------------------------------------------ line numbers

  function Max(a: nat, b: nat): nat
  {
    if a < b then b else a
  }

  function MaxExprs(es: seq<Expr>): nat
  {
    if es == [] then 0 else Max(es[0].line, MaxExprs(es[1..]))
  }

  function MaxOptExpr(e: Option<Expr>): nat
  {
    if e.Some? then e.value.line else 0
  }

  function MaxOptExprs(es: seq<Option<Expr>>): nat
  {
    if es == [] then 0 else Max(MaxOptExpr(es[0]), MaxOptExprs(es[1..]))
  }

  function MaxArg(a: Arg): nat
  {
    Max(a.line, MaxOptExpr(a.annotation))
  }

  function MaxArgs(as_: seq<Arg>): nat
  {
    if as_ == [] then 0 else Max(MaxArg(as_[0]), MaxArgs(as_[1..]))
  }

  function MaxOptArg(a: Option<Arg>): nat
  {
    if a.Some? then MaxArg(a.value) else 0
  }

  function MaxArguments(a: Arguments): nat
  {
    Max(Max(Max(MaxArgs(a.posonlyargs), MaxArgs(a.args)), Max(MaxExprs(a.defaults), MaxOptArg(a.vararg))),
        Max(Max(MaxArgs(a.kwonlyargs), MaxOptExprs(a.kw_defaults)), MaxOptArg(a.kwarg)))
  }

  function MaxTargets(ts: seq<Target>): nat
  {
    if ts == [] then 0 else Max(ts[0].line, MaxTargets(ts[1..]))
  }

  function MaxAliases(as_: seq<Alias>): nat
  {
    if as_ == [] then 0 else Max(as_[0].line, MaxAliases(as_[1..]))
  }

  /** The largest `lineno` that `ast.walk(n)` meets. */
  function MaxLine(n: Node): nat
    decreases n, 1
  {
    match n
    case FunctionDef(_, _, args, result, decorators, _, lineno, body) =>
      Max(Max(lineno, MaxArguments(args)), Max(Max(MaxOptExpr(result), MaxExprs(decorators)), MaxLineSeq(body)))
    case ClassDef(_, bases, keywords, decorators, _, lineno, body) =>
      Max(Max(lineno, MaxExprs(bases)), Max(Max(MaxExprs(keywords), MaxExprs(decorators)), MaxLineSeq(body)))
    case Assign(targets, value, lineno) => Max(lineno, Max(MaxTargets(targets), value.line))
    case AnnAssign(target, annotation, value, lineno) =>
      Max(Max(lineno, target.line), Max(annotation.line, MaxOptExpr(value)))
    case ImportStmt(names, lineno) => Max(lineno, MaxAliases(names))
    case ImportFrom(_, names, lineno) => Max(lineno, MaxAliases(names))
    case Other(line, exprs, children) =>
      Max(Max(if line.Some? then line.value else 0, MaxExprs(exprs)), MaxLineSeq(children))
  }

  function MaxLineSeq(ns: seq<Node>): nat
    decreases ns, 0
  {
    if ns == [] then 0 else Max(MaxLine(ns[0]), MaxLineSeq(ns[1..]))
  }

  /** The end line the parser records for a definition starting at `start`:
      one past the largest line number inside it, and never before the line
      after the start. */
  function EndLine(start: nat, maxLine: nat): (r: nat)
    ensures r > start && r > maxLine
    ensures maxLine >= start ==> r == maxLine + 1
  {
    Max(maxLine + 1, start + 1)
  }

  /** Python's `lines[lo:hi]` for non-negative bounds. */
  function PySlice<T>(s: seq<T>, lo: nat, hi: nat): (r: seq<T>)
    ensures |r| <= |s|
  {
    var h := if hi < |s| then hi else |s|;
    if lo >= h then [] else s[lo..h]
  }

  /** The source text of lines `start`..`end` (1-based, inclusive), cut
      from the module's "\n"-split lines. */
  function CodeOf(lines: seq<string>, start: nat, end: nat): string
  {
    Join(PySlice(lines, if start >= 1 then start - 1 else 0, end), "\n")
  }

  /** When the definition starts inside the file, splitting its code on "\n"
      gives back exactly the module lines from its start line to its end line. */
  lemma CodeOfLines(code: string, start: nat, end: nat)
    requires 1 <= start <= |Split(code, "\n")| && start <= end
    ensures Split(CodeOf(Split(code, "\n"), start, end), "\n")
         == Split(code, "\n")[start - 1..Text.Min(end, |Split(code, "\n")|)]
  {
    var lines := Split(code, "\n");
    SplitPartsFree(code, "\n");
    var part := PySlice(lines, start - 1, end);
    assert part == lines[start - 1..Text.Min(end, |lines|)];
    forall k | 0 <= k < |part| ensures '\n' !in part[k] {
      assert part[k] == lines[start - 1 + k];
      NewlineFree(lines[start - 1 + k]);
    }
    SplitJoin(part, '\n');
  }

  lemma NewlineFree(s: string)
    requires !Contains(s, "\n")
    ensures '\n' !in s
  {
    if '\n' in s {
      var k :| 0 <= k < |s| && s[k] == '\n';
      assert s[k..k + 1] == "\n";
      OccursAtContains(s, "\n", k);
    }
  }

  // ------------------------------------------------------------ line mapping

  /** Offset of the first character of line `i` in the text the lines were
      split from: each earlier line and its newline. */
  function LineStart(lines: seq<string>, i: nat): nat
    requires i <= |lines|
  {
    if i == 0 then 0 else LineStart(lines, i - 1) + |lines[i - 1]| + 1
  }

  lemma {:induction false} LineStartIncreasing(lines: seq<string>, j: nat, i: nat)
    requires j < i <= |lines|
    ensures LineStart(lines, j) < LineStart(lines, i)
    decreases i
  {
    if j < i - 1 {
      LineStartIncreasing(lines, j, i - 1);
    }
  }

  /** `_create_line_mapping`: offset of each line's start to its 1-based line
      number. */
  method CreateLineMapping(code: string) returns (mapping: map<nat, nat>)
    ensures forall i :: 0 <= i < |Split(code, "\n")| ==>
      LineStart(Split(code, "\n"), i) in mapping && mapping[LineStart(Split(code, "\n"), i)] == i + 1
    ensures forall p :: p in mapping ==> exists i :: 0 <= i < |Split(code, "\n")| && p == LineStart(Split(code, "\n"), i)
  {
    var lines := Split(code, "\n");
    var position := 0;
    mapping := map[];
    var i := 0;
    while i < |lines|
      invariant 0 <= i <= |lines|
      invariant position == LineStart(lines, i)
      invariant forall j :: 0 <= j < i ==> LineStart(lines, j) in mapping && mapping[LineStart(lines, j)] == j + 1
      invariant forall p :: p in mapping ==> exists j :: 0 <= j < i && p == LineStart(lines, j)
    {
      forall j | 0 <= j < i ensures LineStart(lines, j) != position {
        LineStartIncreasing(lines, j, i);
      }
      mapping := mapping[position := i + 1];
      position := position + |lines[i]| + 1;
      i := i + 1;
    }
  }

  /** The offset recorded for line `i` really is where that line's text
      starts in the source. */
  lemma LineStartLocatesLine(code: string, i: nat)
    requires i < |Split(code, "\n")|
    ensures LineStart(Split(code, "\n"), i) + |Split(code, "\n")[i]| <= |code|
    ensures code[LineStart(Split(code, "\n"), i)..LineStart(Split(code, "\n"), i) + |Split(code, "\n")[i]|]
         == Split(code, "\n")[i]
  {
    var lines := Split(code, "\n");
    JoinSplit(code, "\n");
    assert Join(lines, "\n") == code;
    JoinLocates(lines, i);
  }

  lemma {:induction false} JoinLocates(lines: seq<string>, i: nat)
    requires i < |lines|
    ensures LineStart(lines, i) + |lines[i]| <= |Join(lines, "\n")|
    ensures Join(lines, "\n")[LineStart(lines, i)..LineStart(lines, i) + |lines[i]|] == lines[i]
    decreases |lines|
  {
    if |lines| > 1 {
      var rest := lines[1..];
      var s := Join(lines, "\n");
      assert s == lines[0] + "\n" + Join(rest, "\n");
      if i > 0 {
        JoinLocates(rest, i - 1);
        LineStartShift(lines, i);
        var p := LineStart(rest, i - 1);
        assert s[|lines[0]| + 1 + p..|lines[0]| + 1 + p + |lines[i]|] == Join(rest, "\n")[p..p + |rest[i - 1]|];
      }
    }
  }

  lemma {:induction false} LineStartShift(lines: seq<string>, i: nat)
    requires 0 < i <= |lines|
    ensures LineStart(lines, i) == |lines[0]| + 1 + LineStart(lines[1..], i - 1)
    decreases i
  {
    if i > 1 {
      LineStartShift(lines, i - 1);
    }
  }

  // ------------------------------------------------------------- docstrings

  /** The private-attribute rule: a leading "_" that is not a leading "__". */
  predicate IsPrivate(name: string)
  {
    StartsWith(name, "_") && !StartsWith(name, "__")
  }

  /** The key and text `DocstringExtractor` records for one node, if any. */
  function DocEntry(n: Node): seq<(string, string)>
  {
    match n
    case FunctionDef(name, is_async, _, _, _, doc, _, _) =>
      if Truthy(doc) then [((if is_async then "async_function:" else "function:") + name, doc.value)] else []
    case ClassDef(name, _, _, _, doc, _, _) =>
      if Truthy(doc) then [("class:" + name, doc.value)] else []
    case _ => []
  }

  /** The entries `DocstringExtractor` records below and at `n`, in visiting
      (depth-first, source) order. */
  function EntriesNode(n: Node): seq<(string, string)>
    decreases n, 1
  {
    match n
    case FunctionDef(_, _, _, _, _, _, _, body) => DocEntry(n) + EntriesSeq(body)
    case ClassDef(_, _, _, _, _, _, body) => DocEntry(n) + EntriesSeq(body)
    case Other(_, _, children) => EntriesSeq(children)
    case _ => []
  }

  function EntriesSeq(ns: seq<Node>): seq<(string, string)>
    decreases ns, 0
  {
    if ns == [] then [] else EntriesSeq(ns[..|ns| - 1]) + EntriesNode(ns[|ns| - 1])
  }

  function ModuleEntries(m: ModuleAst): seq<(string, string)>
  {
    (if Truthy(m.docstring) then [("module", m.docstring.value)] else []) + EntriesSeq(m.body)
  }

  /** Recording entries one after another into a dictionary. */
  function ApplyEntries(acc: map<string, string>, es: seq<(string, string)>): map<string, string>
    decreases |es|
  {
    if es == [] then acc else ApplyEntries(acc[es[0].0 := es[0].1], es[1..])
  }

  lemma {:induction false} ApplyEntriesConcat(acc: map<string, string>, a: seq<(string, string)>, b: seq<(string, string)>)
    ensures ApplyEntries(acc, a + b) == ApplyEntries(ApplyEntries(acc, a), b)
    decreases |a|
  {
    if a != [] {
      assert (a + b)[0] == a[0];
      assert (a + b)[1..] == a[1..] + b;
      ApplyEntriesConcat(acc[a[0].0 := a[0].1], a[1..], b);
    } else {
      assert a + b == b;
    }
  }

  /** The last entry for a key wins; keys never recorded keep their old value. */
  lemma {:induction false} LastEntryWins(acc: map<string, string>, es: seq<(string, string)>, k: string)
    ensures (exists j :: 0 <= j < |es| && es[j].0 == k) || k in acc <==> k in ApplyEntries(acc, es)
    ensures forall j :: (0 <= j < |es| && es[j].0 == k && (forall j' :: j < j' < |es| ==> es[j'].0 != k))
                        ==> ApplyEntries(acc, es)[k] == es[j].1
    ensures (forall j :: 0 <= j < |es| ==> es[j].0 != k) && k in acc ==> ApplyEntries(acc, es)[k] == acc[k]
    decreases |es|
  {
    if es != [] {
      var acc' := acc[es[0].0 := es[0].1];
      LastEntryWins(acc', es[1..], k);
      forall j | 0 <= j < |es| && es[j].0 == k && (forall j' :: j < j' < |es| ==> es[j'].0 != k)
        ensures ApplyEntries(acc, es)[k] == es[j].1
      {
        if j > 0 {
          assert es[1..][j - 1] == es[j];
          forall j' | j - 1 < j' < |es| - 1 ensures es[1..][j'].0 != k {
            assert es[1..][j'] == es[j' + 1];
          }
        } else {
          forall j' | 0 <= j' < |es| - 1 ensures es[1..][j'].0 != k {
            assert es[1..][j'] == es[j' + 1];
          }
        }
      }
      if exists j :: 0 <= j < |es| && es[j].0 == k {
        var j :| 0 <= j < |es| && es[j].0 == k;
        if j > 0 {
          assert es[1..][j - 1].0 == k;
        }
      }
      if exists j :: 0 <= j < |es[1..]| && es[1..][j].0 == k {
        var j :| 0 <= j < |es[1..]| && es[1..][j].0 == k;
        assert es[j + 1].0 == k;
      }
    }
  }

  /** The only keys are "module", "class:…", "function:…" and
      "async_function:…"; same-named definitions therefore share one key. */
  predicate WellFormedKey(k: string)
  {
    k == "module" || StartsWith(k, "class:") || StartsWith(k, "function:") || StartsWith(k, "async_function:")
  }

  /** A definition's key is never the module's key. */
  lemma DocEntryKeys(n: Node)
    ensures forall j :: 0 <= j < |DocEntry(n)| ==> WellFormedKey(DocEntry(n)[j].0) && DocEntry(n)[j].0 != "module"
  {
    if DocEntry(n) != [] {
      var k := DocEntry(n)[0].0;
      assert k[0] != 'm';
    }
  }

  lemma {:induction false} EntryKeys(n: Node)
    ensures forall j :: 0 <= j < |EntriesNode(n)| ==> WellFormedKey(EntriesNode(n)[j].0) && EntriesNode(n)[j].0 != "module"
    decreases n, 1
  {
    DocEntryKeys(n);
    match n
    case FunctionDef(_, _, _, _, _, _, _, body) => EntryKeysSeq(body);
    case ClassDef(_, _, _, _, _, _, body) => EntryKeysSeq(body);
    case Other(_, _, children) => EntryKeysSeq(children);
    case _ =>
  }

  lemma {:induction false} EntryKeysSeq(ns: seq<Node>)
    ensures forall j :: 0 <= j < |EntriesSeq(ns)| ==> WellFormedKey(EntriesSeq(ns)[j].0) && EntriesSeq(ns)[j].0 != "module"
    decreases ns, 0
  {
    if ns != [] {
      EntryKeysSeq(ns[..|ns| - 1]);
      EntryKeys(ns[|ns| - 1]);
    }
  }

  lemma ExtractorKeys(m: ModuleAst)
    ensures forall k :: k in ApplyEntries(map[], ModuleEntries(m)) ==> WellFormedKey(k)
  {
    EntryKeysSeq(m.body);
    var es := ModuleEntries(m);
    forall k | k in ApplyEntries(map[], es) ensures WellFormedKey(k) {
      LastEntryWins(map[], es, k);
    }
  }

  /** `DocstringExtractor`: a visitor that records docstrings in a dictionary
      as it walks the tree. */
  class DocstringExtractor {
    var docstrings: map<string, string>

    constructor ()
      ensures docstrings == map[]
    {
      docstrings := map[];
    }

    /** `visit(module)` */
    method VisitModule(m: ModuleAst)
      modifies this
      ensures docstrings == ApplyEntries(old(docstrings), ModuleEntries(m))
    {
      var head: seq<(string, string)> := [];
      if Truthy(m.docstring) {
        docstrings := docstrings["module" := m.docstring.value];
        head := [("module", m.docstring.value)];
      }
      assert docstrings == ApplyEntries(old(docstrings), head);
      VisitAll(m.body);
      ApplyEntriesConcat(old(docstrings), head, EntriesSeq(m.body));
    }

    /** `generic_visit`: each child in order. */
    method VisitAll(ns: seq<Node>)
      modifies this
      decreases ns, 0
      ensures docstrings == ApplyEntries(old(docstrings), EntriesSeq(ns))
    {
      var i := 0;
      while i < |ns|
        invariant 0 <= i <= |ns|
        invariant docstrings == ApplyEntries(old(docstrings), EntriesSeq(ns[..i]))
      {
        ghost var before := docstrings;
        Visit(ns[i]);
        ApplyEntriesConcat(old(docstrings), EntriesSeq(ns[..i]), EntriesNode(ns[i]));
        assert ns[..i + 1][..i] == ns[..i];
        i := i + 1;
      }
      assert ns[..i] == ns;
    }

    /** `visit_ClassDef`, `visit_FunctionDef`, `visit_AsyncFunctionDef`, and
        the generic visit of every other node. */
    method Visit(n: Node)
      modifies this
      decreases n, 1
      ensures docstrings == ApplyEntries(old(docstrings), EntriesNode(n))
    {
      match n {
        case FunctionDef(_, _, _, _, _, _, _, body) =>
          var e := DocEntry(n);
          if e != [] {
            docstrings := docstrings[e[0].0 := e[0].1];
          }
          assert docstrings == ApplyEntries(old(docstrings), e);
          VisitAll(body);
          ApplyEntriesConcat(old(docstrings), e, EntriesSeq(body));
        case ClassDef(_, _, _, _, _, _, body) =>
          var e := DocEntry(n);
          if e != [] {
            docstrings := docstrings[e[0].0 := e[0].1];
          }
          assert docstrings == ApplyEntries(old(docstrings), e);
          VisitAll(body);
          ApplyEntriesConcat(old(docstrings), e, EntriesSeq(body));
        case Other(_, _, children) =>
          VisitAll(children);
        case _ =>
      }
    }
  }

  /** The dictionary the extractor ends with for a module. */
  function Docstrings(m: ModuleAst): map<string, string>
  {
    ApplyEntries(map[], ModuleEntries(m))
  }

  // ------------------------------------------------------------ parameters

  /** `_extract_param_type_and_default` as the parser computes it, where an
      absent keyword-only default reaches `ast.unparse(None)` and raises. */
  function ParamTypeAndDefaultAsWritten(param: Arg, defaults: seq<Option<Expr>>, i: nat, n: nat)
    : (r: Result<(Option<string>, Option<string>)>)
  {
    var typeHint := if param.annotation.Some? then Some(param.annotation.value.text) else None;
    var offset := n - |defaults|;
    if i >= offset && |defaults| > 0 && i - offset < |defaults| then
      match defaults[i - offset]
      case None => Err("'NoneType' object has no attribute '_fields'")
      case Some(e) => Ok((typeHint, Some(e.text)))
    else Ok((typeHint, None))
  }

  /** `_extract_param_type_and_default` with an absent default read as no
      default: defaults are aligned to the last `|defaults|` parameters. */
  function ParamTypeAndDefault(param: Arg, defaults: seq<Option<Expr>>, i: nat, n: nat)
    : (r: (Option<string>, Option<string>))
    ensures r.0 == (if param.annotation.Some? then Some(param.annotation.value.text) else None)
    ensures n - |defaults| <= i < n && defaults[i - (n - |defaults|)].Some?
      ==> r.1 == Some(defaults[i - (n - |defaults|)].value.text)
    ensures (i < n - |defaults| || n <= i) ==> r.1 == None
  {
    var typeHint := if param.annotation.Some? then Some(param.annotation.value.text) else None;
    var offset := n - |defaults|;
    if i >= offset && |defaults| > 0 && i - offset < |defaults| then
      match defaults[i - offset]
      case None => (typeHint, None)
      case Some(e) => (typeHint, Some(e.text))
    else (typeHint, None)
  }

  /** A keyword-only parameter without a default makes the parser raise. */
  lemma KeywordOnlyWithoutDefaultRaises(param: Arg)
    ensures ParamTypeAndDefaultAsWritten(param, [None], 0, 1).Err?
    ensures ParamTypeAndDefault(param, [None], 0, 1).1 == None
  {
  }

  function Wrap(es: seq<Expr>): (r: seq<Option<Expr>>)
    ensures |r| == |es| && forall k :: 0 <= k < |es| ==> r[k] == Some(es[k])
  {
    if es == [] then [] else [Some(es[0])] + Wrap(es[1..])
  }

  function ParamOf(a: Arg, defaults: seq<Option<Expr>>, i: nat, n: nat): FunctionParam
  {
    var td := ParamTypeAndDefault(a, defaults, i, n);
    FunctionParam(a.arg, td.0, td.1)
  }

  /** Whether position `i` of `args` is the dropped `self`/`cls` of a method. */
  predicate SkipsReceiver(args: seq<Arg>, i: nat, inClass: bool)
  {
    i == 0 && i < |args| && (args[0].arg == "self" || args[0].arg == "cls") && inClass
  }

  /** The parameters the positional loop has produced after `k` arguments. */
  function PositionalUpTo(args: seq<Arg>, defaults: seq<Option<Expr>>, inClass: bool, k: nat): seq<FunctionParam>
    requires k <= |args|
  {
    if k == 0 then []
    else
      var prev := PositionalUpTo(args, defaults, inClass, k - 1);
      if SkipsReceiver(args, k - 1, inClass) then prev else prev + [ParamOf(args[k - 1], defaults, k - 1, |args|)]
  }

  function KeywordOnlyUpTo(args: seq<Arg>, defaults: seq<Option<Expr>>, k: nat): seq<FunctionParam>
    requires k <= |args|
  {
    if k == 0 then [] else KeywordOnlyUpTo(args, defaults, k - 1) + [ParamOf(args[k - 1], defaults, k - 1, |args|)]
  }

  function StarParam(prefix: string, a: Option<Arg>): seq<FunctionParam>
  {
    if a.Some? then
      [FunctionParam(prefix + a.value.arg, if a.value.annotation.Some? then Some(a.value.annotation.value.text) else None, None)]
    else []
  }

  /** The parameter list `_extract_function_params` returns. */
  function Params(a: Arguments, inClass: bool): seq<FunctionParam>
  {
    PositionalUpTo(a.args, Wrap(a.defaults), inClass, |a.args|)
      + KeywordOnlyUpTo(a.kwonlyargs, a.kw_defaults, |a.kwonlyargs|)
      + StarParam("*", a.vararg) + StarParam("**", a.kwarg)
  }

  /** `_extract_function_params`: positional, then keyword-only, then
      `*vararg`, then `**kwarg`. */
  method ExtractFunctionParams(a: Arguments, inClass: bool) returns (params: seq<FunctionParam>)
    ensures params == PositionalUpTo(a.args, Wrap(a.defaults), inClass, |a.args|)
      + KeywordOnlyUpTo(a.kwonlyargs, a.kw_defaults, |a.kwonlyargs|)
      + StarParam("*", a.vararg) + StarParam("**", a.kwarg)
  {
    params := [];
    var defaults := Wrap(a.defaults);
    var i := 0;
    while i < |a.args|
      invariant 0 <= i <= |a.args|
      invariant params == PositionalUpTo(a.args, defaults, inClass, i)
    {
      if !(i == 0 && (a.args[i].arg == "self" || a.args[i].arg == "cls") && inClass) {
        var td := ParamTypeAndDefault(a.args[i], defaults, i, |a.args|);
        params := params + [FunctionParam(a.args[i].arg, td.0, td.1)];
      }
      i := i + 1;
    }
    ghost var positional := params;
    var j := 0;
    while j < |a.kwonlyargs|
      invariant 0 <= j <= |a.kwonlyargs|
      invariant params == positional + KeywordOnlyUpTo(a.kwonlyargs, a.kw_defaults, j)
    {
      var td := ParamTypeAndDefault(a.kwonlyargs[j], a.kw_defaults, j, |a.kwonlyargs|);
      ghost var before := KeywordOnlyUpTo(a.kwonlyargs, a.kw_defaults, j);
      params := params + [FunctionParam(a.kwonlyargs[j].arg, td.0, td.1)];
      SeqAssoc(positional, before, [FunctionParam(a.kwonlyargs[j].arg, td.0, td.1)]);
      j := j + 1;
    }
    ghost var named := params;
    if a.vararg.Some? {
      var hint := if a.vararg.value.annotation.Some? then Some(a.vararg.value.annotation.value.text) else None;
      params := params + [FunctionParam("*" + a.vararg.value.arg, hint, None)];
    }
    assert params == named + StarParam("*", a.vararg);
    ghost var starred := params;
    if a.kwarg.Some? {
      var hint := if a.kwarg.value.annotation.Some? then Some(a.kwarg.value.annotation.value.text) else None;
      params := params + [FunctionParam("**" + a.kwarg.value.arg, hint, None)];
    }
    assert params == starred + StarParam("**", a.kwarg);
  }

  /** How many leading arguments the positional loop drops among the first `k`. */
  function Skipped(args: seq<Arg>, inClass: bool, k: nat): nat
  {
    if k > 0 && SkipsReceiver(args, 0, inClass) then 1 else 0
  }

  /** The positional loop keeps every argument except a leading self/cls of
      a method, in order, each processed at its own position. */
  lemma {:induction false} PositionalKeeps(args: seq<Arg>, defaults: seq<Option<Expr>>, inClass: bool, k: nat)
    requires k <= |args|
    ensures |PositionalUpTo(args, defaults, inClass, k)| == k - Skipped(args, inClass, k)
    ensures forall i :: Skipped(args, inClass, k) <= i < k ==>
      PositionalUpTo(args, defaults, inClass, k)[i - Skipped(args, inClass, k)] == ParamOf(args[i], defaults, i, |args|)
    decreases k
  {
    if k > 0 {
      PositionalKeeps(args, defaults, inClass, k - 1);
      if k > 1 {
        assert Skipped(args, inClass, k) == Skipped(args, inClass, k - 1);
        assert !SkipsReceiver(args, k - 1, inClass);
      }
    }
  }

  /** Of the `d` positional defaults, the last `d` positional parameters get
      one each, in order; every earlier parameter gets none. */
  lemma PositionalDefaults(args: seq<Arg>, defaults: seq<Expr>, inClass: bool, i: nat)
    requires Skipped(args, inClass, |args|) <= i < |args|
    ensures |PositionalUpTo(args, Wrap(defaults), inClass, |args|)| == |args| - Skipped(args, inClass, |args|)
    ensures var p := PositionalUpTo(args, Wrap(defaults), inClass, |args|)[i - Skipped(args, inClass, |args|)];
      p.name == args[i].arg
      && (i >= |args| - |defaults| ==> p.default_value == Some(defaults[i - (|args| - |defaults|)].text))
      && (i < |args| - |defaults| ==> p.default_value == None)
  {
    PositionalKeeps(args, Wrap(defaults), inClass, |args|);
  }

  // ----------------------------------------------------------- attributes

  /** Class attributes declared in the class body, in order. */
  function BodyAttributes(body: seq<Node>): seq<ClassAttribute>
  {
    if body == [] then [] else BodyAttributes(body[..|body| - 1]) + NodeAttributes(body[|body| - 1])
  }

  function NodeAttributes(n: Node): seq<ClassAttribute>
  {
    match n
    case Assign(targets, value, _) => AssignAttributes(targets, value)
    case AnnAssign(NameTarget(id, _), annotation, value, _) =>
      if IsPrivate(id) then []
      else [ClassAttribute(id, Some(annotation.text), if value.Some? then Some(value.value.text) else None)]
    case _ => []
  }

  function AssignAttributes(targets: seq<Target>, value: Expr): seq<ClassAttribute>
  {
    if targets == [] then []
    else
      var prev := AssignAttributes(targets[..|targets| - 1], value);
      var t := targets[|targets| - 1];
      if t.NameTarget? && !IsPrivate(t.id) then prev + [ClassAttribute(t.id, None, Some(value.text))] else prev
  }

  /** The first `__init__` (not `async`) directly in a class body. */
  function FindInit(body: seq<Node>): (r: Option<Node>)
    ensures r.Some? ==> r.value in body && r.value.FunctionDef? && r.value.name == "__init__" && !r.value.is_async
  {
    if body == [] then None
    else if body[0].FunctionDef? && body[0].name == "__init__" && !body[0].is_async then Some(body[0])
    else FindInit(body[1..])
  }

  // The breadth-first order of `ast.walk`.

  function Height(n: Node): nat
    decreases n, 1
  {
    match n
    case FunctionDef(_, _, _, _, _, _, _, body) => 1 + HeightSeq(body)
    case ClassDef(_, _, _, _, _, _, body) => 1 + HeightSeq(body)
    case Other(_, _, children) => 1 + HeightSeq(children)
    case _ => 1
  }

  function HeightSeq(ns: seq<Node>): nat
    decreases ns, 0
  {
    if ns == [] then 0 else Max(Height(ns[0]), HeightSeq(ns[1..]))
  }

  /** All nodes one level below `ns`, in order. */
  function NextLevel(ns: seq<Node>): seq<Node>
  {
    if ns == [] then [] else Children(ns[0]) + NextLevel(ns[1..])
  }

  lemma {:induction false} HeightSeqConcat(a: seq<Node>, b: seq<Node>)
    ensures HeightSeq(a + b) == Max(HeightSeq(a), HeightSeq(b))
    decreases |a|
  {
    if a == [] {
      assert a + b == b;
    } else {
      assert (a + b)[0] == a[0];
      assert (a + b)[1..] == a[1..] + b;
      HeightSeqConcat(a[1..], b);
    }
  }

  lemma {:induction false} NextLevelLower(ns: seq<Node>)
    requires ns != []
    ensures HeightSeq(NextLevel(ns)) < HeightSeq(ns)
    decreases |ns|
  {
    HeightSeqConcat(Children(ns[0]), NextLevel(ns[1..]));
    assert HeightSeq(Children(ns[0])) < Height(ns[0]);
    if ns[1..] != [] {
      NextLevelLower(ns[1..]);
    }
  }

  /** `ast.walk` restricted to the nodes the model keeps: level by level. */
  function Walk(ns: seq<Node>): seq<Node>
    decreases HeightSeq(ns)
  {
    if ns == [] then []
    else
      NextLevelLower(ns);
      ns + Walk(NextLevel(ns))
  }

  /** The `self.<name>` an `__init__` statement assigns, if it assigns one. */
  function SelfAssignment(n: Node): Option<ClassAttribute>
  {
    match n
    case Assign(targets, value, _) =>
      if |targets| == 1 && targets[0].AttributeTarget? && targets[0].owner == Some("self")
      then Some(ClassAttribute(targets[0].attr, None, Some(value.text))) else None
    case AnnAssign(AttributeTarget(owner, attr, _), annotation, value, _) =>
      if owner == Some("self")
      then Some(ClassAttribute(attr, Some(annotation.text), if value.Some? then Some(value.value.text) else None))
      else None
    case _ => None
  }

  /** The attributes the `__init__` scan has collected after the first `k`
      walked nodes, and the set of names seen so far. */
  function InitScan(walk: seq<Node>, k: nat): (r: (seq<ClassAttribute>, set<string>))
    requires k <= |walk|
  {
    if k == 0 then ([], {})
    else
      var prev := InitScan(walk, k - 1);
      var a := SelfAssignment(walk[k - 1]);
      if a.Some? && !IsPrivate(a.value.name) && a.value.name !in prev.1
      then (prev.0 + [a.value], prev.1 + {a.value.name})
      else prev
  }

  function AttrNames(attrs: seq<ClassAttribute>): set<string>
  {
    if attrs == [] then {} else AttrNames(attrs[..|attrs| - 1]) + {attrs[|attrs| - 1].name}
  }

  lemma {:induction false} AttrNamesMembers(attrs: seq<ClassAttribute>, x: string)
    ensures x in AttrNames(attrs) <==> exists i :: 0 <= i < |attrs| && attrs[i].name == x
    decreases |attrs|
  {
    if attrs != [] {
      var init := attrs[..|attrs| - 1];
      AttrNamesMembers(init, x);
      if exists i :: 0 <= i < |init| && init[i].name == x {
        var i :| 0 <= i < |init| && init[i].name == x;
        assert attrs[i] == init[i];
      }
      if exists i :: 0 <= i < |attrs| && attrs[i].name == x {
        var i :| 0 <= i < |attrs| && attrs[i].name == x;
        if i < |init| { assert init[i] == attrs[i]; }
      }
    }
  }

  /** The init part names each attribute once, never a private one, and the
      seen set is exactly the names collected. */
  lemma {:induction false} InitScanDistinct(walk: seq<Node>, k: nat)
    requires k <= |walk|
    ensures forall i, j :: 0 <= i < j < |InitScan(walk, k).0| ==> InitScan(walk, k).0[i].name != InitScan(walk, k).0[j].name
    ensures forall i :: 0 <= i < |InitScan(walk, k).0| ==> !IsPrivate(InitScan(walk, k).0[i].name)
    ensures InitScan(walk, k).1 == AttrNames(InitScan(walk, k).0)
    decreases k
  {
    if k > 0 {
      InitScanDistinct(walk, k - 1);
      var prev := InitScan(walk, k - 1);
      var a := SelfAssignment(walk[k - 1]);
      if a.Some? && !IsPrivate(a.value.name) && a.value.name !in prev.1 {
        var r := InitScan(walk, k);
        assert r.0 == prev.0 + [a.value];
        assert r.0[..|r.0| - 1] == prev.0;
        AttrNamesMembers(prev.0, a.value.name);
      }
    }
  }

  function InitAttributes(body: seq<Node>): seq<ClassAttribute>
  {
    match FindInit(body)
    case None => []
    case Some(init) => var w := Walk([init]); InitScan(w, |w|).0
  }

  /** `_extract_class_attributes`: the body's attributes, then those that the
      first `__init__` assigns to `self`. */
  method ExtractClassAttributes(body: seq<Node>) returns (attributes: seq<ClassAttribute>)
    ensures attributes == BodyAttributes(body) + InitAttributes(body)
  {
    attributes := [];
    var i := 0;
    while i < |body|
      invariant 0 <= i <= |body|
      invariant attributes == BodyAttributes(body[..i])
    {
      assert body[..i + 1][..i] == body[..i];
      var found := CollectNodeAttributes(body[i]);
      attributes := attributes + found;
      i := i + 1;
    }
    assert body[..i] == body;
    var init := FindInit(body);
    if init.Some? {
      var fromInit := CollectInitAttributes(Walk([init.value]));
      attributes := attributes + fromInit;
    }
  }

  /** One statement of the class body: every public name an assignment
      binds, or the public name an annotated assignment declares. */
  method CollectNodeAttributes(n: Node) returns (found: seq<ClassAttribute>)
    ensures found == NodeAttributes(n)
  {
    found := [];
    match n {
      case Assign(targets, value, _) =>
        var t := 0;
        while t < |targets|
          invariant 0 <= t <= |targets|
          invariant found == AssignAttributes(targets[..t], value)
        {
          assert targets[..t + 1][..t] == targets[..t];
          if targets[t].NameTarget? && !IsPrivate(targets[t].id) {
            found := found + [ClassAttribute(targets[t].id, None, Some(value.text))];
          }
          t := t + 1;
        }
        assert targets[..t] == targets;
      case AnnAssign(NameTarget(id, _), annotation, value, _) =>
        if !IsPrivate(id) {
          found := [ClassAttribute(id, Some(annotation.text), if value.Some? then Some(value.value.text) else None)];
        }
      case _ =>
    }
  }

  /** The walk over `__init__`, skipping private names and names already
      taken from an earlier assignment in the walk. */
  method CollectInitAttributes(walk: seq<Node>) returns (found: seq<ClassAttribute>)
    ensures found == InitScan(walk, |walk|).0
  {
    found := [];
    var selfAssigns: set<string> := {};
    var k := 0;
    while k < |walk|
      invariant 0 <= k <= |walk|
      invariant (found, selfAssigns) == InitScan(walk, k)
    {
      var a := SelfAssignment(walk[k]);
      if a.Some? && !IsPrivate(a.value.name) && a.value.name !in selfAssigns {
        selfAssigns := selfAssigns + {a.value.name};
        found := found + [a.value];
      }
      k := k + 1;
    }
  }

  /** No attribute collected from the class is private. */
  lemma {:induction false} BodyAttributesPublic(body: seq<Node>)
    ensures forall i :: 0 <= i < |BodyAttributes(body)| ==> !IsPrivate(BodyAttributes(body)[i].name)
    decreases |body|
  {
    if body != [] {
      BodyAttributesPublic(body[..|body| - 1]);
      var n := body[|body| - 1];
      if n.Assign? {
        AssignAttributesPublic(n.targets, n.value);
      }
    }
  }

  lemma {:induction false} AssignAttributesPublic(targets: seq<Target>, value: Expr)
    ensures forall i :: 0 <= i < |AssignAttributes(targets, value)| ==> !IsPrivate(AssignAttributes(targets, value)[i].name)
    decreases |targets|
  {
    if targets != [] {
      AssignAttributesPublic(targets[..|targets| - 1], value);
    }
  }

  // -------------------------------------------------------- definitions

  /** `_process_function_node` */
  function ProcessFunction(n: Node, docs: map<string, string>, lines: seq<string>, inClass: bool): (f: ParsedFunction)
    requires n.FunctionDef?
    ensures f.end_line > f.start_line
  {
    var key := (if n.is_async then "async_function:" else "function:") + n.name;
    var end := EndLine(n.lineno, MaxLine(n));
    ParsedFunction(
      name := n.name,
      code := CodeOf(lines, n.lineno, end),
      start_line := n.lineno,
      end_line := end,
      docstring := if key in docs then Some(docs[key]) else None,
      params := Params(n.args, inClass),
      return_type := if n.result_annotation.Some? then Some(n.result_annotation.value.text) else None,
      is_async := n.is_async)
  }

  function Methods(body: seq<Node>, docs: map<string, string>, lines: seq<string>): seq<ParsedFunction>
  {
    if body == [] then []
    else
      var rest := Methods(body[1..], docs, lines);
      if body[0].FunctionDef? then [ProcessFunction(body[0], docs, lines, true)] + rest else rest
  }

  /** `_process_class_node` */
  function ProcessClass(n: Node, docs: map<string, string>, lines: seq<string>): (c: ParsedClass)
    requires n.ClassDef?
    ensures c.end_line > c.start_line
  {
    var key := "class:" + n.name;
    var end := EndLine(n.lineno, MaxLine(n));
    ParsedClass(
      name := n.name,
      code := CodeOf(lines, n.lineno, end),
      start_line := n.lineno,
      end_line := end,
      docstring := if key in docs then Some(docs[key]) else None,
      base_classes := seq(|n.bases|, k requires 0 <= k < |n.bases| => n.bases[k].text),
      methods := Methods(n.body, docs, lines),
      attributes := BodyAttributes(n.body) + InitAttributes(n.body))
  }

  /** `_extract_functions` as written: it reads `node.parent` on a top-level
      definition before anything has set it, so the first one raises. */
  function ExtractFunctionsAsWritten(body: seq<Node>, docs: map<string, string>, lines: seq<string>)
    : Result<seq<ParsedFunction>>
  {
    if body == [] then Ok([])
    else if body[0].FunctionDef? then
      Err("'" + (if body[0].is_async then "AsyncFunctionDef" else "FunctionDef") + "' object has no attribute 'parent'")
    else ExtractFunctionsAsWritten(body[1..], docs, lines)
  }

  /** `_extract_functions` as intended: every top-level `def`, in order,
      processed as a function outside any class. */
  function ExtractFunctions(body: seq<Node>, docs: map<string, string>, lines: seq<string>): seq<ParsedFunction>
  {
    if body == [] then []
    else
      var rest := ExtractFunctions(body[1..], docs, lines);
      if body[0].FunctionDef? then [ProcessFunction(body[0], docs, lines, false)] + rest else rest
  }

  /** Every parsed function is a top-level `def` of the module, and every
      top-level `def` is among the parsed functions. */
  lemma {:induction false} ExtractFunctionsExact(body: seq<Node>, docs: map<string, string>, lines: seq<string>)
    ensures forall f :: f in ExtractFunctions(body, docs, lines) <==>
      exists n :: n in body && n.FunctionDef? && f == ProcessFunction(n, docs, lines, false)
    decreases |body|
  {
    if body != [] {
      ExtractFunctionsExact(body[1..], docs, lines);
      forall n | n in body && n.FunctionDef?
        ensures ProcessFunction(n, docs, lines, false) in ExtractFunctions(body, docs, lines)
      {
        if n != body[0] {
          assert n in body[1..];
        }
      }
    }
  }

  /** As written, extraction succeeds only for a module without top-level
      `def`s, and then with the same (empty) list as intended. */
  lemma {:induction false} ExtractFunctionsAsWrittenOk(body: seq<Node>, docs: map<string, string>, lines: seq<string>)
    ensures ExtractFunctionsAsWritten(body, docs, lines).Ok? <==> forall n :: n in body ==> !n.FunctionDef?
    ensures ExtractFunctionsAsWritten(body, docs, lines).Ok? ==>
      ExtractFunctionsAsWritten(body, docs, lines).value == ExtractFunctions(body, docs, lines) == []
    decreases |body|
  {
    if body != [] {
      ExtractFunctionsAsWrittenOk(body[1..], docs, lines);
      assert forall n :: n in body ==> n == body[0] || n in body[1..];
    }
  }

  function ExtractClasses(body: seq<Node>, docs: map<string, string>, lines: seq<string>): seq<ParsedClass>
  {
    if body == [] then []
    else
      var rest := ExtractClasses(body[1..], docs, lines);
      if body[0].ClassDef? then [ProcessClass(body[0], docs, lines)] + rest else rest
  }

  /** Every parsed class is a top-level `class` of the module, and every
      top-level `class` is among the parsed classes. */
  lemma {:induction false} ExtractClassesExact(body: seq<Node>, docs: map<string, string>, lines: seq<string>)
    ensures forall c :: c in ExtractClasses(body, docs, lines) <==>
      exists n :: n in body && n.ClassDef? && c == ProcessClass(n, docs, lines)
    decreases |body|
  {
    if body != [] {
      ExtractClassesExact(body[1..], docs, lines);
      forall n | n in body && n.ClassDef?
        ensures ProcessClass(n, docs, lines) in ExtractClasses(body, docs, lines)
      {
        if n != body[0] {
          assert n in body[1..];
        }
      }
    }
  }

  // -------------------------------------------------------------- imports

  /** One entry per imported name: `import` entries carry no name and the
      module imported; `from` entries carry the name, under the module or "". */
  function ImportsOf(n: Node): (r: seq<Import>)
    ensures n.ImportStmt? || n.ImportFrom? ==> |r| == |n.names|
    ensures !n.ImportStmt? && !n.ImportFrom? ==> r == []
    ensures n.ImportStmt? ==> forall k :: 0 <= k < |r| ==>
      r[k].name.None? && r[k].module_name == n.names[k].name && r[k].alias == n.names[k].asname
    ensures n.ImportFrom? ==> forall k :: 0 <= k < |r| ==>
      && r[k].name == Some(n.names[k].name) && r[k].alias == n.names[k].asname
      && r[k].module_name == (if n.module_name.Some? then n.module_name.value else "")
  {
    match n
    case ImportStmt(names, _) =>
      seq(|names|, k requires 0 <= k < |names| => Import(names[k].name, None, names[k].asname))
    case ImportFrom(module_name, names, _) =>
      var m := if module_name.Some? then module_name.value else "";
      seq(|names|, k requires 0 <= k < |names| => Import(m, Some(names[k].name), names[k].asname))
    case _ => []
  }

  function ImportsSeq(ns: seq<Node>): seq<Import>
  {
    if ns == [] then [] else ImportsOf(ns[0]) + ImportsSeq(ns[1..])
  }

  /** `_extract_imports`: every import anywhere in the module, in walk order. */
  function ExtractImports(m: ModuleAst): seq<Import>
  {
    ImportsSeq(Walk(m.body))
  }

  /** The imports are exactly the entries of the import statements met in
      the walk, and there is one per imported name. */
  lemma {:induction false} ImportsSeqOf(ns: seq<Node>)
    ensures forall imp :: imp in ImportsSeq(ns) <==> exists n :: n in ns && imp in ImportsOf(n)
    ensures |ImportsSeq(ns)| == NamesCount(ns)
    decreases |ns|
  {
    if ns != [] {
      ImportsSeqOf(ns[1..]);
      assert forall n :: n in ns <==> n == ns[0] || n in ns[1..];
    }
  }

  /** The number of names imported by the statements among `ns`. */
  function NamesCount(ns: seq<Node>): nat
  {
    if ns == [] then 0
    else (if ns[0].ImportStmt? || ns[0].ImportFrom? then |ns[0].names| else 0) + NamesCount(ns[1..])
  }

  // --------------------------------------------------------------- parse

  /** `PythonCodeParser.parse` for a file whose text is `code` and whose tree
      is `tree`. */
  function Parse(filePath: string, code: string, tree: ModuleAst): (m: ParsedModule)
    ensures m.file_path == filePath && m.code == code
    ensures m.docstring == (if Truthy(tree.docstring) then tree.docstring else
                             if "module" in Docstrings(tree) then Some(Docstrings(tree)["module"]) else None)
  {
    var docs := Docstrings(tree);
    var lines := Split(code, "\n");
    ModuleDocstring(tree);
    ParsedModule(
      file_path := filePath,
      code := code,
      docstring := if "module" in docs then Some(docs["module"]) else None,
      imports := ExtractImports(tree),
      functions := ExtractFunctions(tree.body, docs, lines),
      classes := ExtractClasses(tree.body, docs, lines))
  }

  /** A truthy module docstring is what the extractor keeps under "module". */
  lemma ModuleDocstring(tree: ModuleAst)
    ensures Truthy(tree.docstring) ==> "module" in Docstrings(tree) && Docstrings(tree)["module"] == tree.docstring.value
  {
    EntryKeysSeq(tree.body);
    var es := ModuleEntries(tree);
    if Truthy(tree.docstring) {
      forall j | 0 < j < |es| ensures es[j].0 != "module" {
        assert es[j] == EntriesSeq(tree.body)[j - 1];
      }
      LastEntryWins(map[], es, "module");
    }
  }

  // ------------------------------------------------------- is_python_file

  /** `is_python_file`; `firstLine` is the decoded first line of the file, or
      None when it cannot be read. */
  predicate IsPythonFile(path: string, firstLine: Option<string>)
  {
    EndsWith(path, ".py")
    || (firstLine.Some? && StartsWith(Strip(firstLine.value), "#!") && Contains(Lower(Strip(firstLine.value)), "python"))
  }

  /** A ".py" name is Python whatever the file holds. */
  lemma PyNameIsPython(path: string, firstLine: Option<string>)
    requires EndsWith(path, ".py")
    ensures IsPythonFile(path, firstLine)
  {
  }

  /** A stripped first line that is a shebang naming Python, in any letter
      case, marks a Python script whatever its name. */
  lemma ShebangIsPython(path: string, line: string)
    requires line != [] && !IsSpace(line[0]) && !IsSpace(line[|line| - 1])
    requires StartsWith(line, "#!") && Contains(Lower(line), "python")
    ensures IsPythonFile(path, Some(line + "\n"))
  {
    StripNewline(line);
  }

  /** A shell shebang and a non-".py" name are not Python. */
  lemma ShellShebang()
    ensures !IsPythonFile("bin/run", Some("#!/bin/sh\n"))
  {
    var line := "#!/bin/sh";
    StripNewline(line);
    assert line + "\n" == "#!/bin/sh\n";
    assert !EndsWith("bin/run", ".py") by {
      assert "bin/run"[4..][0] == 'r';
    }
    ShellLineNotPython();
  }

  lemma ShellLineNotPython()
    ensures !Contains(Lower("#!/bin/sh"), "python")
  {
    var line := "#!/bin/sh";
    var low := Lower(line);
    assert |low| == 9;
    forall j: nat ensures !OccursAt(low, "python", j) {
      if j + 6 <= |low| {
        assert low[j..j + 6][0] == low[j] == LowerChar(line[j]);
        if j == 0 { assert line[0] == '#'; }
        else if j == 1 { assert line[1] == '!'; }
        else if j == 2 { assert line[2] == '/'; }
        else { assert line[3] == 'b'; }
      }
    }
    NowhereNotContained(low, "python");
  }

  lemma StripNewline(line: string)
    requires line != [] && !IsSpace(line[0]) && !IsSpace(line[|line| - 1])
    ensures Strip(line + "\n") == line
  {
    StripPadded("", line, "\n");
    assert "" + line + "\n" == line + "\n";
  }
}
