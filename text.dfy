/** The parts of Python's `str` that the core relies on: `isspace`, `strip`,
    `find`/`in`, `split`, `join`, `replace`, `startswith`, ASCII `lower`,
    `str(int)` and the POSIX `os.path` helpers built on them. */
module Text {
  import opened Wrappers

  /** Python's `str.isspace` for a single character. */
  predicate IsSpace(c: char)
  {
    c == ' ' || ('\t' <= c <= '\r') || ('\U{001C}' <= c <= '\U{001F}')
    || c == '\U{0085}' || c == '\U{00A0}' || c == '\U{1680}'
    || ('\U{2000}' <= c <= '\U{200A}') || c == '\U{2028}' || c == '\U{2029}'
    || c == '\U{202F}' || c == '\U{205F}' || c == '\U{3000}'
  }

  predicate AllSpace(s: string)
  {
    forall i :: 0 <= i < |s| ==> IsSpace(s[i])
  }

  /** No whitespace at either end: what `strip` leaves. */
  predicate IsStripped(s: string)
  {
    s == [] || (!IsSpace(s[0]) && !IsSpace(s[|s| - 1]))
  }

  /** `s.lstrip()` */
  function TrimLeft(s: string): (r: string)
    ensures |r| <= |s| && r == s[|s| - |r|..]
    ensures r != [] ==> !IsSpace(r[0])
    ensures AllSpace(s[..|s| - |r|])
  {
    if s != [] && IsSpace(s[0]) then TrimLeft(s[1..]) else s
  }

  /** `s.rstrip()` */
  function TrimRight(s: string): (r: string)
    ensures |r| <= |s| && r == s[..|r|]
    ensures r != [] ==> !IsSpace(r[|r| - 1])
    ensures AllSpace(s[|r|..])
  {
    if s != [] && IsSpace(s[|s| - 1]) then TrimRight(s[..|s| - 1]) else s
  }

  /** `s.strip()` */
  function Strip(s: string): (r: string)
    ensures IsStripped(r)
    ensures |r| <= |s|
  {
    TrimRight(TrimLeft(s))
  }

  lemma {:induction false} TrimLeftPadded(ws: string, x: string)
    requires AllSpace(ws) && (x == [] || !IsSpace(x[0]))
    ensures TrimLeft(ws + x) == x
    decreases |ws|
  {
    if ws != [] {
      assert (ws + x)[1..] == ws[1..] + x;
      TrimLeftPadded(ws[1..], x);
    } else {
      assert ws + x == x;
    }
  }

  lemma {:induction false} TrimRightPadded(x: string, ws: string)
    requires AllSpace(ws) && (x == [] || !IsSpace(x[|x| - 1]))
    ensures TrimRight(x + ws) == x
    decreases |ws|
  {
    if ws != [] {
      assert (x + ws)[..|x + ws| - 1] == x + ws[..|ws| - 1];
      TrimRightPadded(x, ws[..|ws| - 1]);
    } else {
      assert x + ws == x;
    }
  }

  /** Stripping removes exactly the whitespace around an already stripped text. */
  lemma StripPadded(ws1: string, x: string, ws2: string)
    requires AllSpace(ws1) && AllSpace(ws2) && IsStripped(x)
    ensures Strip(ws1 + x + ws2) == x
  {
    if x == [] {
      assert ws1 + x + ws2 == ws1 + ws2;
      forall i | 0 <= i < |ws1 + ws2| ensures IsSpace((ws1 + ws2)[i]) {
        if i < |ws1| { assert (ws1 + ws2)[i] == ws1[i]; } else { assert (ws1 + ws2)[i] == ws2[i - |ws1|]; }
      }
      TrimLeftPadded(ws1 + ws2, []);
      assert ws1 + ws2 + [] == ws1 + ws2;
    } else {
      assert ws1 + x + ws2 == ws1 + (x + ws2);
      TrimLeftPadded(ws1, x + ws2);
      TrimRightPadded(x, ws2);
    }
  }

  lemma StripStripped(x: string)
    requires IsStripped(x)
    ensures Strip(x) == x
  {
    StripPadded([], x, []);
    assert [] + x + [] == x;
  }

  /** Text after a non-space character is not touched by `lstrip`. */
  lemma {:induction false} TrimLeftConcat(x: string, y: string)
    requires y != [] && !IsSpace(y[0])
    ensures TrimLeft(x + y) == TrimLeft(x) + y
    decreases |x|
  {
    if x == [] {
      assert x + y == y;
    } else if IsSpace(x[0]) {
      assert (x + y)[1..] == x[1..] + y;
      TrimLeftConcat(x[1..], y);
    }
  }

  /** Text before a non-space character is not touched by `rstrip`. */
  lemma {:induction false} TrimRightConcat(x: string, y: string)
    requires x != [] && !IsSpace(x[|x| - 1])
    ensures TrimRight(x + y) == x + TrimRight(y)
    decreases |y|
  {
    if y == [] {
      assert x + y == x;
    } else if IsSpace(y[|y| - 1]) {
      assert (x + y)[..|x + y| - 1] == x + y[..|y| - 1];
      TrimRightConcat(x, y[..|y| - 1]);
    } else {
      assert (x + y)[|x + y| - 1] == y[|y| - 1];
    }
  }

  /** Maps with the same keys and the same value at every key are equal. */
  lemma MapsEqual<K, V>(a: map<K, V>, b: map<K, V>)
    requires a.Keys == b.Keys
    requires forall k :: k in a ==> a[k] == b[k]
    ensures a == b
  {
  }

  lemma SeqAssoc<T>(a: seq<T>, b: seq<T>, c: seq<T>)
    ensures a + (b + c) == a + b + c
  {
  }

  /** A non-empty sequence is its prefix followed by its last element. */
  lemma PrefixAndLast<T>(s: seq<T>)
    requires s != []
    ensures s == s[..|s| - 1] + [s[|s| - 1]]
  {
  }

  lemma ConcatAssoc(a: string, m: string, b: string)
    ensures a + m + b == a + (m + b)
  {
  }

  lemma TrimLeftAround(a: string, m: string, b: string)
    requires m != [] && !IsSpace(m[0])
    ensures TrimLeft(a + m + b) == TrimLeft(a) + m + b
  {
    var mb := m + b;
    assert mb[0] == m[0];
    TrimLeftConcat(a, mb);
    ConcatAssoc(a, m, b);
    ConcatAssoc(TrimLeft(a), m, b);
  }

  lemma TrimRightAround(a: string, m: string, b: string)
    requires m != [] && !IsSpace(m[|m| - 1])
    ensures TrimRight(a + m + b) == a + m + TrimRight(b)
  {
    var am := a + m;
    assert am[|am| - 1] == m[|m| - 1];
    TrimRightConcat(am, b);
  }

  /** Stripping `a + m + b`, where `m` has visible characters at both ends,
      only trims `a` on the left and `b` on the right. */
  lemma StripAround(a: string, m: string, b: string)
    requires m != [] && !IsSpace(m[0]) && !IsSpace(m[|m| - 1])
    ensures Strip(a + m + b) == TrimLeft(a) + m + TrimRight(b)
  {
    TrimLeftAround(a, m, b);
    TrimRightAround(TrimLeft(a), m, b);
  }

  /** A character missing from a text is missing from its pieces. */
  lemma CharAbsentPieces(s: string, c: char, k: nat)
    requires c !in s && k <= |s|
    ensures c !in s[k..] && c !in s[..k]
  {
    assert forall x :: x in s[k..] ==> x in s;
    assert forall x :: x in s[..k] ==> x in s;
  }

  /** ... and from what `strip` keeps of it. */
  lemma CharAbsentTrimmed(s: string, c: char)
    requires c !in s
    ensures c !in TrimLeft(s) && c !in TrimRight(s)
  {
    CharAbsentPieces(s, c, |s| - |TrimLeft(s)|);
    CharAbsentPieces(s, c, |TrimRight(s)|);
  }

  lemma TrimLeftTwice(s: string)
    ensures TrimLeft(TrimLeft(s)) == TrimLeft(s)
  {
  }

  /** `strip` keeps a middle stretch of its argument. */
  lemma StripInfix(s: string) returns (lo: nat)
    ensures lo + |Strip(s)| <= |s| && Strip(s) == s[lo..lo + |Strip(s)|]
  {
    var t := TrimLeft(s);
    lo := |s| - |t|;
    assert t == s[lo..];
    assert Strip(s) == t[..|Strip(s)|];
  }

  // ---------------------------------------------------------------- searching

  predicate OccursAt(s: string, sub: string, i: nat)
  {
    i + |sub| <= |s| && s[i..i + |sub|] == sub
  }

  /** `s.find(sub, i)`, as an option instead of -1. */
  function FindFrom(s: string, sub: string, i: nat): (r: Option<nat>)
    requires i <= |s|
    decreases |s| - i
    ensures r.Some? ==> i <= r.value && OccursAt(s, sub, r.value)
    ensures forall j :: i <= j && (r.None? || j < r.value) ==> !OccursAt(s, sub, j)
  {
    if i + |sub| > |s| then None
    else if s[i..i + |sub|] == sub then Some(i)
    else FindFrom(s, sub, i + 1)
  }

  /** `s.find(sub)`: the leftmost occurrence. */
  function Find(s: string, sub: string): (r: Option<nat>)
    ensures r.Some? ==> OccursAt(s, sub, r.value)
    ensures forall j: nat :: (r.None? || j < r.value) ==> !OccursAt(s, sub, j)
  {
    FindFrom(s, sub, 0)
  }

  /** `sub in s` */
  predicate Contains(s: string, sub: string)
  {
    Find(s, sub).Some?
  }

  lemma OccursAtContains(s: string, sub: string, i: nat)
    requires OccursAt(s, sub, i)
    ensures Contains(s, sub) && Find(s, sub).value <= i
  {
  }

  /** An occurrence inside a piece of a string is an occurrence in the string. */
  lemma ContainsInfix(s: string, lo: nat, hi: nat, sub: string)
    requires lo <= hi <= |s| && Contains(s[lo..hi], sub)
    ensures Contains(s, sub)
  {
    var t := s[lo..hi];
    var j := Find(t, sub).value;
    assert OccursAt(t, sub, j);
    forall k | 0 <= k < |sub| ensures s[lo + j + k] == sub[k] {
      assert t[j..j + |sub|][k] == sub[k];
      assert t[j + k] == s[lo + j + k];
    }
    assert s[lo + j..lo + j + |sub|] == sub;
    OccursAtContains(s, sub, lo + j);
  }

  /** Stripping cannot create an occurrence. */
  /** A piece of a text without `sub` does not contain `sub` either. */
  lemma InfixKeepsAbsence(s: string, lo: nat, hi: nat, sub: string)
    requires lo <= hi <= |s| && !Contains(s, sub)
    ensures !Contains(s[lo..hi], sub)
  {
    if Contains(s[lo..hi], sub) {
      ContainsInfix(s, lo, hi, sub);
    }
  }

  /** What `s` does not contain, `s.strip()` does not contain. */
  lemma StripKeepsAbsence(s: string, sub: string)
    ensures !Contains(s, sub) ==> !Contains(Strip(s), sub)
  {
    var lo := StripInfix(s);
    if !Contains(s, sub) && Contains(Strip(s), sub) {
      ContainsInfix(s, lo, lo + |Strip(s)|, sub);
    }
  }

  /** A text with no occurrence at any position does not contain the pattern. */
  lemma NowhereNotContained(s: string, sub: string)
    requires forall j: nat :: !OccursAt(s, sub, j)
    ensures !Contains(s, sub)
  {
  }

  /** A text without the first character of a pattern does not contain it. */
  lemma FirstCharAbsent(s: string, sub: string)
    requires sub != [] && sub[0] !in s
    ensures !Contains(s, sub)
  {
    forall j: nat ensures !OccursAt(s, sub, j) {
      if j + |sub| <= |s| {
        assert s[j..j + |sub|][0] == s[j];
      }
    }
    NowhereNotContained(s, sub);
  }

  /** A pattern free of the character `c` cannot straddle an occurrence of `c`. */
  lemma NoStraddle(a: string, c: char, b: string, sub: string)
    requires c !in sub && !Contains(a, sub) && !Contains(b, sub)
    ensures !Contains(a + [c] + b, sub)
  {
    var s := a + [c] + b;
    forall j: nat ensures !OccursAt(s, sub, j) {
      if j + |sub| <= |s| {
        if j + |sub| <= |a| {
          assert a[j..j + |sub|] == s[j..j + |sub|];
          assert !OccursAt(a, sub, j);
        } else if j > |a| {
          assert b[j - |a| - 1..j - |a| - 1 + |sub|] == s[j..j + |sub|];
          assert !OccursAt(b, sub, j - |a| - 1);
        } else {
          assert s[j..j + |sub|][|a| - j] == c;
        }
      }
    }
    NowhereNotContained(s, sub);
  }

  lemma NotContainsConcat(a: string, b: string, sub: string)
    requires |sub| == 1 && !Contains(a, sub) && !Contains(b, sub)
    ensures !Contains(a + b, sub)
  {
    forall j: nat ensures !OccursAt(a + b, sub, j) {
      if j + 1 <= |a + b| {
        if j < |a| {
          assert a[j..j + 1] == (a + b)[j..j + 1];
          assert !OccursAt(a, sub, j);
        } else {
          assert b[j - |a|..j - |a| + 1] == (a + b)[j..j + 1];
          assert !OccursAt(b, sub, j - |a|);
        }
      }
    }
    NowhereNotContained(a + b, sub);
  }

  lemma CharNotContained(s: string, c: char)
    requires c !in s
    ensures !Contains(s, [c])
  {
    forall j: nat ensures !OccursAt(s, [c], j) {
      if j + 1 <= |s| {
        assert s[j..j + 1] == [s[j]];
      }
    }
    NowhereNotContained(s, [c]);
  }

  /** The first occurrence of a one-character separator that the prefix lacks. */
  lemma FindAfterPrefix(a: string, c: char, b: string)
    requires c !in a
    ensures Find(a + [c] + b, [c]) == Some(|a|)
  {
    var s := a + [c] + b;
    assert s[|a|..|a| + 1] == [c];
    OccursAtContains(s, [c], |a|);
    forall j: nat | j < |a| ensures !OccursAt(s, [c], j) {
      assert s[j..j + 1] == [a[j]];
    }
  }

  function Min(a: int, b: int): int
  {
    if a <= b then a else b
  }

  // ---------------------------------------------------------- split and join

  /** `s.split(sep)` for a non-empty separator. */
  function Split(s: string, sep: string): (parts: seq<string>)
    requires sep != []
    decreases |s|
    ensures |parts| >= 1
  {
    match Find(s, sep)
    case None => [s]
    case Some(i) => [s[..i]] + Split(s[i + |sep|..], sep)
  }

  /** No piece of a split holds the separator. */
  lemma {:induction false} SplitPartsFree(s: string, sep: string)
    requires sep != []
    ensures forall k :: 0 <= k < |Split(s, sep)| ==> !Contains(Split(s, sep)[k], sep)
    decreases |s|
  {
    match Find(s, sep)
    case None =>
    case Some(i) =>
      var p := s[..i];
      forall j: nat ensures !OccursAt(p, sep, j) {
        if j + |sep| <= |p| {
          assert p[j..j + |sep|] == s[j..j + |sep|];
          assert !OccursAt(s, sep, j);
        }
      }
      NowhereNotContained(p, sep);
      SplitPartsFree(s[i + |sep|..], sep);
  }

  /** `sep.join(parts)` */
  function Join(parts: seq<string>, sep: string): string
    decreases |parts|
  {
    if |parts| == 0 then ""
    else if |parts| == 1 then parts[0]
    else parts[0] + sep + Join(parts[1..], sep)
  }

  /** Joining the pieces of a split with the same separator gives the text back. */
  lemma {:induction false} JoinSplit(s: string, sep: string)
    requires sep != []
    ensures Join(Split(s, sep), sep) == s
    decreases |s|
  {
    if Find(s, sep).Some? {
      var i := Find(s, sep).value;
      JoinSplit(s[i + |sep|..], sep);
      JoinSplitStep(s, sep, i);
    }
  }

  lemma JoinSplitStep(s: string, sep: string, i: nat)
    requires sep != [] && Find(s, sep) == Some(i)
    requires Join(Split(s[i + |sep|..], sep), sep) == s[i + |sep|..]
    ensures Join(Split(s, sep), sep) == s
  {
    var rest := s[i + |sep|..];
    assert Split(s, sep) == [s[..i]] + Split(rest, sep);
    JoinCons(s[..i], Split(rest, sep), sep);
    assert s[i..i + |sep|] == sep;
    assert s == s[..i] + sep + rest;
  }

  lemma JoinCons(a: string, q: seq<string>, sep: string)
    requires |q| >= 1
    ensures Join([a] + q, sep) == a + sep + Join(q, sep)
  {
    assert ([a] + q)[1..] == q;
  }

  /** Splitting a join on a one-character separator that no part holds gives the
      parts back. */
  lemma {:induction false} SplitJoin(parts: seq<string>, c: char)
    requires |parts| >= 1
    requires forall k :: 0 <= k < |parts| ==> c !in parts[k]
    ensures Split(Join(parts, [c]), [c]) == parts
    decreases |parts|
  {
    if |parts| == 1 {
      CharNotContained(parts[0], c);
    } else {
      var rest := Join(parts[1..], [c]);
      assert Join(parts, [c]) == parts[0] + [c] + rest;
      FindAfterPrefix(parts[0], c, rest);
      assert (parts[0] + [c] + rest)[|parts[0]| + 1..] == rest;
      assert (parts[0] + [c] + rest)[..|parts[0]|] == parts[0];
      SplitJoin(parts[1..], c);
      assert parts == [parts[0]] + parts[1..];
    }
  }

  /** `s.split(sep)[-1]` */
  function LastPart(s: string, sep: string): (r: string)
    requires sep != []
    ensures !Contains(r, sep)
  {
    SplitPartsFree(s, sep);
    var parts := Split(s, sep);
    parts[|parts| - 1]
  }

  /** `s.split(sep)[0]`: the text before the first separator. */
  function Before(s: string, sep: string): (r: string)
    requires sep != []
    ensures !Contains(r, sep)
  {
    SplitPartsFree(s, sep);
    Split(s, sep)[0]
  }

  /** `s.split(sep)[1]`: the text between the first separator and the next one
      (or the end). */
  function After(s: string, sep: string): (r: string)
    requires sep != [] && Contains(s, sep)
    ensures !Contains(r, sep)
  {
    SplitPartsFree(s, sep);
    Split(s, sep)[1]
  }

  lemma BeforeAt(s: string, sep: string, i: nat)
    requires sep != [] && Find(s, sep) == Some(i)
    ensures Before(s, sep) == s[..i]
  {
  }

  /** When the separator occurs nowhere after the first occurrence, `After` is
      all the rest of the text. */
  lemma AfterAllRest(s: string, sep: string, i: nat)
    requires sep != [] && Find(s, sep) == Some(i)
    requires !Contains(s[i + |sep|..], sep)
    ensures After(s, sep) == s[i + |sep|..]
  {
    var rest := s[i + |sep|..];
    assert Find(rest, sep) == None;
    assert Split(rest, sep) == [rest];
    assert Split(s, sep) == [s[..i], rest];
  }

  // ------------------------------------------------------------------ replace

  /** `s.replace(pat, rep)` for a non-empty pattern: leftmost, non-overlapping. */
  function Replace(s: string, pat: string, rep: string): string
    requires pat != []
    decreases |s|
  {
    match Find(s, pat)
    case None => s
    case Some(i) => s[..i] + rep + Replace(s[i + |pat|..], pat, rep)
  }

  /** A pattern that only leads the text is replaced there and nowhere else. */
  lemma ReplaceLeading(pat: string, rest: string, rep: string)
    requires pat != [] && !Contains(rest, pat)
    ensures Contains(pat + rest, pat)
    ensures Replace(pat + rest, pat, rep) == rep + rest
  {
    var s := pat + rest;
    assert s[0..|pat|] == pat;
    OccursAtContains(s, pat, 0);
    assert Find(s, pat) == Some(0);
    assert s[|pat|..] == rest;
    assert Replace(rest, pat, rep) == rest;
    assert Replace(s, pat, rep) == s[..0] + rep + rest;
    assert s[..0] + rep == rep;
  }

  /** Python's replace is split-then-join. */
  lemma {:induction false} ReplaceIsSplitJoin(s: string, pat: string, rep: string)
    requires pat != []
    ensures Replace(s, pat, rep) == Join(Split(s, pat), rep)
    decreases |s|
  {
    match Find(s, pat)
    case None =>
      assert Split(s, pat) == [s];
    case Some(i) =>
      var rest := s[i + |pat|..];
      ReplaceAt(s, pat, rep);
      SplitAt(s, pat);
      ReplaceIsSplitJoin(rest, pat, rep);
      JoinCons(s[..i], Split(rest, pat), rep);
  }

  /** One step of `Replace`, at the first occurrence. */
  lemma ReplaceAt(s: string, pat: string, rep: string)
    requires pat != [] && Find(s, pat).Some?
    ensures Replace(s, pat, rep) ==
      s[..Find(s, pat).value] + rep + Replace(s[Find(s, pat).value + |pat|..], pat, rep)
  {
  }

  /** One step of `Split`, at the first occurrence. */
  lemma SplitAt(s: string, sep: string)
    requires sep != [] && Find(s, sep).Some?
    ensures Split(s, sep) == [s[..Find(s, sep).value]] + Split(s[Find(s, sep).value + |sep|..], sep)
  {
  }

  /** Replacing a one-character pattern by a text free of it removes it. */
  lemma ReplaceRemoves(s: string, pat: string, rep: string)
    requires |pat| == 1 && !Contains(rep, pat)
    ensures !Contains(Replace(s, pat, rep), pat)
  {
    ReplaceIsSplitJoin(s, pat, rep);
    SplitPartsFree(s, pat);
    JoinFree(Split(s, pat), rep, pat);
  }

  lemma {:induction false} JoinFree(parts: seq<string>, sep: string, pat: string)
    requires |pat| == 1 && !Contains(sep, pat)
    requires forall k :: 0 <= k < |parts| ==> !Contains(parts[k], pat)
    ensures !Contains(Join(parts, sep), pat)
    decreases |parts|
  {
    if |parts| == 0 {
    } else if |parts| > 1 {
      JoinFree(parts[1..], sep, pat);
      NotContainsConcat(parts[0], sep, pat);
      NotContainsConcat(parts[0] + sep, Join(parts[1..], sep), pat);
    }
  }

  // ------------------------------------------------------------- predicates

  /** `s.startswith(p)` */
  predicate StartsWith(s: string, p: string)
  {
    |p| <= |s| && s[..|p|] == p
  }

  /** `s.endswith(p)` */
  predicate EndsWith(s: string, p: string)
  {
    |p| <= |s| && s[|s| - |p|..] == p
  }

  function LowerChar(c: char): char
  {
    if 'A' <= c <= 'Z' then (c as int + 32) as char else c
  }

  /** `s.lower()` on ASCII letters. */
  function Lower(s: string): (r: string)
    ensures |r| == |s|
    ensures forall i :: 0 <= i < |s| ==> r[i] == LowerChar(s[i])
  {
    if s == [] then [] else [LowerChar(s[0])] + Lower(s[1..])
  }

  predicate IsAsciiDigit(c: char)
  {
    '0' <= c <= '9'
  }

  // ------------------------------------------------------------ str of an int

  function DigitChar(d: nat): char
    requires d < 10
  {
    ('0' as int + d) as char
  }

  /** `str(n)` for a natural number. */
  function NatToString(n: nat): (r: string)
    decreases n
    ensures |r| >= 1 && forall i :: 0 <= i < |r| ==> IsAsciiDigit(r[i])
  {
    if n < 10 then [DigitChar(n)] else NatToString(n / 10) + [DigitChar(n % 10)]
  }

  /** The value of a string of decimal digits. */
  function DigitsValue(s: string): int
    requires forall i :: 0 <= i < |s| ==> IsAsciiDigit(s[i])
  {
    if s == [] then 0 else DigitsValue(s[..|s| - 1]) * 10 + (s[|s| - 1] as int - '0' as int)
  }

  lemma {:induction false} NatToStringRoundTrip(n: nat)
    ensures DigitsValue(NatToString(n)) == n
    decreases n
  {
    if n >= 10 {
      NatToStringRoundTrip(n / 10);
      var s := NatToString(n);
      assert s[..|s| - 1] == NatToString(n / 10);
    }
  }

  /** `str(i)` */
  function IntToString(i: int): string
  {
    if i < 0 then "-" + NatToString(-i) else NatToString(i)
  }

  // -------------------------------------------------------------- os.path

  /** `os.path.basename(p)`: the text after the last `/`. */
  function Basename(p: string): (r: string)
    ensures '/' !in r
    ensures EndsWith(p, r)
  {
    BasenameIsSuffix(p);
    LastPart(p, "/")
  }

  lemma LastPartSlashFree(p: string)
    ensures '/' !in LastPart(p, "/")
  {
    var r := LastPart(p, "/");
    if '/' in r {
      var k :| 0 <= k < |r| && r[k] == '/';
      assert r[k..k + 1] == "/";
      OccursAtContains(r, "/", k);
    }
  }

  lemma {:induction false} SplitLastIsSuffix(s: string, sep: string)
    requires sep != []
    ensures EndsWith(s, Split(s, sep)[|Split(s, sep)| - 1])
    decreases |s|
  {
    match Find(s, sep)
    case None =>
    case Some(i) =>
      var rest := s[i + |sep|..];
      var parts := Split(rest, sep);
      SplitLastIsSuffix(rest, sep);
      SplitAt(s, sep);
      assert Split(s, sep)[|Split(s, sep)| - 1] == parts[|parts| - 1];
      EndsWithOfSuffix(s, i + |sep|, parts[|parts| - 1]);
  }

  /** What a suffix of a text ends with, the text ends with. */
  lemma EndsWithOfSuffix(s: string, k: nat, r: string)
    requires k <= |s| && EndsWith(s[k..], r)
    ensures EndsWith(s, r)
  {
    assert s[|s| - |r|..] == s[k..][|s[k..]| - |r|..];
  }

  lemma BasenameIsSuffix(p: string)
    ensures '/' !in LastPart(p, "/") && EndsWith(p, LastPart(p, "/"))
  {
    LastPartSlashFree(p);
    SplitLastIsSuffix(p, "/");
  }

  /** After the last separator comes the text that holds none. */
  lemma {:induction false} SplitLastOf(a: string, c: char, b: string)
    requires c !in b
    ensures Split(a + [c] + b, [c])[|Split(a + [c] + b, [c])| - 1] == b
    decreases |a|
  {
    var s := a + [c] + b;
    assert s[|a|..|a| + 1] == [c];
    assert OccursAt(s, [c], |a|);
    var i := Find(s, [c]).value;
    assert i <= |a|;
    if i == |a| {
      assert s[i + 1..] == b;
      CharNotContained(b, c);
    } else {
      assert s[i + 1..] == a[i + 1..] + [c] + b;
      SplitLastOf(a[i + 1..], c, b);
    }
  }

  /** The base name of a file joined onto a directory is the file's name. */
  lemma BasenameOfJoin(dir: string, name: string)
    requires name != "" && '/' !in name
    ensures Basename(PathJoin(dir, name)) == name
  {
    assert name[0] != '/';
    assert name[..1] == [name[0]];
    assert !StartsWith(name, "/");
    if dir == "" {
      CharNotContained(name, '/');
      assert PathJoin(dir, name) == name;
    } else if EndsWith(dir, "/") {
      assert PathJoin(dir, name) == dir[..|dir| - 1] + "/" + name;
      LastPartAfterSlash(dir[..|dir| - 1], name);
    } else {
      LastPartAfterSlash(dir, name);
    }
  }

  lemma LastPartAfterSlash(a: string, b: string)
    requires '/' !in b
    ensures LastPart(a + "/" + b, "/") == b
  {
    SplitLastOf(a, '/', b);
  }

  /** `os.path.join(a, b)` for POSIX paths. */
  function PathJoin(a: string, b: string): (r: string)
    ensures EndsWith(r, b)
    ensures StartsWith(b, "/") ==> r == b
  {
    if StartsWith(b, "/") then b
    else if a == "" || EndsWith(a, "/") then a + b
    else a + "/" + b
  }

  /** `os.path.relpath(path, start)` for a path found below `start`. */
  function RelPath(path: string, start: string): (r: string)
    ensures StartsWith(path, start + "/") ==> path == start + "/" + r
  {
    if StartsWith(path, start + "/") then path[|start| + 1..] else path
  }

  /** `s.rstrip("/")` */
  function TrimSlashes(s: string): (r: string)
    ensures StartsWith(s, r)
  {
    if s != [] && s[|s| - 1] == '/' then TrimSlashes(s[..|s| - 1]) else s
  }

  /** `os.path.dirname(p)`: everything before the last "/", with trailing
      slashes removed unless the head is all slashes. */
  function Dirname(p: string): (r: string)
  {
    var head := p[..|p| - |Basename(p)|];
    if head != "" && (exists i :: 0 <= i < |head| && head[i] != '/') then TrimSlashes(head) else head
  }

  /** The directory part of `os.path.join(dir, name)` is `dir`. */
  lemma DirnameOfJoin(dir: string, name: string)
    requires dir != "" && dir[|dir| - 1] != '/'
    requires name != "" && '/' !in name
    ensures Dirname(PathJoin(dir, name)) == dir
  {
    BasenameOfJoin(dir, name);
    var p := PathJoin(dir, name);
    assert !EndsWith(dir, "/");
    assert p == dir + "/" + name;
    var head := p[..|p| - |name|];
    assert head == dir + "/";
    assert head[|dir| - 1] != '/';
    assert head[..|head| - 1] == dir;
    assert TrimSlashes(dir) == dir;
    assert TrimSlashes(head) == dir;
  }
}
