/**
 * The JavaScript string operations the request classifier is built from,
 * over `string` (`seq<char>`): `includes`, `indexOf`, `replace` with a string
 * pattern, `trim`, `split` on one character, and the maximal-munch runs and
 * leftmost search that the regular expressions of the classifier reduce to.
 */
module Text {
  import opened Wrappers

  /** ECMAScript WhiteSpace and LineTerminator: what `trim` removes and `\s` matches. */
  predicate IsSpace(c: char) {
    || c == '\t' || c == '\n' || c == '\U{B}' || c == '\U{C}' || c == '\r'
    || c == ' ' || c == '\U{A0}' || c == '\U{1680}'
    || ('\U{2000}' <= c <= '\U{200A}')
    || c == '\U{2028}' || c == '\U{2029}' || c == '\U{202F}' || c == '\U{205F}'
    || c == '\U{3000}' || c == '\U{FEFF}'
  }

  /** `\d` without the `u` flag. */
  predicate IsDigit(c: char) { '0' <= c <= '9' }

  /** `\w`. */
  predicate IsWordChar(c: char) { IsDigit(c) || 'a' <= c <= 'z' || 'A' <= c <= 'Z' || c == '_' }

  /** `[\d.]`. */
  predicate IsDigitOrDot(c: char) { IsDigit(c) || c == '.' }

  /** `[\d_]`. */
  predicate IsDigitOrUnderscore(c: char) { IsDigit(c) || c == '_' }

  predicate AllSpace(s: string) {
    forall i :: 0 <= i < |s| ==> IsSpace(s[i])
  }

  predicate AllDigits(s: string) {
    forall i :: 0 <= i < |s| ==> IsDigit(s[i])
  }

  predicate OccursAt(s: string, sub: string, p: nat) {
    p + |sub| <= |s| && s[p..p + |sub|] == sub
  }

  predicate StartsWith(s: string, prefix: string) {
    OccursAt(s, prefix, 0)
  }

  /** `s.indexOf(sub, from)`: the leftmost occurrence of `sub` at or after `from`. */
  function IndexOf(s: string, sub: string, from: nat): (r: Option<nat>)
    decreases |s| - from
    ensures r.Some? ==> from <= r.value && OccursAt(s, sub, r.value)
    ensures r.Some? ==> forall q :: from <= q < r.value ==> !OccursAt(s, sub, q)
    ensures r.None? ==> forall q :: from <= q ==> !OccursAt(s, sub, q)
  {
    if from + |sub| > |s| then None
    else if s[from..from + |sub|] == sub then Some(from)
    else IndexOf(s, sub, from + 1)
  }

  /** `s.includes(sub)`. */
  predicate Contains(s: string, sub: string) {
    IndexOf(s, sub, 0).Some?
  }

  /** `sub` occurs at `p` and nowhere before it. */
  predicate FirstAt(s: string, sub: string, p: nat) {
    OccursAt(s, sub, p) && forall q :: 0 <= q < p ==> !OccursAt(s, sub, q)
  }

  /** `indexOf` finds exactly the first occurrence. */
  lemma FirstAtIndexOf(s: string, sub: string, p: nat)
    ensures FirstAt(s, sub, p) <==> IndexOf(s, sub, 0) == Some(p)
  {
  }

  /** The empty text contains nothing but the empty text. */
  lemma EmptyContainsNothing(sub: string)
    requires sub != []
    ensures !Contains("", sub)
  {
  }

  /** Where `sub` occurs at `p`, each slice of `sub` sits at the matching slice of `s`. */
  lemma OccursSlice(s: string, sub: string, p: nat, i: nat, j: nat)
    requires OccursAt(s, sub, p) && i <= j <= |sub|
    ensures s[p + i..p + j] == sub[i..j]
  {
    forall k | 0 <= k < j - i
      ensures s[p + i..p + j][k] == sub[i..j][k]
    {
      assert s[p..p + |sub|][i + k] == sub[i + k];
    }
  }

  lemma ContainsAt(s: string, sub: string, p: nat)
    requires OccursAt(s, sub, p)
    ensures Contains(s, sub)
  {
  }

  /** `s.replace(pattern, rep)` with a string pattern: only the leftmost occurrence is replaced. */
  function ReplaceFirst(s: string, pattern: string, rep: string): (r: string)
    ensures !Contains(s, pattern) ==> r == s
    ensures Contains(s, pattern) ==>
      var p := IndexOf(s, pattern, 0).value;
      r == s[..p] + rep + s[p + |pattern|..]
  {
    match IndexOf(s, pattern, 0)
    case None => s
    case Some(p) => s[..p] + rep + s[p + |pattern|..]
  }

  /** Replacing a one-character pattern rewrites its first occurrence only. */
  lemma ReplaceFirstChar(a: string, c: char, b: string, rep: string)
    requires c !in a
    ensures ReplaceFirst(a + [c] + b, [c], rep) == a + rep + b
  {
    var v := a + [c] + b;
    assert OccursAt(v, [c], |a|);
    forall q | 0 <= q < |a|
      ensures !OccursAt(v, [c], q)
    {
      assert v[q] == a[q];
    }
    FirstAtIndexOf(v, [c], |a|);
    assert v[..|a|] == a && v[|a| + 1..] == b;
  }

  /** Every `from` replaced by `to`: the result of a global replacement of one character. */
  function ReplaceAll(s: string, from: char, to: char): (r: string)
    ensures |r| == |s|
    ensures forall i :: 0 <= i < |s| ==> r[i] == if s[i] == from then to else s[i]
  {
    if s == [] then []
    else [if s[0] == from then to else s[0]] + ReplaceAll(s[1..], from, to)
  }

  /** `trimStart`: the suffix left after dropping leading white space. */
  function TrimStart(s: string): (r: string)
    ensures |r| <= |s| && r == s[|s| - |r|..]
    ensures AllSpace(s[..|s| - |r|])
    ensures r == [] || !IsSpace(r[0])
  {
    if s != [] && IsSpace(s[0]) then TrimStart(s[1..]) else s
  }

  /** `trimEnd`: the prefix left after dropping trailing white space. */
  function TrimEnd(s: string): (r: string)
    ensures |r| <= |s| && r == s[..|r|]
    ensures AllSpace(s[|r|..])
    ensures r == [] || !IsSpace(r[|r| - 1])
  {
    if s != [] && IsSpace(s[|s| - 1]) then TrimEnd(s[..|s| - 1]) else s
  }

  /** `s` is `m` with white space before it (the first `k` characters) and after it. */
  predicate Surrounds(s: string, k: nat, m: string) {
    k + |m| <= |s| && AllSpace(s[..k]) && s[k..k + |m|] == m && AllSpace(s[k + |m|..])
  }

  /** Neither end of `s` is white space. */
  predicate Trimmed(s: string) {
    s == [] || (!IsSpace(s[0]) && !IsSpace(s[|s| - 1]))
  }

  /** `trim`: what is left between the leading and the trailing white space. */
  function Trim(s: string): (r: string)
    ensures |r| <= |s|
    ensures Trimmed(r)
    ensures exists k :: Surrounds(s, k, r)
  {
    var t := TrimStart(s);
    var r := TrimEnd(t);
    assert s[|s| - |t|..][..|r|] == s[|s| - |t|..|s| - |t| + |r|];
    assert s[|s| - |t|..][|r|..] == s[|s| - |t| + |r|..];
    assert Surrounds(s, |s| - |t|, r);
    r
  }

  lemma {:induction false} TrimStartSkips(a: string, t: string)
    requires AllSpace(a)
    requires t == [] || !IsSpace(t[0])
    ensures TrimStart(a + t) == t
  {
    if a != [] {
      assert (a + t)[1..] == a[1..] + t;
      TrimStartSkips(a[1..], t);
    }
  }

  lemma {:induction false} TrimEndSkips(t: string, b: string)
    requires AllSpace(b)
    requires t == [] || !IsSpace(t[|t| - 1])
    ensures TrimEnd(t + b) == t
  {
    if b != [] {
      assert (t + b)[..|t + b| - 1] == t + b[..|b| - 1];
      TrimEndSkips(t, b[..|b| - 1]);
    } else {
      assert t + b == t;
    }
  }

  /**
   * `trim` characterised: whatever white space surrounds a text whose ends
   * are not white space, trimming gives back exactly that text.
   */
  lemma TrimCore(a: string, m: string, b: string)
    requires AllSpace(a) && AllSpace(b) && Trimmed(m)
    ensures Trim(a + m + b) == m
  {
    if m == [] {
      assert a + m + b == (a + b) + [];
      TrimStartSkips(a + b, []);
    } else {
      assert a + m + b == a + (m + b);
      TrimStartSkips(a, m + b);
      TrimEndSkips(m, b);
    }
  }

  lemma TrimOfTrimmed(m: string)
    requires Trimmed(m)
    ensures Trim(m) == m
  {
    assert [] + m + [] == m;
    TrimCore([], m, []);
  }

  /** The leftmost position of `c` in `s`, if any. */
  function IndexOfChar(s: string, c: char): (r: Option<nat>)
    ensures r.Some? ==> r.value < |s| && s[r.value] == c && c !in s[..r.value]
    ensures r.None? <==> c !in s
  {
    if s == [] then None
    else if s[0] == c then Some(0)
    else match IndexOfChar(s[1..], c)
      case None => None
      case Some(p) => Some(p + 1)
  }

  /** The first position holding `c` is the one `IndexOfChar` finds. */
  lemma {:induction false} IndexOfCharFirst(s: string, c: char, p: nat)
    requires p < |s| && s[p] == c && c !in s[..p]
    ensures IndexOfChar(s, c) == Some(p)
  {
    if p > 0 {
      assert s[0] == s[..p][0];
      assert s[1..][..p - 1] == s[1..p];
      assert c !in s[1..p] by {
        forall k | 1 <= k < p ensures s[k] != c { assert s[k] == s[..p][k]; }
      }
      IndexOfCharFirst(s[1..], c, p - 1);
    }
  }

  /** `s.split(sep)` for a one-character separator: the pieces between separators, in order. */
  function Split(s: string, sep: char): (r: seq<string>)
    decreases |s|
    ensures |r| >= 1
    ensures forall i :: 0 <= i < |r| ==> sep !in r[i]
    ensures r[0] <= s
    ensures |r| == 1 <==> sep !in s
    ensures |r| == 1 ==> r[0] == s
    ensures |r| > 1 ==> s[|r[0]|] == sep
  {
    match IndexOfChar(s, sep)
    case None => [s]
    case Some(p) => [s[..p]] + Split(s[p + 1..], sep)
  }

  /** The first piece is the text before the first separator. */
  lemma SplitFirst(s: string, sep: char, piece: string, more: string)
    requires s == piece + more && sep !in piece
    requires more == [] || more[0] == sep
    ensures Split(s, sep)[0] == piece
  {
    var first := Split(s, sep)[0];
    if more == [] {
      assert sep !in s;
    } else {
      assert s[|piece|] == sep;
      assert first == s[..|first|];
    }
  }

  /** `parts.join(sep)`. */
  function Join(parts: seq<string>, sep: char): string {
    if |parts| <= 1 then (if parts == [] then "" else parts[0])
    else parts[0] + [sep] + Join(parts[1..], sep)
  }

  lemma JoinCons(head: string, rest: seq<string>, sep: char)
    requires |rest| >= 1
    ensures Join([head] + rest, sep) == head + [sep] + Join(rest, sep)
  {
    assert ([head] + rest)[1..] == rest;
  }

  lemma SplitCons(s: string, sep: char, p: nat)
    requires IndexOfChar(s, sep) == Some(p)
    ensures Split(s, sep) == [s[..p]] + Split(s[p + 1..], sep)
  {
  }

  lemma Around(s: string, p: nat)
    requires p < |s|
    ensures s[..p] + [s[p]] + s[p + 1..] == s
  {
  }

  /** Splitting loses nothing: joining the pieces with the separator restores the text. */
  lemma {:induction false} JoinSplit(s: string, sep: char)
    ensures Join(Split(s, sep), sep) == s
    decreases |s|
  {
    if sep in s {
      var p := IndexOfChar(s, sep).value;
      var rest := Split(s[p + 1..], sep);
      SplitCons(s, sep, p);
      JoinCons(s[..p], rest, sep);
      JoinSplit(s[p + 1..], sep);
      Around(s, p);
    }
  }

  /** Length of the longest run of `cls` characters starting at `i` (a greedy `cls+`/`cls*`). */
  function RunLength(s: string, i: nat, cls: char -> bool): (n: nat)
    decreases |s| - i
    ensures n > 0 ==> i + n <= |s|
    ensures forall k :: i <= k < i + n ==> k < |s| && cls(s[k])
    ensures i + n < |s| ==> !cls(s[i + n])
  {
    if i < |s| && cls(s[i]) then 1 + RunLength(s, i + 1, cls) else 0
  }

  /** A run is determined by where it stops: the run of `cls` at `i` has length `n`. */
  lemma RunLengthExact(s: string, i: nat, cls: char -> bool, n: nat)
    requires i + n <= |s|
    requires forall k :: i <= k < i + n ==> cls(s[k])
    requires i + n == |s| || !cls(s[i + n])
    ensures RunLength(s, i, cls) == n
  {
  }

  /**
   * The leftmost match of a regular expression: the first position from
   * `from` on (up to and including `|s|`) at which the matcher `at` succeeds,
   * with what it captured there.
   */
  function Search<T>(s: string, from: nat, at: (string, nat) -> Option<T>): (r: Option<(nat, T)>)
    decreases |s| + 1 - from
    ensures r.Some? ==> from <= r.value.0 <= |s| && at(s, r.value.0) == Some(r.value.1)
    ensures r.Some? ==> forall q :: from <= q < r.value.0 ==> at(s, q).None?
    ensures r.None? ==> forall q :: from <= q <= |s| ==> at(s, q).None?
  {
    if from > |s| then None
    else match at(s, from)
      case Some(v) => Some((from, v))
      case None => Search(s, from + 1, at)
  }

  /** The matcher `at` succeeds at `p` with `v`, and at no earlier position. */
  predicate LeftmostAt<T(==)>(s: string, at: (string, nat) -> Option<T>, p: nat, v: T) {
    p <= |s| && at(s, p) == Some(v) && forall q :: 0 <= q < p ==> at(s, q).None?
  }

  /** `s.match(re)?.[…]`: the captures of the leftmost match, if there is one. */
  function Capture<T(==)>(s: string, at: (string, nat) -> Option<T>): (r: Option<T>)
    ensures r.None? <==> forall p :: 0 <= p <= |s| ==> at(s, p).None?
    ensures r.Some? ==> exists p :: LeftmostAt(s, at, p, r.value)
  {
    match Search(s, 0, at)
    case None => None
    case Some((p, v)) =>
      assert LeftmostAt(s, at, p, v);
      Some(v)
  }

  /** The capture is the one at the first position where the expression matches. */
  lemma CaptureFirst<T>(s: string, at: (string, nat) -> Option<T>, p: nat, v: T)
    requires p <= |s| && at(s, p) == Some(v)
    requires forall q :: 0 <= q < p ==> at(s, q).None?
    ensures Capture(s, at) == Some(v)
  {
  }
}
