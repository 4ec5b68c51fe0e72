/**
 * The string primitives of .NET, JavaScript and Python that the modelled code
 * calls: ordinal search, Substring, Trim, ordinal case folding, split and join,
 * and integer formatting. Strings are sequences of UTF-16 code units (`char`);
 * case folding covers ASCII letters only.
 */
module Text {
  import opened Wrappers

  /** `p` occurs in `s` starting at index `i`. */
  predicate OccursAt(s: string, p: string, i: nat) {
    i + |p| <= |s| && s[i..i + |p|] == p
  }

  predicate StartsWith(s: string, p: string) {
    OccursAt(s, p, 0)
  }

  predicate EndsWith(s: string, p: string) {
    |p| <= |s| && s[|s| - |p|..] == p
  }

  predicate Contains(s: string, p: string) {
    exists i: nat :: i <= |s| && OccursAt(s, p, i)
  }

  /** Ordinal `s.IndexOf(p, from)`: the first occurrence at or after `from`, or -1. */
  function IndexOf(s: string, p: string, from: nat): (r: int)
    requires from <= |s|
    ensures r == -1 || (from <= r <= |s| && OccursAt(s, p, r))
    decreases |s| - from
  {
    if OccursAt(s, p, from) then from
    else if from == |s| then -1
    else IndexOf(s, p, from + 1)
  }

  /** IndexOf skips nothing: no occurrence lies between `from` and its answer. */
  lemma {:induction false} IndexOfFirst(s: string, p: string, from: nat)
    requires from <= |s|
    ensures IndexOf(s, p, from) >= 0 ==> forall i: nat :: from <= i < IndexOf(s, p, from) ==> !OccursAt(s, p, i)
    ensures IndexOf(s, p, from) == -1 ==> forall i: nat :: from <= i ==> !OccursAt(s, p, i)
    decreases |s| - from
  {
    if !OccursAt(s, p, from) && from < |s| {
      IndexOfFirst(s, p, from + 1);
    }
  }

  /** The first occurrence at or after `from` is what IndexOf returns. */
  lemma IndexOfAt(s: string, p: string, from: nat, k: nat)
    requires from <= k <= |s| && OccursAt(s, p, k)
    requires forall i: nat :: from <= i < k ==> !OccursAt(s, p, i)
    ensures IndexOf(s, p, from) == k
  {
    IndexOfFirst(s, p, from);
  }

  /**
   * Searching from the start of `m` finds the `p` that follows `m`, when the
   * first character of `p` does not occur in `m`.
   */
  lemma IndexOfAfter(a: string, m: string, p: string, b: string)
    requires |p| > 0 && p[0] !in m
    ensures IndexOf(a + m + p + b, p, |a|) == |a| + |m|
  {
    var s := a + m + p + b;
    var k := |a| + |m|;
    assert s[k..k + |p|] == p;
    forall i: nat | |a| <= i < k ensures !OccursAt(s, p, i) {
      assert s[i] == m[i - |a|];
      NotAtFirstChar(s, p, i);
    }
    IndexOfAt(s, p, |a|, k);
  }

  /** Searching for a text whose first character never occurs after `from` finds nothing. */
  lemma IndexOfAbsent(a: string, m: string, p: string)
    requires |p| > 0 && p[0] !in m
    ensures IndexOf(a + m, p, |a|) == -1
  {
    var s := a + m;
    forall i: nat | |a| <= i <= |s| ensures !OccursAt(s, p, i) {
      if i < |s| {
        assert s[i] == m[i - |a|];
        NotAtFirstChar(s, p, i);
      }
    }
  }

  /** A position holding anything but the first character of `p` is not an occurrence of `p`. */
  lemma NotAtFirstChar(s: string, p: string, i: nat)
    requires |p| > 0 && i < |s| && s[i] != p[0]
    ensures !OccursAt(s, p, i)
  {
  }

  lemma IndexOfFindsContained(s: string, p: string)
    ensures IndexOf(s, p, 0) >= 0 <==> Contains(s, p)
  {
    IndexOfFirst(s, p, 0);
    if IndexOf(s, p, 0) >= 0 {
      assert OccursAt(s, p, IndexOf(s, p, 0));
    }
  }

  /** `s.LastIndexOf(c)`: the last index holding `c`, or -1. */
  function LastIndexOf(s: string, c: char): (r: int)
    ensures r == -1 <==> forall i :: 0 <= i < |s| ==> s[i] != c
    ensures r >= 0 ==> r < |s| && s[r] == c && forall i :: r < i < |s| ==> s[i] != c
    ensures r >= -1
  {
    if |s| == 0 then -1
    else if s[|s| - 1] == c then |s| - 1
    else LastIndexOf(s[..|s| - 1], c)
  }

  /** `s.Substring(start, length)`, which throws ArgumentOutOfRangeException outside the string. */
  function Substring(s: string, start: int, length: int): (r: Result<string, Error>)
    ensures r.Success? <==> 0 <= start && 0 <= length && start + length <= |s|
    ensures r.Failure? ==> r.error == ArgumentOutOfRange
    ensures r.Success? ==> |r.value| == length && r.value == s[start..start + length]
  {
    if 0 <= start && 0 <= length && start + length <= |s| then Success(s[start..start + length])
    else Failure(ArgumentOutOfRange)
  }

  /** Cutting out a slice that is known to hold `body` gives `body`. */
  lemma SubstringSlice(s: string, start: nat, body: string)
    requires start + |body| <= |s| && s[start..start + |body|] == body
    ensures Substring(s, start, |body|) == Success(body)
  {
  }

  /** .NET `char.IsWhiteSpace`: Unicode Zs/Zl/Zp plus the controls U+0009-U+000D and U+0085. */
  predicate IsDotNetWhiteSpace(c: char) {
    c == ' ' || ('\t' <= c <= '\r') || c == '\U{0085}' || c == '\U{00A0}' || c == '\U{1680}'
    || ('\U{2000}' <= c <= '\U{200A}') || c == '\U{2028}' || c == '\U{2029}'
    || c == '\U{202F}' || c == '\U{205F}' || c == '\U{3000}'
  }

  /** The characters JavaScript's `String.prototype.trim` removes (WhiteSpace and LineTerminator). */
  predicate IsJsWhiteSpace(c: char) {
    c == ' ' || ('\t' <= c <= '\r') || c == '\U{00A0}' || c == '\U{FEFF}' || c == '\U{1680}'
    || ('\U{2000}' <= c <= '\U{200A}') || c == '\U{2028}' || c == '\U{2029}'
    || c == '\U{202F}' || c == '\U{205F}' || c == '\U{3000}'
  }

  predicate AllWhiteSpace(s: string, ws: char -> bool) {
    forall i :: 0 <= i < |s| ==> ws(s[i])
  }

  /** Neither end of `s` is white space. */
  predicate IsTrimmed(s: string, ws: char -> bool) {
    |s| == 0 || (!ws(s[0]) && !ws(s[|s| - 1]))
  }

  function TrimStart(s: string, ws: char -> bool): (r: string)
    ensures |r| <= |s| && r == s[|s| - |r|..]
    ensures AllWhiteSpace(s[..|s| - |r|], ws)
    ensures |r| == 0 || !ws(r[0])
  {
    if |s| > 0 && ws(s[0]) then TrimStart(s[1..], ws) else s
  }

  function TrimEnd(s: string, ws: char -> bool): (r: string)
    ensures |r| <= |s| && r == s[..|r|]
    ensures AllWhiteSpace(s[|r|..], ws)
    ensures |r| == 0 || !ws(r[|r| - 1])
  {
    if |s| > 0 && ws(s[|s| - 1]) then TrimEnd(s[..|s| - 1], ws) else s
  }

  /** `s.Trim()` / `s.trim()` for the white-space class `ws`. */
  function Trim(s: string, ws: char -> bool): (r: string)
    ensures IsTrimmed(r, ws)
    ensures |r| <= |s|
  {
    TrimEnd(TrimStart(s, ws), ws)
  }

  /** Trimming white-space padding off an already trimmed text gives that text back. */
  lemma {:induction false} TrimPadded(pad: string, t: string, ws: char -> bool)
    requires AllWhiteSpace(pad, ws) && IsTrimmed(t, ws)
    ensures Trim(pad + t, ws) == t
  {
    TrimStartPadded(pad, t, ws);
    if |t| > 0 {
      assert TrimEnd(t, ws) == t;
    }
  }

  lemma {:induction false} TrimStartPadded(pad: string, t: string, ws: char -> bool)
    requires AllWhiteSpace(pad, ws) && (|t| == 0 || !ws(t[0]))
    ensures TrimStart(pad + t, ws) == t
    decreases |pad|
  {
    if |pad| > 0 {
      assert (pad + t)[1..] == pad[1..] + t;
      TrimStartPadded(pad[1..], t, ws);
    } else {
      assert pad + t == t;
    }
  }

  lemma {:induction false} TrimEndPadded(t: string, pad: string, ws: char -> bool)
    requires AllWhiteSpace(pad, ws) && (|t| == 0 || !ws(t[|t| - 1]))
    ensures TrimEnd(t + pad, ws) == t
    decreases |pad|
  {
    if |pad| > 0 {
      assert (t + pad)[..|t + pad| - 1] == t + pad[..|pad| - 1];
      TrimEndPadded(t, pad[..|pad| - 1], ws);
    } else {
      assert t + pad == t;
      if |t| > 0 {
        assert TrimEnd(t, ws) == t;
      }
    }
  }

  /** Trimming white space from both sides of a trimmed text gives that text back. */
  lemma TrimAround(before: string, t: string, after: string, ws: char -> bool)
    requires AllWhiteSpace(before, ws) && IsTrimmed(t, ws) && AllWhiteSpace(after, ws)
    ensures Trim(before + t + after, ws) == t
  {
    assert before + t + after == before + (t + after);
    if |t| > 0 {
      TrimStartPadded(before, t + after, ws);
      TrimEndPadded(t, after, ws);
    } else {
      assert before + t + after == before + after;
      assert TrimEnd("", ws) == "";
    }
  }

  /** .NET `string.IsNullOrWhiteSpace`. */
  predicate IsNullOrWhiteSpace(s: Option<string>) {
    s.None? || AllWhiteSpace(s.value, IsDotNetWhiteSpace)
  }

  function LowerChar(c: char): char {
    if 'A' <= c <= 'Z' then (c as int + 32) as char else c
  }

  function UpperChar(c: char): char {
    if 'a' <= c <= 'z' then (c as int - 32) as char else c
  }

  /** Lower-casing, as Python's `str.lower` does on ASCII text. */
  function Lower(s: string): (r: string)
    ensures |r| == |s|
  {
    seq(|s|, i requires 0 <= i < |s| => LowerChar(s[i]))
  }

  /** Ordinal case-insensitive equality (`StringComparison.OrdinalIgnoreCase`), ASCII mapping. */
  predicate EqualsIgnoreCase(a: string, b: string) {
    |a| == |b| && forall i :: 0 <= i < |a| ==> UpperChar(a[i]) == UpperChar(b[i])
  }

  predicate MatchesIgnoreCaseAt(s: string, p: string, i: nat) {
    i + |p| <= |s| && EqualsIgnoreCase(s[i..i + |p|], p)
  }

  /** `s.Contains(p, StringComparison.OrdinalIgnoreCase)`. */
  predicate ContainsIgnoreCase(s: string, p: string) {
    exists i: nat :: i <= |s| && MatchesIgnoreCaseAt(s, p, i)
  }

  lemma CaseFoldAgrees(a: char, b: char)
    ensures UpperChar(a) == UpperChar(b) <==> LowerChar(a) == LowerChar(b)
  {
  }

  lemma MatchAtAgrees(s: string, p: string, i: nat)
    requires Lower(p) == p && i + |p| <= |s|
    ensures OccursAt(Lower(s), p, i) <==> MatchesIgnoreCaseAt(s, p, i)
  {
    forall k | 0 <= k < |p|
      ensures (Lower(s)[i + k] == p[k]) <==> (UpperChar(s[i + k]) == UpperChar(p[k]))
    {
      assert LowerChar(p[k]) == p[k] by { assert Lower(p)[k] == p[k]; }
      CaseFoldAgrees(s[i + k], p[k]);
    }
    if OccursAt(Lower(s), p, i) {
      forall k | 0 <= k < |p| ensures UpperChar(s[i..i + |p|][k]) == UpperChar(p[k]) {
        assert Lower(s)[i..i + |p|][k] == Lower(s)[i + k];
      }
    }
    if MatchesIgnoreCaseAt(s, p, i) {
      forall k | 0 <= k < |p| ensures Lower(s)[i..i + |p|][k] == p[k] {
        assert s[i..i + |p|][k] == s[i + k];
      }
    }
  }

  /**
   * Searching the lower-cased text for a lower-case needle finds exactly what an
   * ordinal case-insensitive search finds.
   */
  lemma ContainsLowerIffIgnoreCase(s: string, p: string)
    requires Lower(p) == p
    ensures Contains(Lower(s), p) <==> ContainsIgnoreCase(s, p)
  {
    if Contains(Lower(s), p) {
      var i: nat :| i <= |s| && OccursAt(Lower(s), p, i);
      MatchAtAgrees(s, p, i);
    }
    if ContainsIgnoreCase(s, p) {
      var i: nat :| i <= |s| && MatchesIgnoreCaseAt(s, p, i);
      MatchAtAgrees(s, p, i);
    }
  }

  /** Concatenation regrouped, for proofs that build a sequence piece by piece. */
  lemma Associative<T>(a: seq<T>, b: seq<T>, c: seq<T>)
    ensures a + (b + c) == (a + b) + c
  {
  }

  /** A text occurs in any text built around it. */
  lemma ContainsMiddle(a: string, b: string, c: string)
    ensures Contains(a + b + c, b)
  {
    assert (a + b + c)[|a|..|a| + |b|] == b;
    assert OccursAt(a + b + c, b, |a|);
  }

  /** A text in which the first character of `p` never appears does not contain `p`. */
  lemma NoFirstChar(s: string, p: string)
    requires |p| > 0 && p[0] !in s
    ensures !Contains(s, p)
  {
    forall i: nat | i <= |s| ensures !OccursAt(s, p, i) {
      if i < |s| {
        assert s[i] != p[0];
      }
    }
  }

  /** `parts.join(sep)` / `string.Join(sep, parts)`. */
  function Join(parts: seq<string>, sep: string): string {
    if |parts| == 0 then ""
    else if |parts| == 1 then parts[0]
    else parts[0] + sep + Join(parts[1..], sep)
  }

  /** Every joined part occurs in the joined text. */
  lemma {:induction false} JoinContains(parts: seq<string>, sep: string, k: nat)
    requires k < |parts|
    ensures Contains(Join(parts, sep), parts[k])
    decreases |parts|
  {
    if |parts| == 1 {
      ContainsMiddle("", parts[0], "");
      assert "" + parts[0] + "" == parts[0];
    } else if k == 0 {
      ContainsMiddle("", parts[0], sep + Join(parts[1..], sep));
      assert "" + parts[0] + (sep + Join(parts[1..], sep)) == Join(parts, sep);
    } else {
      JoinContains(parts[1..], sep, k - 1);
      var rest := Join(parts[1..], sep);
      var i: nat :| i <= |rest| && OccursAt(rest, parts[k], i);
      var j := |parts[0] + sep| + i;
      assert Join(parts, sep) == parts[0] + sep + rest;
      assert Join(parts, sep)[j..j + |parts[k]|] == rest[i..i + |parts[k]|];
      assert OccursAt(Join(parts, sep), parts[k], j);
    }
  }

  /** JavaScript `s.split(sep)` for a one-character separator; never empty. */
  function Split(s: string, sep: char): (r: seq<string>)
    ensures |r| >= 1
    decreases |s|
  {
    var k := IndexOf(s, [sep], 0);
    if k < 0 then [s] else [s[..k]] + Split(s[k + 1..], sep)
  }

  /** No piece of a split contains the separator. */
  lemma {:induction false} SplitPiecesFree(s: string, sep: char)
    ensures forall k :: 0 <= k < |Split(s, sep)| ==> sep !in Split(s, sep)[k]
    decreases |s|
  {
    FirstSeparator(s, sep);
    var k := IndexOf(s, [sep], 0);
    if k >= 0 {
      SplitPiecesFree(s[k + 1..], sep);
    }
  }

  /** Joining the pieces with the separator gives the string back. */
  lemma {:induction false} SplitJoin(s: string, sep: char)
    ensures Join(Split(s, sep), [sep]) == s
    decreases |s|
  {
    FirstSeparator(s, sep);
    var k := IndexOf(s, [sep], 0);
    if k >= 0 {
      SplitJoin(s[k + 1..], sep);
      var rest := Split(s[k + 1..], sep);
      assert ([s[..k]] + rest)[1..] == rest;
      assert s == s[..k] + [sep] + s[k + 1..];
    }
  }

  /** The first separator found by IndexOf. */
  lemma FirstSeparator(s: string, sep: char)
    ensures IndexOf(s, [sep], 0) < 0 <==> sep !in s
    ensures IndexOf(s, [sep], 0) >= 0 ==> IndexOf(s, [sep], 0) < |s| && s[IndexOf(s, [sep], 0)] == sep
    ensures IndexOf(s, [sep], 0) >= 0 ==> sep !in s[..IndexOf(s, [sep], 0)]
  {
    var k := IndexOf(s, [sep], 0);
    IndexOfFirst(s, [sep], 0);
    if k >= 0 {
      assert OccursAt(s, [sep], k);
      assert s[k..k + 1] == [sep];
      assert s[k] == sep;
      forall j | 0 <= j < k ensures s[..k][j] != sep {
        assert !OccursAt(s, [sep], j);
        assert s[j..j + 1] == [s[j]];
      }
    } else {
      forall i | 0 <= i < |s| ensures s[i] != sep {
        assert !OccursAt(s, [sep], i);
        assert s[i..i + 1] == [s[i]];
      }
    }
  }

  /** The first piece ends at the first separator. */
  lemma SplitAtFirst(a: string, b: string, sep: char)
    requires sep !in a
    ensures Split(a + [sep] + b, sep) == [a] + Split(b, sep)
  {
    var s := a + [sep] + b;
    FirstSeparator(s, sep);
    var k := IndexOf(s, [sep], 0);
    assert s[|a|] == sep;
    assert s[..|a|] == a;
    assert s[|a| + 1..] == b;
  }

  lemma SplitNoSeparator(a: string, sep: char)
    requires sep !in a
    ensures Split(a, sep) == [a]
  {
    FirstSeparator(a, sep);
  }

  /**
   * Splitting a concatenation: the complete pieces of `x` come first, and the
   * unterminated last piece of `x` continues into `y`.
   */
  lemma {:induction false} SplitAppend(x: string, y: string, sep: char)
    ensures var sx := Split(x, sep);
            Split(x + y, sep) == sx[..|sx| - 1] + Split(sx[|sx| - 1] + y, sep)
    decreases |x|
  {
    FirstSeparator(x, sep);
    var k := IndexOf(x, [sep], 0);
    if k >= 0 {
      SplitAppendAt(x, y, sep, k);
    } else {
      SplitNoSeparator(x, sep);
    }
  }

  lemma {:induction false} SplitAppendAt(x: string, y: string, sep: char, k: nat)
    requires k < |x| && x[k] == sep && sep !in x[..k]
    ensures var sx := Split(x, sep);
            Split(x + y, sep) == sx[..|sx| - 1] + Split(sx[|sx| - 1] + y, sep)
    decreases |x|, 0
  {
    var a, b := x[..k], x[k + 1..];
    assert x == a + [sep] + b;
    assert x + y == a + [sep] + (b + y);
    SplitAtFirst(a, b, sep);
    SplitAtFirst(a, b + y, sep);
    SplitAppend(b, y, sep);
    var sb := Split(b, sep);
    var sx := Split(x, sep);
    var tail := sb[|sb| - 1];
    assert sx == [a] + sb;
    assert sx[|sx| - 1] == tail;
    calc {
      Split(x + y, sep);
      [a] + Split(b + y, sep);
      [a] + (sb[..|sb| - 1] + Split(tail + y, sep));
      ([a] + sb[..|sb| - 1]) + Split(tail + y, sep);
      { assert sx[..|sx| - 1] == [a] + sb[..|sb| - 1]; }
      sx[..|sx| - 1] + Split(tail + y, sep);
    }
  }

  /** Enumerable.Take / Python slicing `[:n]`. */
  function Take<T>(s: seq<T>, n: nat): (r: seq<T>)
    ensures |r| == if |s| <= n then |s| else n
    ensures r == s[..|r|]
  {
    if |s| <= n then s else s[..n]
  }

  function DigitChar(d: nat): char
    requires d < 10
  {
    "0123456789"[d]
  }

  function NatToString(n: nat): (r: string)
    ensures |r| >= 1
    ensures forall i :: 0 <= i < |r| ==> '0' <= r[i] <= '9'
  {
    if n < 10 then [DigitChar(n)] else NatToString(n / 10) + [DigitChar(n % 10)]
  }

  /** `int.ToString()` in the invariant culture: decimal digits, '-' for negatives. */
  function IntToString(n: int): string {
    if n < 0 then "-" + NatToString(-n) else NatToString(n)
  }

  // ----- Line-oriented text ----------------------------------------------------

  /** `Environment.NewLine` on the Linux hosts the services run on. */
  const NewLine: string := "\n"

  /** The lines `ls`, each followed by a line break. */
  function Render(ls: seq<string>): string {
    if |ls| == 0 then "" else Render(ls[..|ls| - 1]) + ls[|ls| - 1] + NewLine
  }

  /** The lines `f(x)` of every `x` in `xs`, in order: what a `foreach` appending lines writes. */
  function ConcatMap<T, L>(xs: seq<T>, f: T -> seq<L>): seq<L> {
    if |xs| == 0 then [] else ConcatMap(xs[..|xs| - 1], f) + f(xs[|xs| - 1])
  }

  /**
   * When every element writes `m` lines, element `k` owns lines
   * `m * k` to `m * k + m - 1`.
   */
  lemma {:induction false} ConcatMapAt<T, L>(xs: seq<T>, f: T -> seq<L>, m: nat, k: nat, j: nat)
    requires forall x :: |f(x)| == m
    requires k < |xs| && j < m
    ensures |ConcatMap(xs, f)| == m * |xs|
    ensures m * k + j < |ConcatMap(xs, f)| && ConcatMap(xs, f)[m * k + j] == f(xs[k])[j]
    decreases |xs|
  {
    var n := |xs| - 1;
    var front := xs[..n];
    ConcatMapLength(xs, f, m);
    ConcatMapLength(front, f, m);
    if k < n {
      ConcatMapAt(front, f, m, k, j);
      assert front[k] == xs[k];
    } else {
      assert m * k + j == m * n + j;
    }
  }

  /** One more element writes its lines after the earlier ones. */
  lemma ConcatMapSnoc<T, L>(xs: seq<T>, i: nat, f: T -> seq<L>)
    requires i < |xs|
    ensures ConcatMap(xs[..i + 1], f) == ConcatMap(xs[..i], f) + f(xs[i])
  {
    assert xs[..i + 1][..i] == xs[..i];
  }

  /** Every line written comes from one of the elements. */
  lemma {:induction false} ConcatMapMember<T, L>(xs: seq<T>, f: T -> seq<L>, l: L)
    requires l in ConcatMap(xs, f)
    ensures exists x :: x in xs && l in f(x)
    decreases |xs|
  {
    var front := xs[..|xs| - 1];
    if l in ConcatMap(front, f) {
      ConcatMapMember(front, f, l);
      var x :| x in front && l in f(x);
      assert x in xs;
    } else {
      assert xs[|xs| - 1] in xs;
    }
  }

  lemma {:induction false} ConcatMapLength<T, L>(xs: seq<T>, f: T -> seq<L>, m: nat)
    requires forall x :: |f(x)| == m
    ensures |ConcatMap(xs, f)| == m * |xs|
    decreases |xs|
  {
    if |xs| > 0 {
      ConcatMapLength(xs[..|xs| - 1], f, m);
    }
  }

  /**
   * `System.Text.StringBuilder` as used here: only `AppendLine` and
   * `ToString`, so its text is determined by the lines appended so far.
   */
  class StringBuilder {
    var lines: seq<string>

    constructor ()
      ensures lines == []
    {
      lines := [];
    }

    /** `AppendLine(s)`; `AppendLine()` is `AppendLine("")`. */
    method AppendLine(s: string)
      modifies this
      ensures lines == old(lines) + [s]
    {
      lines := lines + [s];
    }

    function ToString(): string
      reads this
    {
      Render(lines)
    }
  }
}
