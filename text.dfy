/** The .NET string operations the process-identity code relies on, as ordinal functions on
    `seq<char>`: `Char.IsWhiteSpace`, `Trim`, `IsNullOrWhiteSpace`, `IndexOf`, `Split` and `Join`. */
module Text {
  import opened Wrappers

  /** `Char.IsWhiteSpace`: the Unicode space separators, line and paragraph separators,
      U+0009..U+000D, U+0085 and U+00A0. */
  predicate IsWhiteSpace(c: char) {
    c == ' ' || ('\t' <= c <= '\r') || c == '\U{85}' || c == '\U{A0}' || c == '\U{1680}'
    || ('\U{2000}' <= c <= '\U{200A}') || c == '\U{2028}' || c == '\U{2029}' || c == '\U{202F}'
    || c == '\U{205F}' || c == '\U{3000}'
  }

  predicate AllWhiteSpace(s: string) {
    forall i :: 0 <= i < |s| ==> IsWhiteSpace(s[i])
  }

  /** `string.IsNullOrWhiteSpace`. */
  predicate IsNullOrWhiteSpace(s: Option<string>) {
    s.None? || AllWhiteSpace(s.value)
  }

  /** `TrimStart()`: drops the leading white space. */
  function TrimStart(s: string): (r: string)
    ensures |r| <= |s| && r == s[|s| - |r|..]
    ensures AllWhiteSpace(s[..|s| - |r|])
    ensures r == [] || !IsWhiteSpace(r[0])
  {
    if |s| > 0 && IsWhiteSpace(s[0]) then
      var tail := s[1..];
      var r := TrimStart(tail);
      assert tail[|tail| - |r|..] == s[|s| - |r|..];
      assert s[..|s| - |r|] == [s[0]] + tail[..|tail| - |r|];
      r
    else s
  }

  /** `TrimEnd()`: drops the trailing white space. */
  function TrimEnd(s: string): (r: string)
    ensures |r| <= |s| && r == s[..|r|]
    ensures AllWhiteSpace(s[|r|..])
    ensures r == [] || !IsWhiteSpace(r[|r| - 1])
  {
    if |s| > 0 && IsWhiteSpace(s[|s| - 1]) then
      var init := s[..|s| - 1];
      var r := TrimEnd(init);
      assert init[..|r|] == s[..|r|];
      assert s[|r|..] == init[|r|..] + [s[|s| - 1]];
      r
    else s
  }

  /** `Trim()`: drops white space at both ends. */
  function Trim(s: string): string {
    TrimEnd(TrimStart(s))
  }

  /** `r` is the slice of `s` starting at `k`, everything cut off around it is white space, and
      neither of its ends is. */
  predicate TrimmedSliceAt(s: string, r: string, k: int) {
    && 0 <= k <= |s| - |r| && r == s[k..k + |r|]
    && AllWhiteSpace(s[..k]) && AllWhiteSpace(s[k + |r|..])
    && (r == [] || (!IsWhiteSpace(r[0]) && !IsWhiteSpace(r[|r| - 1])))
  }

  /** Trimming keeps a contiguous slice of the input whose two ends are not white space, and
      everything cut off is white space. */
  lemma TrimIsSlice(s: string)
    ensures exists k :: TrimmedSliceAt(s, Trim(s), k)
  {
    var t := TrimStart(s);
    var r := TrimEnd(t);
    var k := |s| - |t|;
    assert t == s[k..];
    assert r == t[..|r|];
    assert r == s[k..k + |r|];
    assert s[k + |r|..] == t[|r|..];
    assert Trim(s) == r;
    assert r == [] || !IsWhiteSpace(r[0]) by {
      if r != [] {
        assert r[0] == t[0];
      }
    }
    assert TrimmedSliceAt(s, r, k);
  }

  /** A string that neither begins nor ends with white space keeps its front under `Trim`:
      only the tail is trimmed. */
  lemma {:induction false} TrimKeepsSolidPrefix(p: string, q: string)
    requires |p| > 0 && !IsWhiteSpace(p[0]) && !IsWhiteSpace(p[|p| - 1])
    ensures Trim(p + q) == p + TrimEnd(q)
  {
    assert TrimStart(p + q) == p + q;
    TrimEndKeepsSolidPrefix(p, q);
  }

  lemma {:induction false} TrimEndKeepsSolidPrefix(p: string, q: string)
    requires |p| > 0 && !IsWhiteSpace(p[|p| - 1])
    ensures TrimEnd(p + q) == p + TrimEnd(q)
    decreases |q|
  {
    if |q| == 0 {
      assert p + q == p;
    } else if IsWhiteSpace(q[|q| - 1]) {
      assert (p + q)[..|p + q| - 1] == p + q[..|q| - 1];
      TrimEndKeepsSolidPrefix(p, q[..|q| - 1]);
    } else {
      assert (p + q)[|p + q| - 1] == q[|q| - 1];
    }
  }

  lemma TrimEndOfWhiteSpace(q: string)
    requires AllWhiteSpace(q)
    ensures TrimEnd(q) == []
  {
  }

  /** `sub` occurs in `s` starting at index `i`. */
  predicate OccursAt(s: string, sub: string, i: int) {
    0 <= i && i + |sub| <= |s| && s[i..i + |sub|] == sub
  }

  /** Ordinal `s.IndexOf(sub, from)`: the first index at or after `from` where `sub` occurs,
      or -1. An empty `sub` is found at `from`. */
  function IndexOf(s: string, sub: string, from: nat): (r: int)
    requires from <= |s|
    ensures r == -1 || (from <= r <= |s| && OccursAt(s, sub, r))
    ensures forall i :: from <= i && (r == -1 || i < r) ==> !OccursAt(s, sub, i)
    decreases |s| - from
  {
    if OccursAt(s, sub, from) then from
    else if from == |s| then -1
    else IndexOf(s, sub, from + 1)
  }

  lemma IndexOfFirst(s: string, sub: string, from: nat, k: nat)
    requires from <= k <= |s| && OccursAt(s, sub, k)
    requires forall i :: from <= i < k ==> !OccursAt(s, sub, i)
    ensures IndexOf(s, sub, from) == k
  {
  }

  /** `s.Split(sep)`: the pieces between separators, empty ones included. */
  function SplitOn(s: string, sep: char): (parts: seq<string>)
    ensures |parts| >= 1
    ensures forall i :: 0 <= i < |parts| ==> sep !in parts[i]
  {
    if |s| == 0 then [[]]
    else
      var rest := SplitOn(s[1..], sep);
      if s[0] == sep then [[]] + rest
      else [[s[0]] + rest[0]] + rest[1..]
  }

  /** The `StringSplitOptions.RemoveEmptyEntries` filter. */
  function RemoveEmpty(parts: seq<string>): (r: seq<string>)
    ensures forall i :: 0 <= i < |r| ==> r[i] != [] && r[i] in parts
    ensures (forall i :: 0 <= i < |parts| ==> parts[i] != []) ==> r == parts
  {
    if |parts| == 0 then []
    else if parts[0] == [] then RemoveEmpty(parts[1..])
    else [parts[0]] + RemoveEmpty(parts[1..])
  }

  /** `string.Join(sep, parts)`. */
  function JoinWith(sep: string, parts: seq<string>): string {
    if |parts| == 0 then []
    else if |parts| == 1 then parts[0]
    else parts[0] + sep + JoinWith(sep, parts[1..])
  }

  /** Splitting `a + sep + t` where `a` holds no separator yields `a` and then the pieces of `t`. */
  lemma {:induction false} SplitOnAfterPiece(a: string, t: string, sep: char)
    requires sep !in a
    ensures SplitOn(a + [sep] + t, sep) == [a] + SplitOn(t, sep)
    decreases |a|
  {
    if |a| == 0 {
      assert a + [sep] + t == [sep] + t;
      assert ([sep] + t)[1..] == t;
    } else {
      assert (a + [sep] + t)[1..] == a[1..] + [sep] + t;
      SplitOnAfterPiece(a[1..], t, sep);
      assert [a[0]] + a[1..] == a;
    }
  }

  lemma {:induction false} SplitOnWithout(a: string, sep: char)
    requires sep !in a
    ensures SplitOn(a, sep) == [a]
    decreases |a|
  {
    if |a| > 0 {
      SplitOnWithout(a[1..], sep);
      assert [a[0]] + a[1..] == a;
    }
  }

  /** Split undoes Join: pieces free of the separator come back exactly. */
  lemma {:induction false} SplitJoin(parts: seq<string>, sep: char)
    requires |parts| >= 1
    requires forall i :: 0 <= i < |parts| ==> sep !in parts[i]
    ensures SplitOn(JoinWith([sep], parts), sep) == parts
    decreases |parts|
  {
    if |parts| == 1 {
      SplitOnWithout(parts[0], sep);
    } else {
      SplitJoin(parts[1..], sep);
      SplitOnAfterPiece(parts[0], JoinWith([sep], parts[1..]), sep);
      assert [parts[0]] + parts[1..] == parts;
    }
  }

  lemma {:induction false} JoinWithSnoc(sep: string, parts: seq<string>, x: string)
    requires |parts| >= 1
    ensures JoinWith(sep, parts + [x]) == JoinWith(sep, parts) + sep + x
    decreases |parts|
  {
    if |parts| == 1 {
      assert parts + [x] == [parts[0], x];
    } else {
      assert (parts + [x])[1..] == parts[1..] + [x];
      JoinWithSnoc(sep, parts[1..], x);
    }
  }

  /** A string holds no character from `cs`. */
  predicate NoneOf(s: string, cs: set<char>) {
    forall i :: 0 <= i < |s| ==> s[i] !in cs
  }

  /** `s.Contains(sub)`, ordinal. */
  predicate Contains(s: string, sub: string) {
    exists i :: 0 <= i <= |s| - |sub| && OccursAt(s, sub, i)
  }
}
