/** What the two backup records share: their enum-typed fields, the values they feed to
    `System.HashCode`, and the ordinal string order `ManualBackup` sorts its scope by. */
module BackupTypes {
  import opened Wrappers
  import opened TimeSpans

  /** `BackupRuleId`, `BackupMode` and `Compression` compare by their underlying value; their
      definitions are not part of this model. */
  datatype BackupRuleId = BackupRuleId(value: string)
  datatype BackupMode = BackupMode(value: int)
  datatype Compression = Compression(value: int)

  /** One `hashCode.Add(...)` argument, boxed by its declared type; `None` is a null. */
  datatype HashItem =
    | HId(id: BackupRuleId)
    | HText(text: Option<string>)
    | HMode(mode: Option<BackupMode>)
    | HCompression(compression: Option<Compression>)
    | HCount(count: Option<int>)
    | HAge(age: Option<TimeSpan>)

  /** The items fed for a sequence of scope entries, in order. */
  function TextItems(s: seq<string>): (r: seq<HashItem>)
    ensures |r| == |s|
    ensures forall i :: 0 <= i < |s| ==> r[i] == HText(Some(s[i]))
  {
    if |s| == 0 then [] else [HText(Some(s[0]))] + TextItems(s[1..])
  }

  /** Two scopes feed the same items exactly when they are the same sequence. */
  lemma TextItemsInjective(s: seq<string>, t: seq<string>)
    ensures TextItems(s) == TextItems(t) <==> s == t
  {
    if TextItems(s) == TextItems(t) {
      forall i | 0 <= i < |s|
        ensures s[i] == t[i]
      {
        assert TextItems(s)[i] == TextItems(t)[i];
      }
    }
  }

  /** `StringComparer.Ordinal`: lexicographic by character, a proper prefix first. */
  predicate OrdinalLess(a: string, b: string)
    decreases |a|
  {
    if |a| == 0 then |b| > 0
    else if |b| == 0 then false
    else if a[0] != b[0] then a[0] < b[0]
    else OrdinalLess(a[1..], b[1..])
  }

  lemma {:induction false} OrdinalIrreflexive(a: string)
    ensures !OrdinalLess(a, a)
    decreases |a|
  {
    if |a| > 0 {
      OrdinalIrreflexive(a[1..]);
    }
  }

  lemma {:induction false} OrdinalTransitive(a: string, b: string, c: string)
    requires OrdinalLess(a, b) && OrdinalLess(b, c)
    ensures OrdinalLess(a, c)
    decreases |a|
  {
    if |a| > 0 && a[0] == b[0] && b[0] == c[0] {
      OrdinalTransitive(a[1..], b[1..], c[1..]);
    }
  }

  lemma {:induction false} OrdinalTotal(a: string, b: string)
    ensures a == b || OrdinalLess(a, b) || OrdinalLess(b, a)
    decreases |a|
  {
    if |a| > 0 && |b| > 0 && a[0] == b[0] {
      OrdinalTotal(a[1..], b[1..]);
      if a[1..] == b[1..] {
        assert a == [a[0]] + a[1..] && b == [b[0]] + b[1..];
      }
    }
  }

  lemma {:induction false} OrdinalAsymmetric(a: string, b: string)
    ensures !(OrdinalLess(a, b) && OrdinalLess(b, a))
  {
    if OrdinalLess(a, b) && OrdinalLess(b, a) {
      OrdinalTransitive(a, b, a);
      OrdinalIrreflexive(a);
    }
  }

  predicate Distinct(s: seq<string>) {
    forall i, j :: 0 <= i < j < |s| ==> s[i] != s[j]
  }

  predicate StrictlySorted(s: seq<string>) {
    forall i, j :: 0 <= i < j < |s| ==> OrdinalLess(s[i], s[j])
  }

  /** Inserts `x` into a strictly sorted sequence that lacks it. */
  function Insert(x: string, s: seq<string>): (r: seq<string>)
    requires StrictlySorted(s) && x !in s
    ensures StrictlySorted(r)
    ensures multiset(r) == multiset(s) + multiset{x}
  {
    if |s| == 0 then [x]
    else if OrdinalLess(s[0], x) then
      var rest := Insert(x, s[1..]);
      assert s == [s[0]] + s[1..];
      forall k | 0 <= k < |rest|
        ensures OrdinalLess(s[0], rest[k])
      {
        assert rest[k] in multiset(rest);
        if rest[k] != x {
          assert rest[k] in multiset(s[1..]);
          var j :| 0 <= j < |s[1..]| && s[1..][j] == rest[k];
          assert s[j + 1] == rest[k];
        }
      }
      [s[0]] + rest
    else
      OrdinalTotal(x, s[0]);
      forall j | 0 <= j < |s|
        ensures OrdinalLess(x, s[j])
      {
        if j > 0 {
          OrdinalTransitive(x, s[0], s[j]);
        }
      }
      [x] + s
  }

  /** `Scope.OrderBy(s => s, StringComparer.Ordinal)` of a scope whose entries are distinct, as
      the entries of a set are. */
  function SortOrdinal(items: seq<string>): (r: seq<string>)
    requires Distinct(items)
    ensures StrictlySorted(r)
    ensures multiset(r) == multiset(items)
  {
    if |items| == 0 then []
    else
      var rest := SortOrdinal(items[1..]);
      assert items == [items[0]] + items[1..];
      assert items[0] !in multiset(items[1..]);
      Insert(items[0], rest)
  }

  /** A set has one strictly sorted enumeration: two strictly sorted sequences holding the same
      strings are equal. */
  lemma {:induction false} SortedUnique(s: seq<string>, t: seq<string>)
    requires StrictlySorted(s) && StrictlySorted(t)
    requires forall x :: x in s <==> x in t
    ensures s == t
    decreases |s|
  {
    if |s| > 0 || |t| > 0 {
      assert |s| > 0 ==> s[0] in t;
      assert |t| > 0 ==> t[0] in s;
      assert |s| > 0 && |t| > 0;
      var i :| 0 <= i < |s| && s[i] == t[0];
      var j :| 0 <= j < |t| && t[j] == s[0];
      assert i == 0 || OrdinalLess(s[0], t[0]);
      assert j == 0 || OrdinalLess(t[0], s[0]);
      OrdinalAsymmetric(s[0], t[0]);
      assert s[0] == t[0];
      forall x
        ensures x in s[1..] <==> x in t[1..]
      {
        if x in s[1..] {
          var i :| 1 <= i < |s| && s[i] == x;
          OrdinalIrreflexive(x);
          assert x != t[0];
          assert x in t;
        }
        if x in t[1..] {
          var j :| 1 <= j < |t| && t[j] == x;
          OrdinalIrreflexive(x);
          assert x != s[0];
          assert x in s;
        }
      }
      SortedUnique(s[1..], t[1..]);
      assert s == [s[0]] + s[1..] && t == [t[0]] + t[1..];
    }
  }

  /** Sorting depends only on which strings a scope holds, not on its enumeration order. */
  lemma SortOrdinalOfSameSet(items: seq<string>, others: seq<string>)
    requires Distinct(items) && Distinct(others)
    requires forall x :: x in items <==> x in others
    ensures SortOrdinal(items) == SortOrdinal(others)
  {
    var s, t := SortOrdinal(items), SortOrdinal(others);
    forall x
      ensures x in s <==> x in t
    {
      assert x in s <==> x in multiset(s);
      assert x in t <==> x in multiset(t);
      assert x in items <==> x in multiset(items);
      assert x in others <==> x in multiset(others);
    }
    SortedUnique(s, t);
  }
}
