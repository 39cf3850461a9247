/** `Contracts.Backup.ManualBackup`: the settings of a one-off backup, whose scope is a set object
    compared by its contents. */
module ManualBackups {
  import opened Wrappers
  import opened BackupTypes

  /** An `IReadOnlySet<string>` object: an identity of its own, and its entries in enumeration
      order, each once. */
  class ScopeSet {
    const items: seq<string>

    constructor(items: seq<string>)
      requires Distinct(items)
      ensures this.items == items
    {
      this.items := items;
    }
  }

  datatype ManualBackup = ManualBackup(
    folder: Option<string>,
    mode: Option<BackupMode>,
    compression: Option<Compression>,
    scope: Option<ScopeSet>,
    namePostfix: Option<string>)

  /** A scope whose entries are distinct, as any set's are. */
  predicate WellFormed(backup: ManualBackup) {
    backup.scope.Some? ==> Distinct(backup.scope.value.items)
  }

  /** `a.SetEquals(b)`: the two sets hold the same strings, whatever their order. */
  predicate SameEntries(a: ScopeSet, b: ScopeSet) {
    (forall x :: x in a.items ==> x in b.items) && (forall x :: x in b.items ==> x in a.items)
  }

  /** The scalar half of `Equals`. */
  predicate SameScalars(backup: ManualBackup, other: ManualBackup) {
    && backup.folder == other.folder
    && backup.mode == other.mode
    && backup.compression == other.compression
    && backup.namePostfix == other.namePostfix
  }

  /** `SetEquals` as it reads: `||` binds tighter than `?:`, so a shared set object, or a null on
      either side, selects `false`. `a == b` on two options is `ReferenceEquals`: both null, or the
      same object. */
  function SetEqualsAsWritten(a: Option<ScopeSet>, b: Option<ScopeSet>): (r: bool)
    ensures r <==> a != b && a.Some? && b.Some? && SameEntries(a.value, b.value)
  {
    if a == b || a.None? || b.None? then false else SameEntries(a.value, b.value)
  }

  /** `Equals(ManualBackup? other)` as it reads. */
  function EqualsAsWritten(backup: ManualBackup, other: Option<ManualBackup>): (r: bool)
    ensures r ==> other.Some? && SameScalars(backup, other.value)
  {
    other.Some? && SameScalars(backup, other.value) && SetEqualsAsWritten(backup.scope, other.value.scope)
  }

  /** No manual backup equals itself: its scope is null or, being its own, the same object. */
  lemma NeverEqualsItself(backup: ManualBackup)
    ensures !EqualsAsWritten(backup, Some(backup))
  {
  }

  /** `SetEquals` as evidently meant: the same object (or two nulls) is equal, one null is not,
      and otherwise the contents decide. */
  function SetEquals(a: Option<ScopeSet>, b: Option<ScopeSet>): (r: bool)
    ensures r <==> (a.None? && b.None?) || (a.Some? && b.Some? && SameEntries(a.value, b.value))
  {
    if a == b then true
    else if a.None? || b.None? then false
    else SameEntries(a.value, b.value)
  }

  /** `Equals` with the corrected `SetEquals`. */
  function Equals(backup: ManualBackup, other: Option<ManualBackup>): (r: bool)
    ensures other.None? ==> !r
    ensures r <==> (other.Some? && SameScalars(backup, other.value)
      && ((backup.scope.None? && other.value.scope.None?)
          || (backup.scope.Some? && other.value.scope.Some? && SameEntries(backup.scope.value, other.value.scope.value))))
  {
    other.Some? && SameScalars(backup, other.value) && SetEquals(backup.scope, other.value.scope)
  }

  /** The corrected equality is an equivalence. */
  lemma EqualsIsEquivalence(a: ManualBackup, b: ManualBackup, c: ManualBackup)
    ensures Equals(a, Some(a))
    ensures Equals(a, Some(b)) <==> Equals(b, Some(a))
    ensures Equals(a, Some(b)) && Equals(b, Some(c)) ==> Equals(a, Some(c))
  {
  }

  /** On two distinct set objects the code as written and the corrected equality agree, and
      wherever the code as written says equal, so does the corrected one. */
  lemma AsWrittenAgreesOnDistinctSets(a: ManualBackup, b: ManualBackup)
    ensures EqualsAsWritten(a, Some(b)) ==> Equals(a, Some(b))
    ensures a.scope.Some? && b.scope.Some? && a.scope != b.scope ==> (EqualsAsWritten(a, Some(b)) <==> Equals(a, Some(b)))
  {
  }

  /** Order and repetition in how a scope was built do not matter: two sets built from the same
      strings, listed differently, make equal backups. */
  lemma OrderIgnored(backup: ManualBackup, s: ScopeSet, t: ScopeSet)
    requires forall x :: x in s.items <==> x in t.items
    ensures Equals(backup.(scope := Some(s)), Some(backup.(scope := Some(t))))
  {
  }

  /** The values `GetHashCode` adds: the four scalar fields, then, for a non-null scope, its
      entries in ordinal order. */
  function HashFeed(backup: ManualBackup): seq<HashItem>
    requires WellFormed(backup)
  {
    [HText(backup.folder), HMode(backup.mode), HCompression(backup.compression), HText(backup.namePostfix)]
    + (if backup.scope.Some? then TextItems(SortOrdinal(backup.scope.value.items)) else [])
  }

  /** `GetHashCode`, up to the mixing: the sequence of values handed to `HashCode.Add`. */
  method GetHashCodeInput(backup: ManualBackup) returns (feed: seq<HashItem>)
    requires WellFormed(backup)
    ensures feed == HashFeed(backup)
  {
    var scalars := [HText(backup.folder), HMode(backup.mode), HCompression(backup.compression), HText(backup.namePostfix)];
    feed := scalars;
    if backup.scope.Some? {
      var ordered := SortOrdinal(backup.scope.value.items);
      var i := 0;
      while i < |ordered|
        invariant 0 <= i <= |ordered|
        invariant feed == scalars + TextItems(ordered[..i])
      {
        assert ordered[..i + 1] == ordered[..i] + [ordered[i]];
        TextItemsAppend(ordered[..i], ordered[i]);
        feed := feed + [HText(Some(ordered[i]))];
        i := i + 1;
      }
      assert ordered[..|ordered|] == ordered;
    }
  }

  lemma TextItemsAppend(s: seq<string>, x: string)
    ensures TextItems(s + [x]) == TextItems(s) + [HText(Some(x))]
  {
  }

  /** Equal backups, by the corrected equality and hence also by the code as written, feed the
      same values to the hash: sorting removes the enumeration order. */
  lemma HashConsistentWithEquals(a: ManualBackup, b: ManualBackup)
    requires WellFormed(a) && WellFormed(b)
    requires Equals(a, Some(b))
    ensures HashFeed(a) == HashFeed(b)
  {
    if a.scope.Some? {
      SortOrdinalOfSameSet(a.scope.value.items, b.scope.value.items);
    }
  }
}
