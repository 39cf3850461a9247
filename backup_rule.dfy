/** `Contracts.Backup.BackupRule`: a scheduled backup rule whose equality compares every field and
    its scope element by element, in order. */
module BackupRules {
  import opened Wrappers
  import opened TimeSpans
  import opened BackupTypes

  datatype BackupRule = BackupRule(
    id: BackupRuleId,
    name: string,
    folder: string,
    mode: BackupMode,
    cron: string,
    compression: Compression,
    scope: seq<string>,
    retainCount: Option<int>,
    retainAge: Option<TimeSpan>)

  /** `Equals(BackupRule? other)`: null is never equal; otherwise the eight scalar fields and
      `Scope.SequenceEqual(other.Scope)`, which together are value equality of the whole record. */
  function Equals(rule: BackupRule, other: Option<BackupRule>): (r: bool)
    ensures other.None? ==> !r
    ensures r <==> other == Some(rule)
  {
    && other.Some?
    && rule.id == other.value.id
    && rule.name == other.value.name
    && rule.folder == other.value.folder
    && rule.mode == other.value.mode
    && rule.cron == other.value.cron
    && rule.compression == other.value.compression
    && rule.retainCount == other.value.retainCount
    && rule.retainAge == other.value.retainAge
    && SequenceEqual(rule.scope, other.value.scope)
  }

  /** `Enumerable.SequenceEqual`: same length and equal entries position by position. */
  function SequenceEqual(a: seq<string>, b: seq<string>): (r: bool)
    ensures r <==> a == b
  {
    if |a| != |b| then false
    else if |a| == 0 then true
    else
      assert a == [a[0]] + a[1..] && b == [b[0]] + b[1..];
      a[0] == b[0] && SequenceEqual(a[1..], b[1..])
  }

  /** `Equals` is reflexive and symmetric. */
  lemma EqualsIsReflexiveAndSymmetric(a: BackupRule, b: BackupRule)
    ensures Equals(a, Some(a))
    ensures Equals(a, Some(b)) <==> Equals(b, Some(a))
  {
  }

  /** The same scope entries in another order make a different rule. */
  lemma ScopeOrderMatters(rule: BackupRule, x: string, y: string)
    requires x != y
    ensures !Equals(rule.(scope := [x, y]), Some(rule.(scope := [y, x])))
  {
    assert rule.(scope := [x, y]).scope[0] != rule.(scope := [y, x]).scope[0];
  }

  /** The values `GetHashCode` adds: the eight scalar fields in declaration order, then every
      scope entry in order. */
  function HashFeed(rule: BackupRule): seq<HashItem> {
    [HId(rule.id), HText(Some(rule.name)), HText(Some(rule.folder)), HMode(Some(rule.mode)),
     HText(Some(rule.cron)), HCompression(Some(rule.compression)), HCount(rule.retainCount), HAge(rule.retainAge)]
    + TextItems(rule.scope)
  }

  /** `GetHashCode`, up to the mixing: the sequence of values handed to `hashCode.Add`. */
  method GetHashCodeInput(rule: BackupRule) returns (feed: seq<HashItem>)
    ensures feed == HashFeed(rule)
  {
    feed := [HId(rule.id), HText(Some(rule.name)), HText(Some(rule.folder)), HMode(Some(rule.mode)),
             HText(Some(rule.cron)), HCompression(Some(rule.compression)), HCount(rule.retainCount), HAge(rule.retainAge)];
    var i := 0;
    while i < |rule.scope|
      invariant 0 <= i <= |rule.scope|
      invariant |feed| == 8 + i
      invariant feed[..8] == HashFeed(rule)[..8]
      invariant forall k :: 0 <= k < i ==> feed[8 + k] == HText(Some(rule.scope[k]))
    {
      feed := feed + [HText(Some(rule.scope[i]))];
      i := i + 1;
    }
  }

  /** The hash input agrees with `Equals` both ways: equal rules feed the same values, and rules
      feeding the same values are equal. */
  lemma HashConsistentWithEquals(a: BackupRule, b: BackupRule)
    ensures Equals(a, Some(b)) <==> HashFeed(a) == HashFeed(b)
  {
    if HashFeed(a) == HashFeed(b) {
      assert HashFeed(a)[..8] == HashFeed(b)[..8];
      assert HashFeed(a)[0] == HashFeed(b)[0] && HashFeed(a)[1] == HashFeed(b)[1];
      assert HashFeed(a)[2] == HashFeed(b)[2] && HashFeed(a)[3] == HashFeed(b)[3];
      assert HashFeed(a)[4] == HashFeed(b)[4] && HashFeed(a)[5] == HashFeed(b)[5];
      assert HashFeed(a)[6] == HashFeed(b)[6] && HashFeed(a)[7] == HashFeed(b)[7];
      assert TextItems(a.scope) == HashFeed(a)[8..];
      assert TextItems(b.scope) == HashFeed(b)[8..];
      TextItemsInjective(a.scope, b.scope);
    }
  }
}
