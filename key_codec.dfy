/**
 * The single-table key codec of utils/helper.go: an entity code, a name and an optional
 * value are turned into a key string that starts with a fixed three-character prefix.
 */
module KeyCodec {

  /** The entity codes, numbered from zero in declaration order. */
  const SERVICE: int := 0
  const COMPANY: int := 1
  const TAG: int := 2
  const RULE: int := 3

  predicate IsEntity(entity: int) {
    SERVICE <= entity <= RULE
  }

  /** The three-character prefix that marks keys of a known entity kind. */
  function Prefix(entity: int): string
    requires IsEntity(entity)
  {
    ["SR#", "CM#", "TG#", "RL#"][entity]
  }

  /**
   * `GetPartitionKey`: the key for an entity. Only tags use `value`, and only when it is
   * non-empty; an unknown entity code gives the empty string.
   */
  function PartitionKey(entity: int, name: string, value: string): (key: string)
    ensures IsEntity(entity) <==> key != ""
    ensures IsEntity(entity) ==> |key| >= 3 && key[..3] == Prefix(entity)
  {
    if entity == SERVICE then "SR#" + name
    else if entity == COMPANY then "CM#" + name
    else if entity == TAG then
      (if value == "" then "TG#" + name else "TG#" + name + "#" + value)
    else if entity == RULE then "RL#" + name
    else ""
  }

  /** `GetPartitionKeyName`: the name of the partition attribute. */
  function PartitionKeyName(): (name: string)
    ensures name == "PK"
  {
    "PK"
  }

  /** Outside tags the value argument is ignored. */
  lemma ValueIgnoredOutsideTags(entity: int, name: string, value: string)
    requires entity != TAG
    ensures PartitionKey(entity, name, value) == PartitionKey(entity, name, "")
  {
  }

  /** A tag key with a value is the value-less key of the same name, `#`, then the value. */
  lemma TagValueSuffix(name: string, value: string)
    requires value != ""
    ensures PartitionKey(TAG, name, value) == PartitionKey(TAG, name, "") + "#" + value
  {
  }

  /**
   * The value-less tag key is a prefix of every tag key of the same name, so a
   * `begins_with` query on it finds every value registered under that name.
   */
  lemma ValuelessTagKeyIsPrefix(name: string, value: string)
    ensures PartitionKey(TAG, name, "") <= PartitionKey(TAG, name, value)
  {
    if value != "" {
      TagValueSuffix(name, value);
    }
  }

  /** A `begins_with` match is not name-exact: the key for "a" also prefixes the key for "ab". */
  lemma PrefixMatchesLongerNames()
    ensures PartitionKey(TAG, "a", "") <= PartitionKey(TAG, "ab", "")
    ensures PartitionKey(TAG, "a", "") != PartitionKey(TAG, "ab", "")
  {
    assert PartitionKey(TAG, "ab", "")[..4] == "TG#a";
  }

  /** Keys of two different known kinds never coincide: their prefixes differ. */
  lemma KindsNeverCollide(e1: int, n1: string, v1: string, e2: int, n2: string, v2: string)
    requires IsEntity(e1) && IsEntity(e2) && e1 != e2
    ensures PartitionKey(e1, n1, v1) != PartitionKey(e2, n2, v2)
  {
    var k1, k2 := PartitionKey(e1, n1, v1), PartitionKey(e2, n2, v2);
    assert k1[0] == Prefix(e1)[0] && k2[0] == Prefix(e2)[0];
    assert Prefix(e1)[0] != Prefix(e2)[0];
  }

  /**
   * For services, companies and rules, and for tags without a value, dropping the
   * three-character prefix gives the name back.
   */
  lemma NameRecovered(entity: int, name: string, value: string)
    requires entity == SERVICE || entity == COMPANY || entity == RULE || (entity == TAG && value == "")
    ensures PartitionKey(entity, name, value)[3..] == name
  {
  }

  /** Hence those keys are injective in the name. */
  lemma NameInjective(entity: int, n1: string, v1: string, n2: string, v2: string)
    requires entity == SERVICE || entity == COMPANY || entity == RULE
    requires PartitionKey(entity, n1, v1) == PartitionKey(entity, n2, v2)
    ensures n1 == n2
  {
    NameRecovered(entity, n1, v1);
    NameRecovered(entity, n2, v2);
  }

  /** Tag keys are injective in (name, value) as long as the name holds no `#`. */
  lemma TagKeyInjective(n1: string, v1: string, n2: string, v2: string)
    requires '#' !in n1 && '#' !in n2
    requires PartitionKey(TAG, n1, v1) == PartitionKey(TAG, n2, v2)
    ensures n1 == n2 && v1 == v2
  {
    var k := PartitionKey(TAG, n1, v1);
    var r1 := if v1 == "" then "" else "#" + v1;
    var r2 := if v2 == "" then "" else "#" + v2;
    assert k[3..] == n1 + r1;
    assert k[3..] == n2 + r2;
    if |n1| < |n2| && v1 != "" {
      CharOfConcat(n1, r1, |n1|);
      CharOfConcat(n2, r2, |n1|);
      assert false;
    } else if |n2| < |n1| && v2 != "" {
      CharOfConcat(n2, r2, |n2|);
      CharOfConcat(n1, r1, |n2|);
      assert false;
    } else if |n1| == |n2| {
      assert n1 == k[3..3 + |n1|] == n2;
      assert r1 == (n1 + r1)[|n1|..] == (n2 + r2)[|n2|..] == r2;
      if v1 != "" && v2 != "" {
        assert v1 == r1[1..] == r2[1..] == v2;
      }
    }
  }

  /** The character at position `i` of a concatenation. */
  lemma CharOfConcat(a: string, b: string, i: int)
    ensures 0 <= i < |a| ==> (a + b)[i] == a[i]
    ensures |a| <= i < |a| + |b| ==> (a + b)[i] == b[i - |a|]
  {
  }

  /** Without that condition two different tags share a key. */
  lemma TagKeyAmbiguous()
    ensures PartitionKey(TAG, "a#b", "c") == PartitionKey(TAG, "a", "b#c")
  {
  }
}
