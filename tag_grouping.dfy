/**
 * `createTagResponse` of database/dynamodb/dynamodb.go: tag items read from the store are
 * grouped by key, one `TagListResponse` per distinct key, appended after a given list.
 */
module TagGrouping {
  import opened Models

  /** The distinct keys among the tags. */
  function KeysOf(tags: seq<TagResponse>): set<string>
    decreases |tags|
  {
    if tags == [] then {} else KeysOf(tags[..|tags| - 1]) + {tags[|tags| - 1].key}
  }

  /** The values of the tags with this key, in input order. */
  function ValuesFor(tags: seq<TagResponse>, key: string): (values: seq<string>)
    ensures |values| <= |tags|
    decreases |tags|
  {
    if tags == [] then []
    else
      var n := |tags| - 1;
      ValuesFor(tags[..n], key) + (if tags[n].key == key then [tags[n].value] else [])
  }

  /** A key is among `KeysOf(tags)` exactly when some tag carries it. */
  lemma {:induction false} KeysOfMember(tags: seq<TagResponse>, key: string)
    ensures key in KeysOf(tags) <==> exists i :: 0 <= i < |tags| && tags[i].key == key
    decreases |tags|
  {
    if tags != [] {
      var n := |tags| - 1;
      KeysOfMember(tags[..n], key);
      if key in KeysOf(tags[..n]) {
        var i :| 0 <= i < n && tags[..n][i].key == key;
        assert tags[i].key == key;
      }
      if exists i :: 0 <= i < |tags| && tags[i].key == key {
        var i :| 0 <= i < |tags| && tags[i].key == key;
        if i < n {
          assert tags[..n][i].key == key;
        }
      }
    }
  }

  /** A key has values exactly when some tag carries it. */
  lemma {:induction false} ValuesForEmpty(tags: seq<TagResponse>, key: string)
    ensures ValuesFor(tags, key) == [] <==> key !in KeysOf(tags)
    decreases |tags|
  {
    if tags != [] {
      ValuesForEmpty(tags[..|tags| - 1], key);
    }
  }

  /** The number of tags whose key lies in `keys`. */
  function CountKeyed(tags: seq<TagResponse>, keys: set<string>): nat
    decreases |tags|
  {
    if tags == [] then 0
    else
      var n := |tags| - 1;
      CountKeyed(tags[..n], keys) + (if tags[n].key in keys then 1 else 0)
  }

  /** The number of values over all entries. */
  function TotalValues(entries: seq<TagListResponse>): nat
    decreases |entries|
  {
    if entries == [] then 0
    else TotalValues(entries[..|entries| - 1]) + |entries[|entries| - 1].values|
  }

  /** `e` is the entry for one key of `tags`: all its values in order, stamped with the last tag's times. */
  predicate IsGroupOf(tags: seq<TagResponse>, e: TagListResponse) {
    && |tags| > 0
    && e.key in KeysOf(tags)
    && e.values == ValuesFor(tags, e.key)
    && e.createdAt == tags[|tags| - 1].createdAt
    && e.updatedAt == tags[|tags| - 1].updatedAt
  }

  /** Grouping respects input order: the values of a concatenation are the values of each part in turn. */
  lemma {:induction false} ValuesForConcat(t1: seq<TagResponse>, t2: seq<TagResponse>, key: string)
    ensures ValuesFor(t1 + t2, key) == ValuesFor(t1, key) + ValuesFor(t2, key)
    decreases |t2|
  {
    if t2 == [] {
      assert t1 + t2 == t1;
    } else {
      var n := |t2| - 1;
      assert (t1 + t2)[..|t1 + t2| - 1] == t1 + t2[..n];
      ValuesForConcat(t1, t2[..n], key);
    }
  }

  /** Every tag's value is among the values grouped under its key. */
  lemma ValueGroupedUnderKey(tags: seq<TagResponse>, i: int)
    requires 0 <= i < |tags|
    ensures tags[i].value in ValuesFor(tags, tags[i].key)
  {
    assert tags == tags[..i] + [tags[i]] + tags[i + 1..];
    ValuesForConcat(tags[..i] + [tags[i]], tags[i + 1..], tags[i].key);
    ValuesForConcat(tags[..i], [tags[i]], tags[i].key);
    assert [tags[i]][..0] == [];
  }

  lemma {:induction false} CountKeyedAdd(tags: seq<TagResponse>, done: set<string>, key: string)
    requires key !in done
    ensures CountKeyed(tags, done + {key}) == CountKeyed(tags, done) + |ValuesFor(tags, key)|
    decreases |tags|
  {
    if tags != [] {
      CountKeyedAdd(tags[..|tags| - 1], done, key);
    }
  }

  lemma {:induction false} CountKeyedNone(tags: seq<TagResponse>)
    ensures CountKeyed(tags, {}) == 0
    decreases |tags|
  {
    if tags != [] {
      CountKeyedNone(tags[..|tags| - 1]);
    }
  }

  lemma {:induction false} CountKeyedAll(tags: seq<TagResponse>, keys: set<string>)
    requires KeysOf(tags) <= keys
    ensures CountKeyed(tags, keys) == |tags|
    decreases |tags|
  {
    if tags != [] {
      CountKeyedAll(tags[..|tags| - 1], keys);
    }
  }

  /** What the first loop hands to the second: the collected values and the last tag's times. */
  predicate Collected(tags: seq<TagResponse>, tagMap: map<string, seq<string>>, createdAt: string, updatedAt: string) {
    && tagMap.Keys == KeysOf(tags)
    && (forall key :: key in tagMap ==> tagMap[key] == ValuesFor(tags, key))
    && (|tags| > 0 ==> createdAt == tags[|tags| - 1].createdAt && updatedAt == tags[|tags| - 1].updatedAt)
    && (tags == [] ==> createdAt == "" && updatedAt == "")
  }

  /** The first loop of `createTagResponse`: tag values collected per key, and the last tag's times (empty for no tags). */
  method CollectValues(tags: seq<TagResponse>)
    returns (tagMap: map<string, seq<string>>, createdAt: string, updatedAt: string)
    ensures Collected(tags, tagMap, createdAt, updatedAt)
  {
    tagMap, createdAt, updatedAt := map[], "", "";
    for i := 0 to |tags|
      invariant tagMap.Keys == KeysOf(tags[..i])
      invariant forall key :: key in tagMap ==> tagMap[key] == ValuesFor(tags[..i], key)
      invariant 0 < i ==> createdAt == tags[i - 1].createdAt && updatedAt == tags[i - 1].updatedAt
      invariant i == 0 ==> createdAt == "" && updatedAt == ""
    {
      var tag := tags[i];
      assert tags[..i + 1][..i] == tags[..i];
      ValuesForEmpty(tags[..i], tag.key);
      tagMap := tagMap[tag.key := (if tag.key in tagMap then tagMap[tag.key] else []) + [tag.value]];
      createdAt, updatedAt := tag.createdAt, tag.updatedAt;
    }
    assert tags[..|tags|] == tags;
  }

  /** The keys of a list of entries. */
  function EntryKeys(entries: seq<TagListResponse>): set<string>
    decreases |entries|
  {
    if entries == [] then {} else EntryKeys(entries[..|entries| - 1]) + {entries[|entries| - 1].key}
  }

  /** `groups` holds exactly one entry for each key in `done`, each the full group of that key. */
  predicate Grouped(tags: seq<TagResponse>, groups: seq<TagListResponse>, done: set<string>) {
    && |groups| == |done|
    && EntryKeys(groups) == done
    && (forall i :: 0 <= i < |groups| ==> IsGroupOf(tags, groups[i]))
    && (forall i, j :: 0 <= i < j < |groups| ==> groups[i].key != groups[j].key)
  }

  lemma {:induction false} EntryKeyListed(entries: seq<TagListResponse>, i: int)
    requires 0 <= i < |entries|
    ensures entries[i].key in EntryKeys(entries)
    decreases |entries|
  {
    if i < |entries| - 1 {
      EntryKeyListed(entries[..|entries| - 1], i);
    }
  }

  lemma GroupedAppend(tags: seq<TagResponse>, groups: seq<TagListResponse>, done: set<string>, entry: TagListResponse)
    requires Grouped(tags, groups, done)
    requires entry.key !in done && IsGroupOf(tags, entry)
    ensures Grouped(tags, groups + [entry], done + {entry.key})
  {
    assert (groups + [entry])[..|groups|] == groups;
    assert EntryKeys(groups + [entry]) == EntryKeys(groups) + {entry.key};
    forall i, j | 0 <= i < j < |groups| + 1
      ensures (groups + [entry])[i].key != (groups + [entry])[j].key
    {
      if j == |groups| {
        EntryKeyListed(groups, i);
      }
    }
  }

  /** Once every key is grouped, appending the groups to a list yields the promised response. */
  lemma GroupedResult(tags: seq<TagResponse>, tagList: seq<TagListResponse>, groups: seq<TagListResponse>)
    requires Grouped(tags, groups, KeysOf(tags)) && TotalValues(groups) == |tags|
    ensures var result := tagList + groups;
      && |result| == |tagList| + |KeysOf(tags)|
      && result[..|tagList|] == tagList
      && (forall i :: |tagList| <= i < |result| ==> IsGroupOf(tags, result[i]))
      && (forall i, j :: |tagList| <= i < j < |result| ==> result[i].key != result[j].key)
      && EntryKeys(result[|tagList|..]) == KeysOf(tags)
      && TotalValues(result[|tagList|..]) == |tags|
  {
    var result := tagList + groups;
    assert result[|tagList|..] == groups;
    assert result[..|tagList|] == tagList;
  }

  /** The invariant of the second loop: the keys not `pending` are grouped, and no value is lost. */
  predicate Emitting(tags: seq<TagResponse>, tagMap: map<string, seq<string>>, createdAt: string, updatedAt: string,
                     groups: seq<TagListResponse>, pending: set<string>) {
    && Collected(tags, tagMap, createdAt, updatedAt)
    && pending <= tagMap.Keys
    && Grouped(tags, groups, tagMap.Keys - pending)
    && TotalValues(groups) + CountKeyed(tags, pending) == |tags|
  }

  lemma EmitStart(tags: seq<TagResponse>, tagMap: map<string, seq<string>>, createdAt: string, updatedAt: string)
    requires Collected(tags, tagMap, createdAt, updatedAt)
    ensures Emitting(tags, tagMap, createdAt, updatedAt, [], tagMap.Keys)
  {
    CountKeyedAll(tags, tagMap.Keys);
  }

  /** One turn of the second loop keeps its invariant. */
  lemma EmitStep(tags: seq<TagResponse>, tagMap: map<string, seq<string>>, createdAt: string, updatedAt: string,
                 groups: seq<TagListResponse>, pending: set<string>, key: string)
    requires Emitting(tags, tagMap, createdAt, updatedAt, groups, pending) && key in pending
    ensures Emitting(tags, tagMap, createdAt, updatedAt,
                     groups + [TagListResponse(key, tagMap[key], createdAt, updatedAt)], pending - {key})
  {
    var entry := TagListResponse(key, tagMap[key], createdAt, updatedAt);
    GroupedAppend(tags, groups, tagMap.Keys - pending, entry);
    CountKeyedAdd(tags, pending - {key}, key);
    assert pending - {key} + {key} == pending;
    assert tagMap.Keys - (pending - {key}) == tagMap.Keys - pending + {key};
    assert (groups + [entry])[..|groups|] == groups;
  }

  lemma EmitDone(tags: seq<TagResponse>, tagMap: map<string, seq<string>>, createdAt: string, updatedAt: string,
                 groups: seq<TagListResponse>)
    requires Emitting(tags, tagMap, createdAt, updatedAt, groups, {})
    ensures Grouped(tags, groups, KeysOf(tags)) && TotalValues(groups) == |tags|
  {
    CountKeyedNone(tags);
    assert tagMap.Keys - {} == KeysOf(tags);
  }

  /** The second loop of `createTagResponse`: one entry per collected key, in arbitrary key order. */
  method EmitGroups(tags: seq<TagResponse>, tagMap: map<string, seq<string>>, createdAt: string, updatedAt: string)
    returns (groups: seq<TagListResponse>)
    requires Collected(tags, tagMap, createdAt, updatedAt)
    ensures Grouped(tags, groups, KeysOf(tags))
    ensures TotalValues(groups) == |tags|
  {
    groups := [];
    var pending := tagMap.Keys;
    EmitStart(tags, tagMap, createdAt, updatedAt);
    while pending != {}
      invariant Emitting(tags, tagMap, createdAt, updatedAt, groups, pending)
      decreases |pending|
    {
      var key :| key in pending;
      EmitStep(tags, tagMap, createdAt, updatedAt, groups, pending, key);
      groups := groups + [TagListResponse(key, tagMap[key], createdAt, updatedAt)];
      pending := pending - {key};
    }
    EmitDone(tags, tagMap, createdAt, updatedAt, groups);
  }

  /**
   * `createTagResponse`: groups the tag values by key and appends one entry per distinct key
   * after `tagList`. The source walks a Go map, whose order is unspecified; the model picks
   * the next key arbitrarily.
   */
  method CreateTagResponse(tags: seq<TagResponse>, tagList: seq<TagListResponse>)
    returns (result: seq<TagListResponse>)
    ensures |result| == |tagList| + |KeysOf(tags)|
    ensures result[..|tagList|] == tagList
    ensures forall i :: |tagList| <= i < |result| ==> IsGroupOf(tags, result[i])
    ensures forall i, j :: |tagList| <= i < j < |result| ==> result[i].key != result[j].key
    ensures EntryKeys(result[|tagList|..]) == KeysOf(tags)
    ensures TotalValues(result[|tagList|..]) == |tags|
  {
    var tagMap, createdAt, updatedAt := CollectValues(tags);
    var groups := EmitGroups(tags, tagMap, createdAt, updatedAt);
    GroupedResult(tags, tagList, groups);
    result := tagList + groups;
  }
}
