/**
 * The `Database` of database/dynamodb/dynamodb.go: a handle on the one table whose methods
 * change it request by request. Each method is proved to end in the state, and return the
 * result, that the pure functions of module Store describe.
 */
module Repository {
  import opened Wrappers
  import opened Models
  import opened Store
  import opened TagGrouping

  class Database {
    var items: map<Key, Item>
    var scan: seq<Key>
    const env: Env

    function State(): Table
      reads this
    {
      Table(items, scan)
    }

    ghost predicate Valid()
      reads this
    {
      WellFormed(State())
    }

    /** `New`: a handle on an existing table; connection settings are not modelled. */
    constructor (env: Env, initial: Table)
      requires WellFormed(initial)
      ensures this.env == env && State() == initial && Valid()
    {
      this.env := env;
      items := initial.items;
      scan := initial.scan;
    }

    /** One `PutItem` request. */
    method WriteItem(item: Item) returns (err: Option<Error>)
      requires Valid()
      modifies this
      ensures Valid()
      ensures Written(State(), err) == StorePut(env, old(State()), item)
    {
      ghost var before := State();
      var k := KeyOf(item);
      if env.fault(Op.PutItem(k)) {
        return Some(StoreFailure(Op.PutItem(k)));
      }
      if k !in items {
        scan := scan + [k];
      }
      items := items[k := item];
      assert State() == Put(before, item);
      err := None;
    }

    /** One `DeleteItem` request. */
    method RemoveItem(k: Key) returns (err: Option<Error>)
      requires Valid()
      modifies this
      ensures Valid()
      ensures Written(State(), err) == StoreDelete(env, old(State()), k)
    {
      if env.fault(Op.DeleteItem(k)) {
        return Some(StoreFailure(Op.DeleteItem(k)));
      }
      items := items - {k};
      scan := Without(scan, k);
      err := None;
    }

    // ------------------------------------------------------------ services

    method CreateService(s: Service, uuid: string, now: string) returns (stored: Service, err: Option<Error>)
      requires Valid()
      modifies this
      ensures Valid()
      ensures ServiceWritten(State(), stored, err) == Store.CreateService(env, old(State()), s, uuid, now)
    {
      stored := s;
      if s.uuid == "" {
        var existing := GetService(env, State(), s.name);
        if existing.Failure? {
          return s, Some(existing.error);
        }
        if existing.value.name != "" {
          return s, Some(Rejected(ServiceExists));
        }
        stored := StampService(env, s, uuid, now);
      }
      err := WriteItem(ServiceItem(stored));
    }

    method DeleteService(name: string) returns (err: Option<Error>)
      requires Valid()
      modifies this
      ensures Valid()
      ensures Written(State(), err) == Store.DeleteService(env, old(State()), name)
    {
      err := RemoveItem(ServiceKey(env, name));
    }

    method UpdateService(body: Service, serviceUuid: string, uuid: string, now: string) returns (err: Option<Error>)
      requires Valid()
      modifies this
      ensures Valid()
      ensures Written(State(), err) == Store.UpdateService(env, old(State()), body, serviceUuid, uuid, now)
    {
      var found := GetServiceByUUID(env, State(), serviceUuid);
      if found.Failure? {
        return Some(found.error);
      }
      var prior := found.value;
      if prior.name == "" {
        return Some(Rejected(ServiceNotFound));
      }
      var oldKey := env.rangeKey(KeyCodec.SERVICE, prior.name, "", "", "");
      var newKey := env.rangeKey(KeyCodec.SERVICE, body.name, "", "", "");
      if oldKey != newKey {
        err := DeleteService(prior.name);
        if err.Some? {
          return;
        }
      }
      var record := body.(createdAt := prior.createdAt, updatedAt := now, pk := ServicePartition(), sk := newKey);
      var _, e := CreateService(record, uuid, now);
      err := e;
    }

    // ------------------------------------------------------------ companies

    method CreateCompany(c: Company, uuid: string, now: string) returns (err: Option<Error>)
      requires Valid()
      modifies this
      ensures Valid()
      ensures Written(State(), err) == Store.CreateCompany(env, old(State()), c, uuid, now)
    {
      var record := c;
      if c.uuid == "" {
        var existing := GetCompany(env, State(), c.name);
        if existing.Failure? {
          return Some(existing.error);
        }
        if existing.value.name != "" {
          return Some(Rejected(CompanyExists));
        }
        record := StampCompany(env, c, uuid, now);
      }
      err := WriteItem(CompanyItem(record));
    }

    method DeleteCompany(name: string) returns (err: Option<Error>)
      requires Valid()
      modifies this
      ensures Valid()
      ensures Written(State(), err) == Store.DeleteCompany(env, old(State()), name)
    {
      err := RemoveItem(CompanyKey(env, name));
    }

    method UpdateCompany(body: Company, companyUuid: string, uuid: string, now: string) returns (err: Option<Error>)
      requires Valid()
      modifies this
      ensures Valid()
      ensures Written(State(), err) == Store.UpdateCompany(env, old(State()), body, companyUuid, uuid, now)
    {
      var found := GetCompanyByUUID(env, State(), companyUuid);
      if found.Failure? {
        return Some(found.error);
      }
      var prior := found.value;
      if prior.name == "" {
        return Some(Rejected(CompanyNotFound));
      }
      var oldKey := env.rangeKey(KeyCodec.COMPANY, prior.name, "", "", "");
      var newKey := env.rangeKey(KeyCodec.COMPANY, body.name, "", "", "");
      if oldKey != newKey {
        err := DeleteCompany(prior.name);
        if err.Some? {
          return;
        }
      }
      var record := body.(createdAt := prior.createdAt, updatedAt := now, pk := CompanyPartition(), sk := newKey);
      err := CreateCompany(record, uuid, now);
    }

    // ------------------------------------------------------------ tags

    /**
     * `GetTag`: query the tag items whose sort key begins with the tag's key, group them, and
     * return the first group, or the empty group when nothing matched. The grouping runs
     * twice, as in the source, so the group returned is the first of the second run.
     */
    method GetTag(key: string, value: string) returns (r: Result<TagListResponse, Error>)
      ensures TagQuery(env, State(), key, value).Failure? ==> r == Failure(TagQuery(env, State(), key, value).error)
      ensures TagQuery(env, State(), key, value).Success? && TagQuery(env, State(), key, value).value == [] ==>
        r == Success(EmptyTagList)
      ensures TagQuery(env, State(), key, value).Success? && TagQuery(env, State(), key, value).value != [] ==>
        r.Success? && IsGroupOf(TagQuery(env, State(), key, value).value, r.value)
    {
      var q := TagQuery(env, State(), key, value);
      if q.Failure? {
        return Failure(q.error);
      }
      var tags := q.value;
      var resp := CreateTagResponse(tags, []);
      if |resp| > 0 {
        var again := CreateTagResponse(tags, []);
        return Success(again[0]);
      }
      return Success(EmptyTagList);
    }

    /**
     * `CreateTag`: refuse a tag whose key already has a group, else store it stamped with
     * `now` under the key built from its key and value.
     */
    method CreateTag(tag: Tag, now: string) returns (stored: Tag, err: Option<Error>)
      requires Valid()
      modifies this
      ensures Valid()
      ensures TagQuery(env, old(State()), tag.key, tag.value).Failure? ==>
        err == Some(TagQuery(env, old(State()), tag.key, tag.value).error) && State() == old(State())
      ensures TagQuery(env, old(State()), tag.key, tag.value).Success? && TagQuery(env, old(State()), tag.key, tag.value).value == [] ==>
        stored == StampTag(env, tag, now) && Written(State(), err) == StorePut(env, old(State()), TagItem(stored))
      ensures (TagQuery(env, old(State()), tag.key, tag.value).Success? && TagQuery(env, old(State()), tag.key, tag.value).value != [] &&
               forall x :: x in TagQuery(env, old(State()), tag.key, tag.value).value ==> x.key != "") ==>
        err == Some(Rejected(TagExists)) && State() == old(State())
      ensures err.None? ==> stored == StampTag(env, tag, now) && State() == StorePut(env, old(State()), TagItem(stored)).table
    {
      var existing := GetTag(tag.key, tag.value);
      if existing.Failure? {
        return tag, Some(existing.error);
      }
      if existing.value.key != "" {
        return tag, Some(Rejected(TagExists));
      }
      ghost var tags := TagQuery(env, State(), tag.key, tag.value).value;
      if tags != [] {
        KeysOfMember(tags, existing.value.key);
      }
      stored := StampTag(env, tag, now);
      err := WriteItem(TagItem(stored));
    }

    method DeleteTag(key: string, value: string) returns (err: Option<Error>)
      requires Valid()
      modifies this
      ensures Valid()
      ensures Written(State(), err) == Store.DeleteTag(env, old(State()), key, value)
    {
      err := RemoveItem(TagKey(env, key, value));
    }

    // ------------------------------------------------------------ rules and categories

    /**
     * `AttachTagWithService`: for each rule in order, CONTAIN and RELATION ask
     * `IsTagValueFound`; SUBSCRIPTION_COUNT and anything else decide nothing. The decisions
     * are returned for inspection (the source discards them); nothing is written and the
     * result is always nil.
     */
    method AttachTagWithService(data: StreamData, rules: seq<Rule>) returns (err: Option<Error>, decisions: seq<bool>)
      ensures err == None
      ensures |decisions| == |rules|
      ensures forall i :: 0 <= i < |rules| ==> decisions[i] == RuleMatches(env, data, rules[i])
    {
      decisions := [];
      for i := 0 to |rules|
        invariant |decisions| == i
        invariant forall j :: 0 <= j < i ==> decisions[j] == RuleMatches(env, data, rules[j])
      {
        var rule := rules[i];
        var updateDb := false;
        if rule.operation == "CONTAIN" || rule.operation == "RELATION" {
          updateDb := env.tagValueFound(data, rule);
        }
        decisions := decisions + [updateDb];
      }
      err := None;
    }

    /** `UpdateCategoryInService`: one `UpdateItem` appending `cat` to the `category` list. */
    method UpdateCategoryInService(cat: Category, data: StreamData) returns (err: Option<Error>)
      requires Valid()
      modifies this
      ensures Valid()
      ensures Written(State(), err) == AppendCategory(env, old(State()), cat, data)
    {
      var k := Key(data.pk, data.sk);
      if env.fault(UpdateItem(k)) {
        return Some(StoreFailure(UpdateItem(k)));
      }
      if k !in items || !items[k].ServiceItem? {
        return Some(MissingAttribute("category"));
      }
      var s := items[k].service;
      items := items[k := ServiceItem(s.(category := s.category + [cat]))];
      err := None;
    }
  }
}
