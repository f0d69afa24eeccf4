/**
 * What the repository operations of database/dynamodb/dynamodb.go promise, stated over the
 * pure table model of module Store.
 */
module StoreFacts {
  import opened Wrappers
  import opened Models
  import opened Store
  import KeyCodec

  /** The service partition is the constant `SR#`, the company partition `CM#`, the tag partition `TG#`. */
  lemma Partitions()
    ensures ServicePartition() == "SR#" && CompanyPartition() == "CM#" && TagPartition() == "TG#"
  {
  }

  /** The uuid-index lookup yields exactly the first stored item, in query order, that carries the uuid. */
  lemma UuidLookupIsFirstMatch(env: Env, t: Table, uuid: string, i: int)
    requires WellFormed(t)
    requires !env.fault(QueryUuid(uuid))
    requires 0 <= i < |t.scan| && UuidOf(t.items[t.scan[i]]) == Some(uuid)
    requires forall j :: 0 <= j < i ==> UuidOf(t.items[t.scan[j]]) != Some(uuid)
    ensures GetServiceByUUID(env, t, uuid) == Success(AsService(t.items[t.scan[i]]))
  {
    var r := FirstWithUuid(t.items, t.scan, uuid);
    assert r.Some?;
  }

  /** When no stored item carries the uuid, the lookup yields the zero service. */
  lemma UuidLookupMiss(env: Env, t: Table, uuid: string)
    requires forall k :: k in t.items ==> UuidOf(t.items[k]) != Some(uuid)
    requires !env.fault(QueryUuid(uuid))
    ensures GetServiceByUUID(env, t, uuid) == Success(EmptyService)
    ensures GetCompanyByUUID(env, t, uuid) == Success(EmptyCompany)
  {
  }

  // ---------------------------------------------------------------- CreateService

  /** A fresh create is refused, and nothing is written, when a named service is stored under the name's key. */
  lemma CreateServiceRejectsDuplicate(env: Env, t: Table, s: Service, uuid: string, now: string)
    requires s.uuid == ""
    requires !env.fault(GetItem(ServiceKey(env, s.name)))
    requires ServiceKey(env, s.name) in t.items && AsService(t.items[ServiceKey(env, s.name)]).name != ""
    ensures CreateService(env, t, s, uuid, now) == ServiceWritten(t, s, Some(Rejected(ServiceExists)))
  {
  }

  /**
   * A successful fresh create returns the request with a new uuid, equal creation and update
   * times, and keys derived from the name alone, and stores exactly that record under the
   * name's key; no named service was stored there before, and no other key changes.
   */
  lemma FreshCreateStamps(env: Env, t: Table, s: Service, uuid: string, now: string)
    requires s.uuid == ""
    requires CreateService(env, t, s, uuid, now).err.None?
    ensures var w := CreateService(env, t, s, uuid, now);
      && w.service.uuid == uuid
      && w.service.createdAt == now && w.service.updatedAt == now
      && w.service.pk == "SR#"
      && w.service.sk == env.rangeKey(KeyCodec.SERVICE, s.name, "", "", "")
      && w.service.(pk := s.pk, sk := s.sk, uuid := s.uuid, createdAt := s.createdAt, updatedAt := s.updatedAt) == s
      && KeyOf(ServiceItem(w.service)) == ServiceKey(env, s.name)
      && w.table.items == t.items[ServiceKey(env, s.name) := ServiceItem(w.service)]
      && (ServiceKey(env, s.name) in t.items ==> AsService(t.items[ServiceKey(env, s.name)]).name == "")
  {
  }

  /** A create that carries a uuid skips the duplicate check and stores the record as given, under its own keys. */
  lemma CreateWithUuidWritesAsGiven(env: Env, t: Table, s: Service, uuid: string, now: string)
    requires s.uuid != ""
    requires !env.fault(Op.PutItem(Key(s.pk, s.sk)))
    ensures CreateService(env, t, s, uuid, now).err.None?
    ensures CreateService(env, t, s, uuid, now).service == s
    ensures CreateService(env, t, s, uuid, now).table.items == t.items[Key(s.pk, s.sk) := ServiceItem(s)]
  {
  }

  /** Once a named service has been created, a second fresh create of the same name is refused. */
  lemma SecondCreateRejected(env: Env, t: Table, s1: Service, s2: Service, u1: string, u2: string, now1: string, now2: string)
    requires s1.uuid == "" && s2.uuid == "" && s1.name != "" && s2.name == s1.name
    requires CreateService(env, t, s1, u1, now1).err.None?
    requires !env.fault(GetItem(ServiceKey(env, s1.name)))
    ensures var t1 := CreateService(env, t, s1, u1, now1).table;
      CreateService(env, t1, s2, u2, now2) == ServiceWritten(t1, s2, Some(Rejected(ServiceExists)))
  {
    FreshCreateStamps(env, t, s1, u1, now1);
  }

  /** A freshly created service is what the uuid-index returns for its new uuid, provided that uuid was unused. */
  lemma CreatedServiceFoundByUuid(env: Env, t: Table, s: Service, uuid: string, now: string)
    requires WellFormed(t)
    requires forall k :: k in t.items ==> UuidOf(t.items[k]) != Some(uuid)
    requires s.uuid == ""
    requires CreateService(env, t, s, uuid, now).err.None?
    requires !env.fault(QueryUuid(uuid))
    ensures var w := CreateService(env, t, s, uuid, now);
      GetServiceByUUID(env, w.table, uuid) == Success(w.service)
  {
    var w := CreateService(env, t, s, uuid, now);
    FreshCreateStamps(env, t, s, uuid, now);
    var k := ServiceKey(env, s.name);
    var t1 := w.table;
    assert WellFormed(t1);
    assert k in t1.scan;
    var i :| 0 <= i < |t1.scan| && t1.scan[i] == k;
    var r := FirstWithUuid(t1.items, t1.scan, uuid);
    assert UuidOf(t1.items[t1.scan[i]]) == Some(uuid);
    assert r.Some?;
  }

  // ---------------------------------------------------------------- UpdateService

  /**
   * When the uuid lookup yields a record without a name (no item carries the uuid, or the
   * item that does is not a service), an update is refused with "service not found" and
   * writes nothing.
   */
  lemma UpdateServiceNotFound(env: Env, t: Table, body: Service, serviceUuid: string, uuid: string, now: string, found: Service)
    requires GetServiceByUUID(env, t, serviceUuid) == Success(found) && found.name == ""
    ensures UpdateService(env, t, body, serviceUuid, uuid, now) == Written(t, Some(Rejected(ServiceNotFound)))
  {
  }

  /** The record an update stores: the body, stamped with the prior creation time, `now` and the new name's keys. */
  function UpdatedRecord(env: Env, body: Service, prior: Service, now: string): Service {
    body.(createdAt := prior.createdAt, updatedAt := now, pk := "SR#",
          sk := env.rangeKey(KeyCodec.SERVICE, body.name, "", "", ""))
  }

  /**
   * A rename (the name-derived key changes) of a service whose body carries its uuid deletes
   * the old item and stores the body under the new name's key with the old creation time;
   * every other key is untouched.
   */
  lemma UpdateServiceRenames(env: Env, t: Table, body: Service, serviceUuid: string, uuid: string, now: string, prior: Service)
    requires GetServiceByUUID(env, t, serviceUuid) == Success(prior) && prior.name != ""
    requires body.uuid != ""
    requires env.rangeKey(KeyCodec.SERVICE, prior.name, "", "", "") != env.rangeKey(KeyCodec.SERVICE, body.name, "", "", "")
    requires !env.fault(Op.DeleteItem(ServiceKey(env, prior.name)))
    requires !env.fault(Op.PutItem(ServiceKey(env, body.name)))
    ensures var w := UpdateService(env, t, body, serviceUuid, uuid, now);
      && w.err.None?
      && ServiceKey(env, prior.name) !in w.table.items
      && w.table.items == (t.items - {ServiceKey(env, prior.name)})[ServiceKey(env, body.name) := ServiceItem(UpdatedRecord(env, body, prior, now))]
      && UpdatedRecord(env, body, prior, now).createdAt == prior.createdAt
  {
    Partitions();
  }

  /** An update that keeps the name-derived key overwrites the item in place, keeping the old creation time. */
  lemma UpdateServiceInPlace(env: Env, t: Table, body: Service, serviceUuid: string, uuid: string, now: string, prior: Service)
    requires GetServiceByUUID(env, t, serviceUuid) == Success(prior) && prior.name != ""
    requires body.uuid != ""
    requires env.rangeKey(KeyCodec.SERVICE, prior.name, "", "", "") == env.rangeKey(KeyCodec.SERVICE, body.name, "", "", "")
    requires !env.fault(Op.PutItem(ServiceKey(env, body.name)))
    ensures var w := UpdateService(env, t, body, serviceUuid, uuid, now);
      && w.err.None?
      && w.table.items == t.items[ServiceKey(env, body.name) := ServiceItem(UpdatedRecord(env, body, prior, now))]
  {
    Partitions();
  }

  /**
   * An update whose body has no uuid goes through the fresh-create path: when the service
   * found by uuid is stored under its own name's key and the name is kept, the update is
   * refused with "Service already exist" and the table is unchanged.
   */
  lemma UpdateWithoutUuidSameNameRejected(env: Env, t: Table, body: Service, serviceUuid: string, uuid: string, now: string, prior: Service)
    requires GetServiceByUUID(env, t, serviceUuid) == Success(prior) && prior.name != ""
    requires body.uuid == "" && body.name == prior.name
    requires ServiceKey(env, prior.name) in t.items && t.items[ServiceKey(env, prior.name)] == ServiceItem(prior)
    requires !env.fault(GetItem(ServiceKey(env, body.name)))
    ensures UpdateService(env, t, body, serviceUuid, uuid, now) == Written(t, Some(Rejected(ServiceExists)))
  {
  }

  /**
   * A uuid-less rename succeeds, but the stored record gets a new uuid and its creation time
   * is replaced by `now`: the prior creation time is not kept on this path.
   */
  lemma UpdateWithoutUuidRestamps(env: Env, t: Table, body: Service, serviceUuid: string, uuid: string, now: string, prior: Service)
    requires GetServiceByUUID(env, t, serviceUuid) == Success(prior) && prior.name != ""
    requires body.uuid == ""
    requires env.rangeKey(KeyCodec.SERVICE, prior.name, "", "", "") != env.rangeKey(KeyCodec.SERVICE, body.name, "", "", "")
    requires UpdateService(env, t, body, serviceUuid, uuid, now).err.None?
    ensures var w := UpdateService(env, t, body, serviceUuid, uuid, now);
      && ServiceKey(env, body.name) in w.table.items
      && w.table.items[ServiceKey(env, body.name)].ServiceItem?
      && w.table.items[ServiceKey(env, body.name)].service.uuid == uuid
      && w.table.items[ServiceKey(env, body.name)].service.createdAt == now
  {
    var cleared := DeleteService(env, t, prior.name);
    var record := body.(createdAt := prior.createdAt, updatedAt := now, pk := ServicePartition(),
                        sk := env.rangeKey(KeyCodec.SERVICE, body.name, "", "", ""));
    FreshCreateStamps(env, cleared.table, record, uuid, now);
  }

  /**
   * The update is not atomic: after a rename has deleted the old item, a failing write
   * returns the error with neither the old nor the new record stored.
   */
  lemma UpdateServiceLosesRecordOnFailedWrite(env: Env, t: Table, body: Service, serviceUuid: string, uuid: string, now: string, prior: Service)
    requires GetServiceByUUID(env, t, serviceUuid) == Success(prior) && prior.name != ""
    requires body.uuid != ""
    requires env.rangeKey(KeyCodec.SERVICE, prior.name, "", "", "") != env.rangeKey(KeyCodec.SERVICE, body.name, "", "", "")
    requires !env.fault(Op.DeleteItem(ServiceKey(env, prior.name)))
    requires env.fault(Op.PutItem(ServiceKey(env, body.name)))
    ensures var w := UpdateService(env, t, body, serviceUuid, uuid, now);
      && w.err == Some(StoreFailure(Op.PutItem(ServiceKey(env, body.name))))
      && ServiceKey(env, prior.name) !in w.table.items
  {
    Partitions();
  }

  // ---------------------------------------------------------------- companies

  /** A fresh company create is refused, and nothing is written, when a readable named company sits under the name's key. */
  lemma CreateCompanyRejectsDuplicate(env: Env, t: Table, c: Company, uuid: string, now: string)
    requires c.uuid == ""
    requires !env.fault(GetItem(CompanyKey(env, c.name)))
    requires CompanyKey(env, c.name) in t.items
    requires AsCompany(t.items[CompanyKey(env, c.name)]).Success? && AsCompany(t.items[CompanyKey(env, c.name)]).value.name != ""
    ensures CreateCompany(env, t, c, uuid, now) == Written(t, Some(Rejected(CompanyExists)))
  {
  }

  /**
   * A fresh create under the name of a company that subscribes to services fails with the
   * unmarshalling error, not with "Company already exist", and writes nothing.
   */
  lemma CreateCompanyOverSubscribedFails(env: Env, t: Table, c: Company, uuid: string, now: string)
    requires c.uuid == ""
    requires !env.fault(GetItem(CompanyKey(env, c.name)))
    requires CompanyKey(env, c.name) in t.items && t.items[CompanyKey(env, c.name)].CompanyItem?
    requires t.items[CompanyKey(env, c.name)].company.serviceList != []
    ensures CreateCompany(env, t, c, uuid, now) == Written(t, Some(UnreadableServiceList))
  {
  }

  /**
   * What a fresh company create stores is what `GetCompany` reads back, without its keys, as
   * long as its service list is empty; with a non-empty list it cannot be read back at all.
   */
  lemma CreatedCompanyReadBack(env: Env, t: Table, c: Company, uuid: string, now: string)
    requires c.uuid == ""
    requires CreateCompany(env, t, c, uuid, now).err.None?
    requires !env.fault(GetItem(CompanyKey(env, c.name)))
    ensures var r := GetCompany(env, CreateCompany(env, t, c, uuid, now).table, c.name);
      && (c.serviceList == [] ==> r == Success(c.(uuid := uuid, createdAt := now, updatedAt := now, pk := "", sk := "")))
      && (c.serviceList != [] ==> r == Failure(UnreadableServiceList))
  {
    FreshCompanyCreateStamps(env, t, c, uuid, now);
  }

  /** A successful fresh company create stores the request stamped with a new uuid and `now`, under the name's key. */
  lemma FreshCompanyCreateStamps(env: Env, t: Table, c: Company, uuid: string, now: string)
    requires c.uuid == ""
    requires CreateCompany(env, t, c, uuid, now).err.None?
    ensures var stored := c.(uuid := uuid, createdAt := now, updatedAt := now, pk := "CM#",
                             sk := env.rangeKey(KeyCodec.COMPANY, c.name, "", "", ""));
      CreateCompany(env, t, c, uuid, now).table.items == t.items[CompanyKey(env, c.name) := CompanyItem(stored)]
  {
    Partitions();
  }

  /** When the uuid lookup yields a record without a company name, an update is refused with "company not found". */
  lemma UpdateCompanyNotFound(env: Env, t: Table, body: Company, companyUuid: string, uuid: string, now: string, found: Company)
    requires GetCompanyByUUID(env, t, companyUuid) == Success(found) && found.name == ""
    ensures UpdateCompany(env, t, body, companyUuid, uuid, now) == Written(t, Some(Rejected(CompanyNotFound)))
  {
  }

  /**
   * When any item the index lists for the uuid is a company that subscribes to services, the
   * lookup cannot be unmarshalled: the update fails with that error and writes nothing.
   */
  lemma UpdateSubscribedCompanyFails(env: Env, t: Table, body: Company, companyUuid: string, uuid: string, now: string, i: int)
    requires !env.fault(QueryUuid(companyUuid))
    requires 0 <= i < |t.scan| && t.scan[i] in t.items && t.items[t.scan[i]].CompanyItem?
    requires t.items[t.scan[i]].company.uuid == companyUuid && t.items[t.scan[i]].company.serviceList != []
    ensures UpdateCompany(env, t, body, companyUuid, uuid, now) == Written(t, Some(UnreadableServiceList))
  {
    assert UnreadableCompanyWithUuid(t.items, t.scan, companyUuid);
  }

  /** A company rename deletes the old item and stores the body under the new key with the old creation time. */
  lemma UpdateCompanyRenames(env: Env, t: Table, body: Company, companyUuid: string, uuid: string, now: string, prior: Company)
    requires GetCompanyByUUID(env, t, companyUuid) == Success(prior) && prior.name != ""
    requires body.uuid != ""
    requires env.rangeKey(KeyCodec.COMPANY, prior.name, "", "", "") != env.rangeKey(KeyCodec.COMPANY, body.name, "", "", "")
    requires !env.fault(Op.DeleteItem(CompanyKey(env, prior.name)))
    requires !env.fault(Op.PutItem(CompanyKey(env, body.name)))
    ensures var w := UpdateCompany(env, t, body, companyUuid, uuid, now);
      var record := body.(createdAt := prior.createdAt, updatedAt := now, pk := "CM#",
                          sk := env.rangeKey(KeyCodec.COMPANY, body.name, "", "", ""));
      && w.err.None?
      && CompanyKey(env, prior.name) !in w.table.items
      && w.table.items == (t.items - {CompanyKey(env, prior.name)})[CompanyKey(env, body.name) := CompanyItem(record)]
  {
    Partitions();
  }

  lemma UpdateCompanyInPlace(env: Env, t: Table, body: Company, companyUuid: string, uuid: string, now: string, prior: Company)
    requires GetCompanyByUUID(env, t, companyUuid) == Success(prior) && prior.name != ""
    requires body.uuid != ""
    requires env.rangeKey(KeyCodec.COMPANY, prior.name, "", "", "") == env.rangeKey(KeyCodec.COMPANY, body.name, "", "", "")
    requires !env.fault(Op.PutItem(CompanyKey(env, body.name)))
    ensures var w := UpdateCompany(env, t, body, companyUuid, uuid, now);
      var record := body.(createdAt := prior.createdAt, updatedAt := now, pk := "CM#",
                          sk := env.rangeKey(KeyCodec.COMPANY, body.name, "", "", ""));
      && w.err.None?
      && w.table.items == t.items[CompanyKey(env, body.name) := CompanyItem(record)]
  {
    Partitions();
  }

  // ---------------------------------------------------------------- tags

  /** Both branches of `GetTag`'s key choice give the sort key the tag is stored under. */
  lemma TagLookupKeyIsStoredKey(env: Env, key: string, value: string)
    ensures TagLookupKey(env, key, value) == TagKey(env, key, value).sk
  {
  }

  /** A stored tag is listed by the `GetTag` query for its key and value. */
  lemma StoredTagFound(env: Env, t: Table, g: Tag, now: string)
    requires WellFormed(t)
    requires StorePut(env, t, TagItem(StampTag(env, g, now))).err.None?
    requires !env.fault(QueryBeginsWith(TagPartition(), TagLookupKey(env, g.key, g.value)))
    ensures var q := TagQuery(env, StorePut(env, t, TagItem(StampTag(env, g, now))).table, g.key, g.value);
      q.Success? && TagResponse(g.key, g.value, now, now) in q.value
  {
    var t1 := StorePut(env, t, TagItem(StampTag(env, g, now))).table;
    var k := TagKey(env, g.key, g.value);
    assert KeyOf(TagItem(StampTag(env, g, now))) == k;
    assert k in t1.scan && k in t1.items;
    assert TagLookupKey(env, g.key, g.value) <= k.sk;
  }

  // ---------------------------------------------------------------- categories

  /**
   * A successful `UpdateCategoryInService` found a service at the record's keys and appended
   * exactly `cat` to the end of its category list; every other attribute and every other
   * item is unchanged.
   */
  lemma CategoryAppended(env: Env, t: Table, cat: Category, data: StreamData)
    requires AppendCategory(env, t, cat, data).err.None?
    ensures var k := Key(data.pk, data.sk);
      var w := AppendCategory(env, t, cat, data);
      && k in t.items && t.items[k].ServiceItem? && k in w.table.items && w.table.items[k].ServiceItem?
      && w.table.items[k].service.category == t.items[k].service.category + [cat]
      && multiset(w.table.items[k].service.category) == multiset(t.items[k].service.category) + multiset{cat}
      && w.table.items[k].service.(category := t.items[k].service.category) == t.items[k].service
      && (forall x :: x != k ==> (x in w.table.items <==> x in t.items))
      && (forall x :: x != k && x in t.items ==> w.table.items[x] == t.items[x])
  {
  }

  /** Appending succeeds even when the category is already listed: there is no duplicate check. */
  lemma CategoryAppendKeepsDuplicates(env: Env, t: Table, cat: Category, data: StreamData)
    requires Key(data.pk, data.sk) in t.items && t.items[Key(data.pk, data.sk)].ServiceItem?
    requires cat in t.items[Key(data.pk, data.sk)].service.category
    requires !env.fault(UpdateItem(Key(data.pk, data.sk)))
    ensures var w := AppendCategory(env, t, cat, data);
      && w.err.None?
      && multiset(w.table.items[Key(data.pk, data.sk)].service.category)[cat] >= 2
  {
    var s := t.items[Key(data.pk, data.sk)].service;
    assert multiset(s.category + [cat]) == multiset(s.category) + multiset{cat};
  }

  /** No service at the record's keys: the update expression fails and nothing changes. */
  lemma CategoryAppendNeedsService(env: Env, t: Table, cat: Category, data: StreamData)
    requires Key(data.pk, data.sk) !in t.items || !t.items[Key(data.pk, data.sk)].ServiceItem?
    requires !env.fault(UpdateItem(Key(data.pk, data.sk)))
    ensures AppendCategory(env, t, cat, data) == Written(t, Some(MissingAttribute("category")))
  {
  }

  // ---------------------------------------------------------------- rule dispatch

  /** CONTAIN and RELATION rules are both decided by `IsTagValueFound`; any other operation never matches. */
  lemma RuleOperationsDispatch(env: Env, data: StreamData, rule: Rule)
    ensures rule.operation == "CONTAIN" || rule.operation == "RELATION" ==> RuleMatches(env, data, rule) == env.tagValueFound(data, rule)
    ensures rule.operation != "CONTAIN" && rule.operation != "RELATION" ==> !RuleMatches(env, data, rule)
  {
  }
}
