/**
 * The repository of database/dynamodb/dynamodb.go as pure functions over one table value.
 *
 * The table is a map from physical key to item, plus the order in which a query returns
 * items (`scan`). Every store request may fail; which ones do is given by `Env.fault`, an
 * oracle over the requests, which also stands for a failure to unmarshal the reply. The
 * sort-key builder `GetRangeKey` and the rule matcher `IsTagValueFound` are not part of this
 * model and are carried as functions of the environment.
 */
module Store {
  import opened Wrappers
  import opened Models
  import KeyCodec

  /** What a table item holds: one of the four record kinds. */
  datatype Item =
    | ServiceItem(service: Service)
    | CompanyItem(company: Company)
    | TagItem(tag: Tag)
    | RuleItem(rule: Rule)

  /** The physical key an item is stored under: its own `PK` and `SK` attributes. */
  function KeyOf(item: Item): Key {
    match item
    case ServiceItem(s) => Key(s.pk, s.sk)
    case CompanyItem(c) => Key(c.pk, c.sk)
    case TagItem(g) => Key(g.pk, g.sk)
    case RuleItem(r) => Key(r.pk, r.sk)
  }

  /** The `uuid` attribute the `uuid-index` is built on; tag items have none. */
  function UuidOf(item: Item): Option<string> {
    match item
    case ServiceItem(s) => Some(s.uuid)
    case CompanyItem(c) => Some(c.uuid)
    case TagItem(_) => None
    case RuleItem(r) => Some(r.uuid)
  }

  /**
   * The parts of the environment the repository cannot see: which store requests fail,
   * `GetRangeKey` (entity, name, value, field, operation) and `IsTagValueFound`.
   */
  datatype Env = Env(
    fault: Op -> bool,
    rangeKey: (int, string, string, string, string) -> string,
    tagValueFound: (StreamData, Rule) -> bool)

  datatype Table = Table(items: map<Key, Item>, scan: seq<Key>)

  predicate NoDuplicates(keys: seq<Key>) {
    forall i, j :: 0 <= i < j < |keys| ==> keys[i] != keys[j]
  }

  /** Every item sits under its own key, and the query order lists each stored key once. */
  ghost predicate WellFormed(t: Table) {
    && (forall k :: k in t.items ==> KeyOf(t.items[k]) == k)
    && (forall k :: k in t.items <==> k in t.scan)
    && NoDuplicates(t.scan)
  }

  // ---------------------------------------------------------------- primitive writes

  /** Store `item` under its key; an overwritten item keeps its place in query order, a new one goes last. */
  function Put(t: Table, item: Item): (r: Table)
    ensures KeyOf(item) in r.items && r.items[KeyOf(item)] == item
    ensures forall k :: k != KeyOf(item) ==> (k in r.items <==> k in t.items)
    ensures forall k :: k != KeyOf(item) && k in t.items ==> r.items[k] == t.items[k]
    ensures t.scan <= r.scan
    ensures WellFormed(t) ==> WellFormed(r)
  {
    var k := KeyOf(item);
    Table(t.items[k := item], if k in t.items then t.scan else t.scan + [k])
  }

  /** `keys` with `k` left out, order kept. */
  function Without(keys: seq<Key>, k: Key): (r: seq<Key>)
    ensures forall x :: x in r <==> x in keys && x != k
    ensures NoDuplicates(keys) ==> NoDuplicates(r)
    decreases |keys|
  {
    if keys == [] then []
    else
      var rest := Without(keys[1..], k);
      if keys[0] == k then rest
      else
        assert NoDuplicates(keys) ==> keys[0] !in rest;
        [keys[0]] + rest
  }

  /** Drop the item under `k`, if any. */
  function Remove(t: Table, k: Key): (r: Table)
    ensures k !in r.items
    ensures forall x :: x != k ==> (x in r.items <==> x in t.items)
    ensures forall x :: x != k && x in t.items ==> r.items[x] == t.items[x]
    ensures WellFormed(t) ==> WellFormed(r)
  {
    Table(t.items - {k}, Without(t.scan, k))
  }

  /** The outcome of a write: the new table and the error returned, if any. */
  datatype Written = Written(table: Table, err: Option<Error>)

  /** The `PutItem` request: a failed request leaves the table as it was. */
  function StorePut(env: Env, t: Table, item: Item): (w: Written)
    ensures w.err.None? <==> !env.fault(Op.PutItem(KeyOf(item)))
    ensures w.err.Some? ==> w.table == t && w.err == Some(StoreFailure(Op.PutItem(KeyOf(item))))
    ensures w.err.None? ==> w.table.items == t.items[KeyOf(item) := item]
    ensures WellFormed(t) ==> WellFormed(w.table)
  {
    if env.fault(Op.PutItem(KeyOf(item))) then Written(t, Some(StoreFailure(Op.PutItem(KeyOf(item)))))
    else Written(Put(t, item), None)
  }

  /** The `DeleteItem` request: deleting an absent key succeeds and changes nothing. */
  function StoreDelete(env: Env, t: Table, k: Key): (w: Written)
    ensures w.err.None? <==> !env.fault(Op.DeleteItem(k))
    ensures w.err.Some? ==> w.table == t && w.err == Some(StoreFailure(Op.DeleteItem(k)))
    ensures w.err.None? ==> w.table.items == t.items - {k}
    ensures WellFormed(t) ==> WellFormed(w.table)
  {
    if env.fault(Op.DeleteItem(k)) then Written(t, Some(StoreFailure(Op.DeleteItem(k))))
    else Written(Remove(t, k), None)
  }

  // ---------------------------------------------------------------- keys

  function ServicePartition(): string { KeyCodec.PartitionKey(KeyCodec.SERVICE, "", "") }
  function CompanyPartition(): string { KeyCodec.PartitionKey(KeyCodec.COMPANY, "", "") }
  function TagPartition(): string { KeyCodec.PartitionKey(KeyCodec.TAG, "", "") }

  /** The key `GetService`, `DeleteService` and a fresh `CreateService` use for a name. */
  function ServiceKey(env: Env, name: string): Key {
    Key(ServicePartition(), env.rangeKey(KeyCodec.SERVICE, name, "", "", ""))
  }

  function CompanyKey(env: Env, name: string): Key {
    Key(CompanyPartition(), env.rangeKey(KeyCodec.COMPANY, name, "", "", ""))
  }

  function TagKey(env: Env, key: string, value: string): Key {
    Key(TagPartition(), env.rangeKey(KeyCodec.TAG, key, value, "", ""))
  }

  // ---------------------------------------------------------------- decoding items

  /** An item unmarshalled into the service shape: attributes the item lacks stay zero. */
  function AsService(item: Item): Service {
    match item
    case ServiceItem(s) => s
    case CompanyItem(c) =>
      EmptyService.(pk := c.pk, sk := c.sk, uuid := c.uuid, description := c.description,
                    createdAt := c.createdAt, updatedAt := c.updatedAt)
    case TagItem(g) => EmptyService.(pk := g.pk, sk := g.sk, createdAt := g.createdAt, updatedAt := g.updatedAt)
    case RuleItem(r) => EmptyService.(pk := r.pk, sk := r.sk, uuid := r.uuid, createdAt := r.createdAt, updatedAt := r.updatedAt)
  }

  /**
   * Whether an item unmarshals into the company response shape. A company item stores its
   * `service_list` as a list of uuid strings, but the response shape expects a list of
   * `{uuid, service_name}` records: a string does not unmarshal into a record, so only a
   * company with an empty list can be read back. Other item kinds have no `service_list`.
   */
  predicate CompanyDecodable(item: Item) {
    !(item.CompanyItem? && item.company.serviceList != [])
  }

  /** The error unmarshalling returns for a company whose `service_list` is not empty. */
  const UnreadableServiceList := Undecodable("service_list")

  /** An item unmarshalled into the company response shape, which has no `PK` or `SK`. */
  function AsCompany(item: Item): Result<Company, Error> {
    match item
    case ServiceItem(s) =>
      Success(EmptyCompany.(uuid := s.uuid, description := s.description, createdAt := s.createdAt, updatedAt := s.updatedAt))
    case CompanyItem(c) =>
      if c.serviceList != [] then Failure(UnreadableServiceList) else Success(c.(pk := "", sk := ""))
    case TagItem(g) => Success(EmptyCompany.(createdAt := g.createdAt, updatedAt := g.updatedAt))
    case RuleItem(r) => Success(EmptyCompany.(uuid := r.uuid, createdAt := r.createdAt, updatedAt := r.updatedAt))
  }

  /** An item unmarshalled into the `TagResponse` shape. */
  function AsTagResponse(item: Item): TagResponse {
    match item
    case TagItem(g) => TagResponse(g.key, g.value, g.createdAt, g.updatedAt)
    case ServiceItem(s) => TagResponse("", "", s.createdAt, s.updatedAt)
    case CompanyItem(c) => TagResponse("", "", c.createdAt, c.updatedAt)
    case RuleItem(r) => TagResponse("", "", r.createdAt, r.updatedAt)
  }

  // ---------------------------------------------------------------- reads

  /** `GetService`: the item under the name's key as a service, or the zero service when absent. */
  function GetService(env: Env, t: Table, name: string): (r: Result<Service, Error>)
    ensures r.Failure? <==> env.fault(Op.GetItem(ServiceKey(env, name)))
    ensures r.Success? && ServiceKey(env, name) !in t.items ==> r.value == EmptyService
    ensures r.Success? && ServiceKey(env, name) in t.items && t.items[ServiceKey(env, name)].ServiceItem? ==>
      r.value == t.items[ServiceKey(env, name)].service
  {
    var k := ServiceKey(env, name);
    if env.fault(Op.GetItem(k)) then Failure(StoreFailure(Op.GetItem(k)))
    else if k in t.items then Success(AsService(t.items[k]))
    else Success(EmptyService)
  }

  /**
   * `GetCompany`, without the enrichment of service names (see README): a stored company is
   * read back only when its service list is empty.
   */
  function GetCompany(env: Env, t: Table, name: string): (r: Result<Company, Error>)
    ensures r.Failure? <==>
      env.fault(Op.GetItem(CompanyKey(env, name))) ||
      (CompanyKey(env, name) in t.items && !CompanyDecodable(t.items[CompanyKey(env, name)]))
    ensures r.Success? ==> r.value.serviceList == []
    ensures r.Success? && r.value.name != "" ==>
      CompanyKey(env, name) in t.items && t.items[CompanyKey(env, name)].CompanyItem?
    ensures r.Success? && CompanyKey(env, name) in t.items && t.items[CompanyKey(env, name)].CompanyItem? ==>
      r.value == t.items[CompanyKey(env, name)].company.(pk := "", sk := "")
  {
    var k := CompanyKey(env, name);
    if env.fault(Op.GetItem(k)) then Failure(StoreFailure(Op.GetItem(k)))
    else if k in t.items then AsCompany(t.items[k])
    else Success(EmptyCompany)
  }

  /** The position in query order of the first stored item whose uuid is `uuid`. */
  function FirstWithUuid(items: map<Key, Item>, scan: seq<Key>, uuid: string): (r: Option<nat>)
    ensures r.Some? ==> r.value < |scan| && scan[r.value] in items && UuidOf(items[scan[r.value]]) == Some(uuid)
    ensures forall i :: 0 <= i < |scan| && (r.None? || i < r.value) && scan[i] in items ==>
      UuidOf(items[scan[i]]) != Some(uuid)
    decreases |scan|
  {
    if scan == [] then None
    else if scan[0] in items && UuidOf(items[scan[0]]) == Some(uuid) then Some(0)
    else
      match FirstWithUuid(items, scan[1..], uuid)
      case None => None
      case Some(i) => Some(i + 1)
  }

  /** `GetServiceByUUID`: the first item of the `uuid-index` with that uuid, else the zero service. */
  function GetServiceByUUID(env: Env, t: Table, uuid: string): (r: Result<Service, Error>)
    ensures r.Failure? <==> env.fault(QueryUuid(uuid))
    ensures r.Success? && r.value.name != "" ==>
      exists i :: 0 <= i < |t.scan| && t.scan[i] in t.items && UuidOf(t.items[t.scan[i]]) == Some(uuid) &&
        r.value == AsService(t.items[t.scan[i]])
    ensures r.Success? && (forall k :: k in t.items ==> UuidOf(t.items[k]) != Some(uuid)) ==> r.value == EmptyService
  {
    if env.fault(QueryUuid(uuid)) then Failure(StoreFailure(QueryUuid(uuid)))
    else
      match FirstWithUuid(t.items, t.scan, uuid)
      case None => Success(EmptyService)
      case Some(i) => Success(AsService(t.items[t.scan[i]]))
  }

  /** Some item the `uuid-index` lists for `uuid` does not unmarshal into the company shape. */
  predicate UnreadableCompanyWithUuid(items: map<Key, Item>, scan: seq<Key>, uuid: string) {
    exists i :: 0 <= i < |scan| && scan[i] in items && UuidOf(items[scan[i]]) == Some(uuid) && !CompanyDecodable(items[scan[i]])
  }

  /**
   * `GetCompanyByUUID`: every item the index lists is unmarshalled, so one unreadable item
   * fails the lookup; otherwise the first item in the company shape, else the zero company.
   */
  function GetCompanyByUUID(env: Env, t: Table, uuid: string): (r: Result<Company, Error>)
    ensures r.Failure? <==> env.fault(QueryUuid(uuid)) || UnreadableCompanyWithUuid(t.items, t.scan, uuid)
    ensures r.Success? ==> r.value.serviceList == []
    ensures r.Success? && r.value.name != "" ==>
      exists i :: 0 <= i < |t.scan| && t.scan[i] in t.items && UuidOf(t.items[t.scan[i]]) == Some(uuid) &&
        t.items[t.scan[i]].CompanyItem? && r.value == t.items[t.scan[i]].company.(pk := "", sk := "")
  {
    if env.fault(QueryUuid(uuid)) then Failure(StoreFailure(QueryUuid(uuid)))
    else if UnreadableCompanyWithUuid(t.items, t.scan, uuid) then Failure(UnreadableServiceList)
    else
      match FirstWithUuid(t.items, t.scan, uuid)
      case None => Success(EmptyCompany)
      case Some(i) => AsCompany(t.items[t.scan[i]])
  }

  /** The sort-key prefix `GetTag` queries with; both branches of the source build the same key. */
  function TagLookupKey(env: Env, key: string, value: string): string {
    if value == "" then env.rangeKey(KeyCodec.TAG, key, "", "", "")
    else env.rangeKey(KeyCodec.TAG, key, value, "", "")
  }

  /** The stored items in `partition` whose sort key begins with `prefix`, in query order, as tags. */
  function TagsUnder(items: map<Key, Item>, scan: seq<Key>, partition: string, prefix: string): (r: seq<TagResponse>)
    ensures |r| <= |scan|
    ensures forall k :: k in scan && k in items && k.pk == partition && prefix <= k.sk ==> AsTagResponse(items[k]) in r
    ensures forall x :: x in r ==> exists k :: k in scan && k in items && k.pk == partition && prefix <= k.sk && x == AsTagResponse(items[k])
    decreases |scan|
  {
    if scan == [] then []
    else
      var k := scan[0];
      var rest := TagsUnder(items, scan[1..], partition, prefix);
      if k in items && k.pk == partition && prefix <= k.sk then [AsTagResponse(items[k])] + rest else rest
  }

  /** The query of `GetTag`: partition `TG#` and a sort key beginning with the tag's key. */
  function TagQuery(env: Env, t: Table, key: string, value: string): (r: Result<seq<TagResponse>, Error>)
    ensures r.Failure? <==> env.fault(QueryBeginsWith(TagPartition(), TagLookupKey(env, key, value)))
    ensures r.Success? ==> forall k :: k in t.scan && k in t.items && k.pk == TagPartition() && TagLookupKey(env, key, value) <= k.sk ==>
      AsTagResponse(t.items[k]) in r.value
    ensures r.Success? ==> forall x :: x in r.value ==>
      exists k :: k in t.scan && k in t.items && k.pk == TagPartition() && TagLookupKey(env, key, value) <= k.sk && x == AsTagResponse(t.items[k])
  {
    var prefix := TagLookupKey(env, key, value);
    if env.fault(QueryBeginsWith(TagPartition(), prefix)) then Failure(StoreFailure(QueryBeginsWith(TagPartition(), prefix)))
    else Success(TagsUnder(t.items, t.scan, TagPartition(), prefix))
  }

  // ---------------------------------------------------------------- services

  /** The outcome of `CreateService`: the new table, the record as returned, and the error. */
  datatype ServiceWritten = ServiceWritten(table: Table, service: Service, err: Option<Error>)

  /** The record a fresh create stores: new uuid, both times `now`, keys derived from the name. */
  function StampService(env: Env, s: Service, uuid: string, now: string): Service {
    s.(uuid := uuid, createdAt := now, updatedAt := now, pk := ServicePartition(),
       sk := env.rangeKey(KeyCodec.SERVICE, s.name, "", "", ""))
  }

  /**
   * `CreateService`. Without a uuid the request is fresh: a service already stored under the
   * name's key rejects it, otherwise it is stamped. With a uuid it is written as given.
   */
  function CreateService(env: Env, t: Table, s: Service, uuid: string, now: string): (w: ServiceWritten)
    ensures WellFormed(t) ==> WellFormed(w.table)
    ensures w.err.Some? ==> w.table == t
  {
    if s.uuid == "" then
      match GetService(env, t, s.name)
      case Failure(e) => ServiceWritten(t, s, Some(e))
      case Success(existing) =>
        if existing.name != "" then ServiceWritten(t, s, Some(Rejected(ServiceExists)))
        else
          var stamped := StampService(env, s, uuid, now);
          var w := StorePut(env, t, ServiceItem(stamped));
          ServiceWritten(w.table, stamped, w.err)
    else
      var w := StorePut(env, t, ServiceItem(s));
      ServiceWritten(w.table, s, w.err)
  }

  /** `DeleteService`: delete the item under the name's key. */
  function DeleteService(env: Env, t: Table, name: string): (w: Written)
    ensures w.err.None? ==> ServiceKey(env, name) !in w.table.items
    ensures WellFormed(t) ==> WellFormed(w.table)
  {
    StoreDelete(env, t, ServiceKey(env, name))
  }

  /**
   * `UpdateService`: find the stored service by uuid; when its name key differs from the
   * body's, delete the old item first; then write the body, keeping the prior `CreatedAt`, via
   * `CreateService`. A failed write after the delete does not restore the old item.
   */
  function UpdateService(env: Env, t: Table, body: Service, serviceUuid: string, uuid: string, now: string): (w: Written)
    ensures WellFormed(t) ==> WellFormed(w.table)
  {
    match GetServiceByUUID(env, t, serviceUuid)
    case Failure(e) => Written(t, Some(e))
    case Success(prior) =>
      if prior.name == "" then Written(t, Some(Rejected(ServiceNotFound)))
      else
        var oldKey := env.rangeKey(KeyCodec.SERVICE, prior.name, "", "", "");
        var newKey := env.rangeKey(KeyCodec.SERVICE, body.name, "", "", "");
        var cleared := if oldKey != newKey then DeleteService(env, t, prior.name) else Written(t, None);
        if cleared.err.Some? then cleared
        else
          var record := body.(createdAt := prior.createdAt, updatedAt := now, pk := ServicePartition(), sk := newKey);
          var c := CreateService(env, cleared.table, record, uuid, now);
          Written(c.table, c.err)
  }

  // ---------------------------------------------------------------- companies

  function StampCompany(env: Env, c: Company, uuid: string, now: string): Company {
    c.(uuid := uuid, createdAt := now, updatedAt := now, pk := CompanyPartition(),
       sk := env.rangeKey(KeyCodec.COMPANY, c.name, "", "", ""))
  }

  /** `CreateCompany`: as `CreateService`; it returns only the error. */
  function CreateCompany(env: Env, t: Table, c: Company, uuid: string, now: string): (w: Written)
    ensures WellFormed(t) ==> WellFormed(w.table)
    ensures w.err.Some? ==> w.table == t
  {
    if c.uuid == "" then
      match GetCompany(env, t, c.name)
      case Failure(e) => Written(t, Some(e))
      case Success(existing) =>
        if existing.name != "" then Written(t, Some(Rejected(CompanyExists)))
        else StorePut(env, t, CompanyItem(StampCompany(env, c, uuid, now)))
    else StorePut(env, t, CompanyItem(c))
  }

  function DeleteCompany(env: Env, t: Table, name: string): (w: Written)
    ensures w.err.None? ==> CompanyKey(env, name) !in w.table.items
    ensures WellFormed(t) ==> WellFormed(w.table)
  {
    StoreDelete(env, t, CompanyKey(env, name))
  }

  /** `UpdateCompany`: as `UpdateService`, through the company lookups and writes. */
  function UpdateCompany(env: Env, t: Table, body: Company, companyUuid: string, uuid: string, now: string): (w: Written)
    ensures WellFormed(t) ==> WellFormed(w.table)
  {
    match GetCompanyByUUID(env, t, companyUuid)
    case Failure(e) => Written(t, Some(e))
    case Success(prior) =>
      if prior.name == "" then Written(t, Some(Rejected(CompanyNotFound)))
      else
        var oldKey := env.rangeKey(KeyCodec.COMPANY, prior.name, "", "", "");
        var newKey := env.rangeKey(KeyCodec.COMPANY, body.name, "", "", "");
        var cleared := if oldKey != newKey then DeleteCompany(env, t, prior.name) else Written(t, None);
        if cleared.err.Some? then cleared
        else
          var record := body.(createdAt := prior.createdAt, updatedAt := now, pk := CompanyPartition(), sk := newKey);
          CreateCompany(env, cleared.table, record, uuid, now)
  }

  // ---------------------------------------------------------------- tags

  /** The record `CreateTag` stores: both times `now`, keys from the tag's key and value. */
  function StampTag(env: Env, g: Tag, now: string): Tag {
    g.(createdAt := now, updatedAt := now, pk := TagPartition(), sk := env.rangeKey(KeyCodec.TAG, g.key, g.value, "", ""))
  }

  function DeleteTag(env: Env, t: Table, key: string, value: string): (w: Written)
    ensures w.err.None? ==> TagKey(env, key, value) !in w.table.items
    ensures WellFormed(t) ==> WellFormed(w.table)
  {
    StoreDelete(env, t, TagKey(env, key, value))
  }

  // ---------------------------------------------------------------- rules and categories

  /** The decision `AttachTagWithService` computes for one rule; SUBSCRIPTION_COUNT and unknown operations never match. */
  function RuleMatches(env: Env, data: StreamData, rule: Rule): (m: bool)
    ensures m ==> rule.operation == "CONTAIN" || rule.operation == "RELATION"
    ensures m ==> env.tagValueFound(data, rule)
  {
    if rule.operation == "CONTAIN" || rule.operation == "RELATION" then env.tagValueFound(data, rule)
    else false
  }

  /**
   * `UpdateCategoryInService`: `list_append` one `{key, value}` to the `category` list of the
   * item at the stream record's (PK, SK). An item without that list, or no item at all,
   * makes the update expression fail.
   */
  function AppendCategory(env: Env, t: Table, cat: Category, data: StreamData): (w: Written)
    ensures WellFormed(t) ==> WellFormed(w.table)
    ensures w.err.Some? ==> w.table == t
    ensures w.table.scan == t.scan
  {
    var k := Key(data.pk, data.sk);
    if env.fault(UpdateItem(k)) then Written(t, Some(StoreFailure(UpdateItem(k))))
    else if k !in t.items || !t.items[k].ServiceItem? then Written(t, Some(MissingAttribute("category")))
    else
      var s := t.items[k].service;
      Written(Table(t.items[k := ServiceItem(s.(category := s.category + [cat]))], t.scan), None)
  }
}
