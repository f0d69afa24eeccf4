# auto-tagging-mds — a verified model of the single-table store and its change streams

auto-tagging-mds is a serverless back end that keeps services, companies, tags and rules in
one DynamoDB table. Every item sits under a partition key such as `SR#` and a sort key derived
from the item's identifying fields: the name for services and companies, key and value for
tags, and rule attributes (tag key, tag value, metadata field, operation) for rules. Two
stream handlers react to changes in that table and run tag analysis on services. This project models three parts in Dafny:

- **The key codec** (`KeyCodec`, from `utils/helper.go`): the three-character prefix per kind,
  the optional `#value` suffix of tag keys, and what that shape guarantees.
- **The repository** over one table (`Store` and `Repository`, from
  `database/dynamodb/dynamodb.go`).
  - The table is a map from `(PK, SK)` to an item. It carries the order in which queries
    return items.
  - Every store request may fail. A fault oracle in `Env` decides which requests do.
  - `Store` gives each repository operation as a function from the old table to the new
    table and the error.
  - The class `Repository.Database` holds the table in fields and changes it request by
    request. The methods that have a matching `Store` function are proved to end in exactly
    the state, and return the result, that function describes. `GetTag`, `CreateTag` and
    `AttachTagWithService` have no such function: their contracts state the result and the
    new state directly.
  - `StoreFacts` proves what the source promises about those functions.
  - `createTagResponse` is the grouping loop in `TagGrouping`. It is proved to emit one group
    per distinct key, with the values in input order.
- **The two change-stream handlers** (`ChangeStream`, from `streams/main.go`, and
  `ServiceStream`, from `streams/service/main.go`).
  - The repository behind them is a `Backend` that logs each call and answers it through a
    reply oracle.
  - Each handler is a class method. It is proved equal to a pure function that says which
    call each record triggers and where the batch stops.

Helpers whose bodies are not part of this model become function-valued parameters. These are
`GetRangeKey` (`Env.rangeKey`), `IsTagValueFound` (`Env.tagValueFound`), `GetEntityType`
(`ChangeStream.Env.entityType`) and attribute unmarshalling (the `decode` parameters). The
clock (`DateString`) and uuid generation (`GetUUID`) become the `now` and `uuid` parameters.

Where the code disagrees with its own interface, the model follows the code:

- `GetPartitionKey` takes three arguments, but the repository calls it with one
  (`database/dynamodb/dynamodb.go:61`). The model reads that call as
  `PartitionKey(kind, "", "")`, which gives `SR#`, `CM#` and `TG#`.
- `CreateCompany` returns only an error (`database/dynamodb/dynamodb.go:257`), although the
  interface (`database/database.go:12`) declares a pair. The model's `CreateCompany` returns
  only the write result.
- A company is written with `service_list` as a list of uuid strings
  (`database/models/models.go:119`), but `GetCompany` and `GetCompanyByUUID` unmarshal it into
  a list of `{uuid, service_name}` records (`database/models/models.go:128`). A string does not
  unmarshal into a record, so a company that subscribes to any service cannot be read back.
  The model follows this: `Store.AsCompany` fails for such a company, a fresh create under its
  name fails with that error instead of "Company already exist", and an update by its uuid fails
  the same way.
- The inventory handler passes a `ServiceRequest` where the interface takes `StreamData`
  (`streams/service/main.go:78`). This call is kept as its own call kind,
  `AttachTagWithServiceRequest`.

## Model

| member | source | states |
|---|---|---|
| KeyCodec.PartitionKey | utils/helper.go:21-38 | the key is non-empty exactly for the four entity codes 0..3, and then starts with that kind's three-character prefix |
| KeyCodec.PartitionKeyName | utils/helper.go:40-42 | the partition attribute is always named "PK" (a constant; its contract is the definition) |
| KeyCodec.ValueIgnoredOutsideTags | utils/helper.go:24-27 | for services, companies and rules the value argument does not change the key |
| KeyCodec.TagValueSuffix | utils/helper.go:28-33 | a tag key with a non-empty value is the value-less key, then `#`, then the value |
| KeyCodec.ValuelessTagKeyIsPrefix | utils/helper.go:28-33 | the value-less tag key of a name is a prefix of that name's tag key with any value, which the `begins_with` lookup relies on |
| KeyCodec.PrefixMatchesLongerNames | utils/helper.go:28-33 | one example, not a general property: the value-less key for "a" is also a prefix of the key for "ab", so a prefix lookup is not name-exact |
| KeyCodec.KindsNeverCollide | utils/helper.go:23-36 | keys of two different known kinds are never equal, whatever the names and values |
| KeyCodec.NameRecovered | utils/helper.go:24-35 | for services, companies and rules, and for a tag without a value, dropping the first three characters gives the name back |
| KeyCodec.NameInjective | utils/helper.go:24-27 | those keys are injective in the name |
| KeyCodec.TagKeyInjective | utils/helper.go:28-33 | tag keys are injective in (name, value) when the name holds no `#` |
| KeyCodec.TagKeyAmbiguous | utils/helper.go:28-33 | without that condition, ("a#b", "c") and ("a", "b#c") share a key |
| TagGrouping.KeysOfMember | database/dynamodb/dynamodb.go:573 | a key is in the map exactly when some input tag carries it |
| TagGrouping.ValuesForEmpty | database/dynamodb/dynamodb.go:573-574 | the values gathered for a key are empty exactly when no tag carries that key |
| TagGrouping.ValuesForConcat | database/dynamodb/dynamodb.go:572-577 | gathering over two runs of tags concatenates the values, so the order is the input order |
| TagGrouping.ValueGroupedUnderKey | database/dynamodb/dynamodb.go:573-574 | every input tag's value appears among the values gathered for its key |
| TagGrouping.CollectValues | database/dynamodb/dynamodb.go:569-577 | the map holds exactly the input's keys, each with its values in input order; the timestamps are the last tag's, or empty for no tags |
| TagGrouping.EmitGroups | database/dynamodb/dynamodb.go:579-588 | one entry per distinct key, no key twice, each with that key's values and the shared timestamps, with as many values in total as input tags |
| TagGrouping.CreateTagResponse | database/dynamodb/dynamodb.go:568-591 | the caller's list is kept as a prefix, followed by exactly one group per distinct key whose values total the input count; no tags gives the list back unchanged |
| Store.Put | database/dynamodb/dynamodb.go:72-80 | a put stores the item under its own key, leaves every other key as it was, and keeps the table well formed |
| Store.Remove | database/dynamodb/dynamodb.go:246-251 | a delete removes the key, leaves every other key as it was, and keeps the table well formed |
| Store.StorePut | database/dynamodb/dynamodb.go:77-80 | a `PutItem` either fails and changes nothing, or succeeds and stores the item under its key |
| Store.StoreDelete | database/dynamodb/dynamodb.go:246-251 | a `DeleteItem` either fails and changes nothing, or succeeds and removes the key |
| Store.GetService | database/dynamodb/dynamodb.go:119-151 | fails exactly when the request fails; an absent name gives the zero service, and a stored service is read back as stored |
| Store.GetServiceByUUID | database/dynamodb/dynamodb.go:153-189 | fails exactly when the query fails; a named result is the service reading of a stored item that carries the uuid; with no such item the result is the zero service |
| Store.GetCompany | database/dynamodb/dynamodb.go:347-391 | fails exactly when the request fails or the item under the name's key is a company with a non-empty service list; a read company always has an empty list, and a stored company is read back without its keys |
| Store.GetCompanyByUUID | database/dynamodb/dynamodb.go:393-426 | fails exactly when the query fails or some item the index lists for the uuid is a company with a non-empty service list; a named result is a stored company carrying the uuid, read back without its keys |
| Store.FirstWithUuid | database/dynamodb/dynamodb.go:174-188 | the result is the first position in query order whose item carries the uuid, and no earlier position does |
| Store.TagsUnder | database/dynamodb/dynamodb.go:631-660 | the query lists every tag item whose sort key begins with the lookup key, and nothing else |
| Store.TagQuery | database/dynamodb/dynamodb.go:626-660 | fails exactly when the query fails; otherwise it lists every `TG#` item whose sort key begins with the lookup key, and only such items |
| Store.CreateService | database/dynamodb/dynamodb.go:44-84 | every outcome keeps the table well formed, and an error leaves it unchanged |
| Store.DeleteService | database/dynamodb/dynamodb.go:227-253 | after a successful delete no item sits under the name's key |
| Store.UpdateService | database/dynamodb/dynamodb.go:191-225 | every outcome keeps the table well formed |
| Store.CreateCompany | database/dynamodb/dynamodb.go:257-298 | every outcome keeps the table well formed, and an error leaves it unchanged; the duplicate check reads through `GetCompany`, so a subscribed company under the name makes it fail (see `StoreFacts.CreateCompanyOverSubscribedFails`) |
| Store.DeleteCompany | database/dynamodb/dynamodb.go:464-490 | after a successful delete no item sits under the name's key |
| Store.UpdateCompany | database/dynamodb/dynamodb.go:428-462 | every outcome keeps the table well formed; the lookup reads through `GetCompanyByUUID`, so a subscribed company cannot be updated (see `StoreFacts.UpdateSubscribedCompanyFails`) |
| Store.DeleteTag | database/dynamodb/dynamodb.go:593-618 | after a successful delete no item sits under the tag's key |
| Store.AppendCategory | database/dynamodb/dynamodb.go:895-930 | the append keeps the table well formed and the query order, and an error leaves the table unchanged |
| StoreFacts.Partitions | database/dynamodb/dynamodb.go:61 | the one-argument partition keys are the constants `SR#`, `CM#` and `TG#` |
| StoreFacts.UuidLookupIsFirstMatch | database/dynamodb/dynamodb.go:153-189 | the uuid-index lookup returns the first item in query order that carries the uuid |
| StoreFacts.UuidLookupMiss | database/dynamodb/dynamodb.go:184-188 | with no item carrying the uuid, the service and company lookups return the empty record |
| StoreFacts.CreateServiceRejectsDuplicate | database/dynamodb/dynamodb.go:47-56 | a fresh create whose name key holds a named service fails with "Service already exist" and writes nothing |
| StoreFacts.FreshCreateStamps | database/dynamodb/dynamodb.go:58-62 | a successful fresh create stores the request with the new uuid, creation time equal to update time, partition `SR#` and the name's sort key |
| StoreFacts.CreateWithUuidWritesAsGiven | database/dynamodb/dynamodb.go:46-80 | a create that carries a uuid skips the check and the stamping and stores the record as given |
| StoreFacts.SecondCreateRejected | database/dynamodb/dynamodb.go:47-56 | after a successful fresh create, a second fresh create of the same name is refused |
| StoreFacts.CreatedServiceFoundByUuid | database/dynamodb/dynamodb.go:58-62 | a freshly created service is what the uuid-index returns for its new uuid |
| StoreFacts.UpdateServiceNotFound | database/dynamodb/dynamodb.go:193-200 | whenever the uuid lookup yields a record without a name (no item carries the uuid, or the one that does is not a service), the update fails with "service not found" and changes nothing |
| StoreFacts.UpdateServiceRenames | database/dynamodb/dynamodb.go:202-218 | a rename deletes the old item, stores the body under the new name's key with the old creation time and `now`, and leaves all other items as they were |
| StoreFacts.UpdateServiceInPlace | database/dynamodb/dynamodb.go:202-218 | an update that keeps the name key deletes nothing and overwrites the item with the body, keeping the old creation time |
| StoreFacts.UpdateWithoutUuidSameNameRejected | database/dynamodb/dynamodb.go:210-218 | a body without a uuid that keeps the name reaches the fresh-create check and fails with "Service already exist" |
| StoreFacts.UpdateWithoutUuidRestamps | database/dynamodb/dynamodb.go:210-218 | a renaming body without a uuid is stored with the new uuid and a creation time of `now`; the old creation time is lost |
| StoreFacts.UpdateServiceLosesRecordOnFailedWrite | database/dynamodb/dynamodb.go:205-222 | when the delete succeeds and the put fails, the update reports the failed put and the old item is gone: the update is not atomic |
| StoreFacts.CreateCompanyRejectsDuplicate | database/dynamodb/dynamodb.go:260-269 | a fresh company create whose name key holds a readable named company fails with "Company already exist" and writes nothing |
| StoreFacts.CreateCompanyOverSubscribedFails | database/dynamodb/dynamodb.go:260-265 | a fresh company create whose name key holds a company with a non-empty service list fails with the unmarshalling error, not "Company already exist", and writes nothing |
| StoreFacts.CreatedCompanyReadBack | database/dynamodb/dynamodb.go:257-298 | a freshly created company is read back by name, stamped and without its keys, when its service list is empty, and cannot be read back at all otherwise |
| StoreFacts.FreshCompanyCreateStamps | database/dynamodb/dynamodb.go:271-275 | a successful fresh company create stores the request with the new uuid, `now` twice, partition `CM#` and the name's sort key |
| StoreFacts.UpdateCompanyNotFound | database/dynamodb/dynamodb.go:430-437 | whenever the uuid lookup yields a record without a company name, the update fails with "company not found" and changes nothing |
| StoreFacts.UpdateSubscribedCompanyFails | database/dynamodb/dynamodb.go:430-433 | when any item carrying the uuid is a company with a non-empty service list, the update fails with the unmarshalling error and changes nothing |
| StoreFacts.UpdateCompanyRenames | database/dynamodb/dynamodb.go:439-455 | once the uuid lookup has read a named company (so no subscribed company carries the uuid), a rename deletes the old item and stores the body under the new key with the old creation time |
| StoreFacts.UpdateCompanyInPlace | database/dynamodb/dynamodb.go:439-455 | once the uuid lookup has read a named company, an update that keeps the name key overwrites the item in place with the old creation time |
| StoreFacts.TagLookupKeyIsStoredKey | database/dynamodb/dynamodb.go:629-635 | a check of the definitions, not a property: both branches of the lookup-key choice give the sort key a tag is stored under |
| StoreFacts.StoredTagFound | database/dynamodb/dynamodb.go:498-531 | after a tag is stored, the query for its key and value lists it with the stored timestamps |
| StoreFacts.CategoryAppended | database/dynamodb/dynamodb.go:898-925 | a successful append adds exactly `{key, value}` at the end of the service's category list, changes no other attribute and no other item |
| StoreFacts.CategoryAppendKeepsDuplicates | database/dynamodb/dynamodb.go:898-925 | an already listed category is appended again: there is no duplicate check |
| StoreFacts.CategoryAppendNeedsService | database/dynamodb/dynamodb.go:898-925 | with no service at the record's keys, the update expression fails and nothing changes |
| Store.RuleMatches | database/dynamodb/dynamodb.go:874-882 | a rule matches only when its operation is CONTAIN or RELATION and `IsTagValueFound` agrees |
| StoreFacts.RuleOperationsDispatch | database/dynamodb/dynamodb.go:874-882 | the converse case split of the dispatch, close to its definition: CONTAIN and RELATION are both decided by `IsTagValueFound`; SUBSCRIPTION_COUNT and unknown operations never match |
| Repository.Database.WriteItem | database/dynamodb/dynamodb.go:72-80 | the new state and result are exactly `Store.StorePut` of the old state |
| Repository.Database.RemoveItem | database/dynamodb/dynamodb.go:230-251 | the new state and result are exactly `Store.StoreDelete` of the old state |
| Repository.Database.CreateService | database/dynamodb/dynamodb.go:44-84 | the new state, stored record and result are exactly `Store.CreateService` of the old state |
| Repository.Database.DeleteService | database/dynamodb/dynamodb.go:227-253 | the new state and result are exactly `Store.DeleteService` of the old state |
| Repository.Database.UpdateService | database/dynamodb/dynamodb.go:191-225 | the new state and result are exactly `Store.UpdateService` of the old state |
| Repository.Database.CreateCompany | database/dynamodb/dynamodb.go:257-298 | the new state and result are exactly `Store.CreateCompany` of the old state, including its failure over a subscribed company |
| Repository.Database.DeleteCompany | database/dynamodb/dynamodb.go:464-490 | the new state and result are exactly `Store.DeleteCompany` of the old state |
| Repository.Database.UpdateCompany | database/dynamodb/dynamodb.go:428-462 | the new state and result are exactly `Store.UpdateCompany` of the old state, including its failure for a subscribed company |
| Repository.Database.GetTag | database/dynamodb/dynamodb.go:620-668 | a failed query is passed on; no matching tags give the empty group; otherwise the result is a group of the matching tags, for one of their keys |
| Repository.Database.CreateTag | database/dynamodb/dynamodb.go:498-531 | a failed lookup is passed on with no write; no match stores the tag stamped with `now`; matches with non-empty keys fail with "Tag already exist" and change nothing |
| Repository.Database.DeleteTag | database/dynamodb/dynamodb.go:593-618 | the new state and result are exactly `Store.DeleteTag` of the old state |
| Repository.Database.AttachTagWithService | database/dynamodb/dynamodb.go:868-893 | always nil and no write; the decision for each rule, in order, is `IsTagValueFound` for CONTAIN and RELATION and false otherwise |
| Repository.Database.UpdateCategoryInService | database/dynamodb/dynamodb.go:895-930 | the new state and result are exactly `Store.AppendCategory` of the old state |
| ChangeStream.Trigger | streams/main.go:84-147 | a call is made only for INSERT or MODIFY of a service, rule or company; it carries the new image and the batch's rule or service snapshot |
| ChangeStream.RecordStep | streams/main.go:64-147 | a record whose new or old image cannot be decoded returns that error (the new image's first); a decodable record never returns, and any call it makes is for an INSERT or MODIFY and carries the snapshot |
| ChangeStream.Run | streams/main.go:60-149 | at most one call per record, appended in record order, each with the snapshot; an early return always carries an error |
| ChangeStream.HandlerOutcome | streams/main.go:44-150 | the handler only appends calls, and returns an error only when both snapshot reads succeeded |
| ChangeStream.FetchFailureHandlesNothing | streams/main.go:48-56 | if either snapshot read fails, the handler returns nil and makes no call |
| ChangeStream.RunSplit | streams/main.go:60-148 | records are handled strictly in delivery order: a batch runs as its first part, then the rest unless the first part returned |
| ChangeStream.DecodeFailureStopsBatch | streams/main.go:71-81 | a record whose new or old image cannot be decoded ends the batch with that error; later records are not handled |
| ChangeStream.CallErrorStopsBatch | streams/main.go:91-94 | a call answered with an error ends the batch with that error, after the call |
| ChangeStream.ServiceModifyIffDescriptionChanged | streams/main.go:87-95 | a service MODIFY calls `AttachTagWithService` with the new image if and only if the description changed |
| ChangeStream.ServiceInsertAttaches | streams/main.go:114-120 | a service INSERT always calls `AttachTagWithService` with the new image and the rule snapshot |
| ChangeStream.RuleAndCompanyCalls | streams/main.go:96-134 | rule INSERT and MODIFY call `ProcessRuleForServices` with the services; company INSERT and MODIFY call `UpdateServiceTagForSubscriberCount` with the rules |
| ChangeStream.QuietRecords | streams/main.go:104-147 | tag records, REMOVE records and unknown event names make no call |
| ChangeStream.QuietBatch | streams/main.go:60-149 | with decodable images and nil replies, the whole batch is handled, returns nil, and makes exactly the triggered calls in order |
| ChangeStream.StreamSvc.StreamHandler | streams/main.go:44-150 | the calls made and the result are exactly `HandlerOutcome` of the batch |
| ServiceStream.InventoryStep | streams/service/main.go:53-82 | as written: an undecodable new image returns its error; a decodable MODIFY always returns nil; only an INSERT calls `AttachTagWithService`, with the decoded service and the rules |
| ServiceStream.InventoryRun | streams/service/main.go:50-84 | at most one call per record, in record order, each `AttachTagWithService` with the rule snapshot |
| ServiceStream.InventoryOutcome | streams/service/main.go:45-48 | a failed rules read returns nil with no call |
| ServiceStream.InventorySplit | streams/service/main.go:50-83 | records are handled strictly in delivery order |
| ServiceStream.FirstModifyEndsBatch | streams/service/main.go:66-74 | as written, the first decodable MODIFY returns nil with no call, and every later record is skipped |
| ServiceStream.NewImageFailureStopsInventory | streams/service/main.go:59-63 | a new image that cannot be decoded ends the batch with that error |
| ServiceStream.InsertAttaches | streams/service/main.go:77-81 | an INSERT calls `AttachTagWithService` with the decoded service and the rules; an error from it ends the batch |
| ServiceStream.OtherEventsSkipped | streams/service/main.go:65-82 | REMOVE and other event names make no call, and the loop goes on |
| ServiceStream.IntendedRun | streams/service/main.go:50-84 | the corrected loop: at most one call per record, and an early return always carries an error |
| ServiceStream.IntendedStepWants | streams/service/main.go:59-81 | on a decodable record, the corrected step never returns and calls `AttachTagWithService` with the decoded service exactly for an INSERT or a MODIFY whose description changed |
| ServiceStream.IntendedBatchCalls | streams/service/main.go:50-84 | the corrected handler handles the whole batch and makes one call per INSERT and per MODIFY whose description changed, in order |
| ServiceStream.ChangedDescriptionIgnored | streams/service/main.go:66-81 | on a description-changing MODIFY followed by an INSERT, the code as written makes no call, while the corrected one makes both |
| ServiceStream.ServiceSvc.Inventory | streams/service/main.go:42-85 | the calls made and the result are exactly `InventoryOutcome` of the batch, as written |

## Left out

- The AWS SDK and attribute marshalling are not modelled. Each request is one step on the
  table, and its failure is the `Env.fault` oracle. This oracle also stands for marshalling and
  unmarshalling errors, and for the expression-builder errors.
- `NilToEmptySlice` only changes how an empty list is encoded, so the model does not show it.
- The HTTP handlers under `api/` are not modelled. They frame single repository calls.
- `DateString` and `GetUUID` are not modelled. Each call receives one `now` and one `uuid` as
  parameters.
- `Recover`, `log.Fatal`, `lambda.Start`, `initSvc` and environment lookups are process
  plumbing and are not modelled.
- `GetRangeKey`, `GetEntityType`, `IsTagValueFound` and the image decoders are parameters.
  Their bodies are not part of this model. The prefix facts are proved for `GetPartitionKey`
  only.
- The `projection` argument of `GetServiceByUUID` is not modelled. Every caller in the core
  passes nil.
- The enrichment loop in `GetCompany` (`database/dynamodb/dynamodb.go:378-388`) is not
  modelled. It refreshes each listed service's name through the uuid-index. In the model a
  company is read back only with an empty service list, so the loop would have nothing to do.
- The `uuid-index` is a global secondary index, which DynamoDB keeps eventually consistent. The
  model reads it as if it were updated with every write, so `StoreFacts.CreatedServiceFoundByUuid`
  and the lookups in `UpdateService` and `UpdateCompany` assume read-after-write consistency.
- Queries are not paged. The model treats every query result as one complete page, and the
  source reads only the first page it gets back.
- `GetAll*` and the rule CRUD operations are not modelled. They are outside the named core.
- `ProcessRuleForServices` and `UpdateServiceTagForSubscriberCount` have no implementation in
  the source. They appear only as calls that the handlers make.
- The model returns query results in insertion order, where DynamoDB returns them in sort-key
  order. "The first match" of the uuid-index refers to the model's order. This order also
  decides the order of the values in the group `Repository.Database.GetTag` returns, and which
  tag counts as the last one, whose timestamps `TagGrouping.CollectValues` keeps.
- Concurrency, at-least-once delivery and concurrent handler invocations are not modelled.
- Repository.Database.GetTag: the contract says the group returned belongs to one of the
  matching keys, not to which one. Go's map iteration order is unspecified, so the model picks
  it with `:|`.
- Repository.Database.AttachTagWithService: the per-rule decisions are returned so the contract
  can state them. The source computes them and discards them.

## Findings

| source | as written | input that shows it | evidently intended | confidence | as-written member | corrected member |
|---|---|---|---|---|---|---|
| streams/service/main.go:66-74 | the "old" service of a MODIFY is decoded from `NewImage`, so the two descriptions always compare equal and the handler returns nil at the first MODIFY | a batch holding a MODIFY whose description changed, then an INSERT: no call is made and the INSERT is never handled | decode the old service from `OldImage` and call `AttachTagWithService` when the description changed; an unchanged MODIFY moves on to the next record, as `streams/main.go:89` does | high for the image, medium for return-versus-continue; not executed | ServiceStream.FirstModifyEndsBatch | ServiceStream.IntendedBatchCalls |
