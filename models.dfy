/**
 * The records of the single-table store (database/models/models.go), the physical key of an
 * item, the store operations that may fail, and the error values the repository returns.
 */
module Models {

  /** One `{key, value}` entry of a service's `category` list. */
  datatype Category = Category(key: string, value: string)

  /** A service record; `ServiceRequest` and `ServiceResponse` have the same attributes. */
  datatype Service = Service(
    pk: string, sk: string, uuid: string, name: string,
    description: string, moreAbout: string, category: seq<Category>, like: int,
    stage: string, targetSegment: string, deployment: string, businessModel: string,
    pricing: string, location: string, createdAt: string, updatedAt: string)

  /** What unmarshalling an absent item into the service shape yields: every attribute zero. */
  const EmptyService := Service("", "", "", "", "", "", [], 0, "", "", "", "", "", "", "", "")

  /** A company record; `serviceList` holds the uuids of the services it subscribes to. */
  datatype Company = Company(
    pk: string, sk: string, uuid: string, name: string, description: string,
    serviceList: seq<string>, createdAt: string, updatedAt: string)

  const EmptyCompany := Company("", "", "", "", "", [], "", "")

  /** A registered tag definition (`TagCreateRequest`). */
  datatype Tag = Tag(pk: string, sk: string, key: string, value: string, createdAt: string, updatedAt: string)

  /** A tag item as read back by a query (`TagResponse`). */
  datatype TagResponse = TagResponse(key: string, value: string, createdAt: string, updatedAt: string)

  /** The values of one tag key grouped together (`TagListResponse`). */
  datatype TagListResponse = TagListResponse(key: string, values: seq<string>, createdAt: string, updatedAt: string)

  const EmptyTagList := TagListResponse("", [], "", "")

  /** A rule record (`RuleRequest` / `RuleResponse`). */
  datatype Rule = Rule(
    pk: string, sk: string, uuid: string, operation: string, tagKey: string, tagValue: string,
    metadataField: string, keyword: string, keywordOperator: string, relationalOperator: string,
    operand: int, subscriptionCount: int, coRuleMetadataField: string, coRuleKeyword: string,
    createdAt: string, updatedAt: string)

  /** The loosely typed record a change-stream image is decoded into (`StreamData`). */
  datatype StreamData = StreamData(
    pk: string, sk: string, uuid: string, operation: string, tagKey: string, tagValue: string,
    metadataField: string, keyword: string, keywordOperator: string, relationalOperator: string,
    operand: int, subscriptionCount: int, coRuleMetadataField: string, coRuleKeyword: string,
    key: string, value: string, companyName: string, description: string,
    serviceList: seq<string>, serviceName: string, moreAbout: string, category: seq<Category>,
    like: int, stage: string, targetSegment: string, deployment: string,
    businessModel: string, pricing: string, location: string)

  /** The physical key of an item: partition attribute `PK` and sort attribute `SK`. */
  datatype Key = Key(pk: string, sk: string)

  /** A single request to the store; any of them may fail (network, throttling, unmarshalling). */
  datatype Op =
    | GetItem(key: Key)
    | PutItem(key: Key)
    | DeleteItem(key: Key)
    | UpdateItem(key: Key)
    | QueryUuid(uuid: string)
    | QueryBeginsWith(partition: string, prefix: string)

  datatype Error =
    | StoreFailure(op: Op)          // the store request `op` failed
    | Rejected(message: string)     // an error the repository raises itself
    | MissingAttribute(name: string) // an update expression named an attribute the item lacks
    | Undecodable(reason: string)   // a change-stream image could not be unmarshalled

  const ServiceExists := "Service already exist"
  const ServiceNotFound := "service not found"
  const CompanyExists := "Company already exist"
  const CompanyNotFound := "company not found"
  const TagExists := "Tag already exist"
}
