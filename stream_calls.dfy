/**
 * What the change-stream handlers see of the outside world: the records of a DynamoDB
 * stream event (database/models/models.go) and the repository behind the `database.Database`
 * interface, reduced to the calls the handlers make and the replies they get.
 */
module StreamCalls {
  import opened Wrappers
  import opened Models

  /**
   * A stream image: attribute name to attribute value. Values are kept as uninterpreted strings;
   * only the decoding functions handed to the handlers interpret them.
   */
  type Image = map<string, string>

  /** One stream record: its event name ("INSERT", "MODIFY", "REMOVE") and its two images. */
  datatype StreamRecord = StreamRecord(eventName: string, newImage: Image, oldImage: Image)

  /** A repository call made by a handler for one record. */
  datatype Call =
    | AttachTagWithService(data: StreamData, rules: seq<Rule>)
      /** The inventory handler passes the decoded `ServiceRequest` itself. */
    | AttachTagWithServiceRequest(service: Service, rules: seq<Rule>)
    | ProcessRuleForServices(data: StreamData, services: seq<Service>)
    | UpdateServiceTagForSubscriberCount(data: StreamData, rules: seq<Rule>)

  /** What a handler does with one record: nothing, one call, or return from the handler. */
  datatype Step = Skip | Invoke(call: Call) | Return(err: Option<Error>)

  /**
   * How a batch ends: every record handled (`Completed`), or an early `return` with `err`;
   * either way with the calls made, in order, after those already in the log.
   */
  datatype Outcome = Completed(log: seq<Call>) | Returned(log: seq<Call>, err: Option<Error>)
  {
    /** The handler's result: nil when the loop ran to its end. */
    function Err(): Option<Error>
    {
      if Completed? then None else err
    }
  }

  /** How the repository answers a call, given the calls it has answered before. */
  type Replies = (seq<Call>, Call) -> Option<Error>

  /** A repository that answers every call with nil. */
  ghost predicate NeverFails(reply: Replies)
  {
    forall h: seq<Call>, c: Call :: reply(h, c).None?
  }

  /**
   * The repository as the handlers use it: the two snapshot reads (`GetAllRules`,
   * `GetAllServices`) whose results are fixed for one invocation, and a log of the calls
   * made so far, each answered by `reply`.
   */
  class Backend {
    var log: seq<Call>
    const reply: Replies
    const allRules: Result<seq<Rule>, Error>
    const allServices: Result<seq<Service>, Error>

    constructor (reply: Replies, allRules: Result<seq<Rule>, Error>, allServices: Result<seq<Service>, Error>)
      ensures log == [] && this.reply == reply
      ensures this.allRules == allRules && this.allServices == allServices
    {
      log := [];
      this.reply := reply;
      this.allRules := allRules;
      this.allServices := allServices;
    }

    method GetAllRules() returns (r: Result<seq<Rule>, Error>)
      ensures r == allRules
    {
      r := allRules;
    }

    method GetAllServices() returns (r: Result<seq<Service>, Error>)
      ensures r == allServices
    {
      r := allServices;
    }

    /** Make one call: it is logged, and answered according to the calls before it. */
    method Invoke(c: Call) returns (err: Option<Error>)
      modifies this
      ensures log == old(log) + [c]
      ensures err == reply(old(log), c)
    {
      err := reply(log, c);
      log := log + [c];
    }
  }
}
