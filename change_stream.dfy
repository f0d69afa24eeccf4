/**
 * The main change-stream handler (`streamHandler`, streams/main.go): after one snapshot read
 * of all rules and all services, it walks the batch in delivery order, decodes both images
 * of each record, and dispatches on (event name, entity kind of the new image's `PK`).
 */
module ChangeStream {
  import opened Wrappers
  import opened Models
  import opened StreamCalls
  import KeyCodec

  /**
   * The helpers the handler relies on but whose bodies are not part of this model:
   * `dynamodbattribute.UnmarshalMap` into `StreamData`, and `utils.GetEntityType`.
   */
  datatype Env = Env(decode: Image -> Result<StreamData, Error>, entityType: string -> int)

  /** Whether `c` is one of the calls this handler makes, carrying the batch's snapshot. */
  predicate UsesSnapshot(c: Call, rules: seq<Rule>, services: seq<Service>)
  {
    match c
    case AttachTagWithService(_, rs) => rs == rules
    case ProcessRuleForServices(_, ss) => ss == services
    case UpdateServiceTagForSubscriberCount(_, rs) => rs == rules
    case AttachTagWithServiceRequest(_, _) => false
  }

  /** The repository call the (event name, entity kind) switch makes for one decoded record. */
  function Trigger(eventName: string, entity: int, oldData: StreamData, newData: StreamData,
                   rules: seq<Rule>, services: seq<Service>): (c: Option<Call>)
    ensures c.Some? ==> (eventName == "MODIFY" || eventName == "INSERT") && UsesSnapshot(c.value, rules, services)
    ensures c.Some? ==> entity == KeyCodec.SERVICE || entity == KeyCodec.RULE || entity == KeyCodec.COMPANY
    ensures c.Some? && c.value.AttachTagWithService? ==> c.value.data == newData
    ensures c.Some? && c.value.ProcessRuleForServices? ==> c.value.data == newData
    ensures c.Some? && c.value.UpdateServiceTagForSubscriberCount? ==> c.value.data == newData
  {
    match eventName
    case "MODIFY" =>
      if entity == KeyCodec.SERVICE then
        if oldData.description != newData.description then Some(AttachTagWithService(newData, rules)) else None
      else if entity == KeyCodec.RULE then Some(ProcessRuleForServices(newData, services))
      else if entity == KeyCodec.COMPANY then Some(UpdateServiceTagForSubscriberCount(newData, rules))
      else None
    case "INSERT" =>
      if entity == KeyCodec.SERVICE then Some(AttachTagWithService(newData, rules))
      else if entity == KeyCodec.RULE then Some(ProcessRuleForServices(newData, services))
      else if entity == KeyCodec.COMPANY then Some(UpdateServiceTagForSubscriberCount(newData, rules))
      else None
    case _ => None
  }

  /** One record: decode the new image, then the old one, then dispatch. */
  function RecordStep(env: Env, r: StreamRecord, rules: seq<Rule>, services: seq<Service>): (s: Step)
    ensures env.decode(r.newImage).Failure? ==> s == Return(Some(env.decode(r.newImage).error))
    ensures env.decode(r.newImage).Success? && env.decode(r.oldImage).Failure? ==> s == Return(Some(env.decode(r.oldImage).error))
    ensures s.Return? <==> env.decode(r.newImage).Failure? || env.decode(r.oldImage).Failure?
    ensures s.Invoke? ==> (r.eventName == "MODIFY" || r.eventName == "INSERT") && UsesSnapshot(s.call, rules, services)
  {
    match env.decode(r.newImage)
    case Failure(e) => Return(Some(e))
    case Success(newData) =>
      match env.decode(r.oldImage)
      case Failure(e) => Return(Some(e))
      case Success(oldData) =>
        match Trigger(r.eventName, env.entityType(newData.pk), oldData, newData, rules, services)
        case None => Skip
        case Some(c) => Invoke(c)
  }

  /**
   * The loop over `records`, starting from the calls already in `log`: at most one call per
   * record, appended in record order, each carrying the snapshot; the batch ends at the first
   * decode failure or the first call answered with an error.
   */
  function Run(env: Env, reply: Replies, records: seq<StreamRecord>, rules: seq<Rule>,
               services: seq<Service>, log: seq<Call>): (o: Outcome)
    ensures log <= o.log && |o.log| <= |log| + |records|
    ensures forall i :: |log| <= i < |o.log| ==> UsesSnapshot(o.log[i], rules, services)
    ensures o.Returned? ==> o.err.Some?
    decreases |records|
  {
    if records == [] then Completed(log)
    else
      match RecordStep(env, records[0], rules, services)
      case Return(err) => Returned(log, err)
      case Skip => Run(env, reply, records[1..], rules, services, log)
      case Invoke(c) =>
        if reply(log, c).Some? then Returned(log + [c], reply(log, c))
        else Run(env, reply, records[1..], rules, services, log + [c])
  }

  /** The whole handler: a failed snapshot read ends it with nil before any record is handled. */
  function HandlerOutcome(env: Env, reply: Replies, records: seq<StreamRecord>,
                          allRules: Result<seq<Rule>, Error>, allServices: Result<seq<Service>, Error>,
                          log: seq<Call>): (o: Outcome)
    ensures log <= o.log
    ensures o.Err().Some? ==> allRules.Success? && allServices.Success?
  {
    if allRules.Failure? then Returned(log, None)
    else if allServices.Failure? then Returned(log, None)
    else Run(env, reply, records, allRules.value, allServices.value, log)
  }

  // ------------------------------------------------------------ properties

  /** A failed read of the rules or of the services leaves every record unhandled. */
  lemma FetchFailureHandlesNothing(env: Env, reply: Replies, records: seq<StreamRecord>,
                                   allRules: Result<seq<Rule>, Error>, allServices: Result<seq<Service>, Error>,
                                   log: seq<Call>)
    requires allRules.Failure? || allServices.Failure?
    ensures HandlerOutcome(env, reply, records, allRules, allServices, log) == Returned(log, None)
  {
  }

  /** Records are handled strictly in order: a batch is its first part, then (unless that returned) the rest. */
  lemma {:induction false} RunSplit(env: Env, reply: Replies, a: seq<StreamRecord>, b: seq<StreamRecord>,
                                    rules: seq<Rule>, services: seq<Service>, log: seq<Call>)
    ensures Run(env, reply, a + b, rules, services, log) ==
      (var first := Run(env, reply, a, rules, services, log);
       if first.Returned? then first else Run(env, reply, b, rules, services, first.log))
    decreases |a|
  {
    if a == [] {
      assert a + b == b;
    } else {
      assert (a + b)[0] == a[0];
      assert (a + b)[1..] == a[1..] + b;
      match RecordStep(env, a[0], rules, services)
      case Return(err) =>
      case Skip =>
        RunSplit(env, reply, a[1..], b, rules, services, log);
      case Invoke(c) =>
        if reply(log, c).None? {
          RunSplit(env, reply, a[1..], b, rules, services, log + [c]);
        }
    }
  }

  /** A record whose new or old image cannot be decoded ends the batch with that error. */
  lemma DecodeFailureStopsBatch(env: Env, reply: Replies, before: seq<StreamRecord>, r: StreamRecord,
                                after: seq<StreamRecord>, rules: seq<Rule>, services: seq<Service>, log: seq<Call>)
    requires Run(env, reply, before, rules, services, log).Completed?
    requires env.decode(r.newImage).Failure? || env.decode(r.oldImage).Failure?
    ensures Run(env, reply, before + [r] + after, rules, services, log) ==
      Returned(Run(env, reply, before, rules, services, log).log,
               Some(if env.decode(r.newImage).Failure? then env.decode(r.newImage).error else env.decode(r.oldImage).error))
  {
    assert before + [r] + after == before + ([r] + after);
    RunSplit(env, reply, before, [r] + after, rules, services, log);
    assert ([r] + after)[0] == r;
  }

  /** A call answered with an error ends the batch with that error, after logging the call. */
  lemma CallErrorStopsBatch(env: Env, reply: Replies, before: seq<StreamRecord>, r: StreamRecord,
                            after: seq<StreamRecord>, rules: seq<Rule>, services: seq<Service>, log: seq<Call>)
    requires Run(env, reply, before, rules, services, log).Completed?
    requires RecordStep(env, r, rules, services).Invoke?
    requires reply(Run(env, reply, before, rules, services, log).log, RecordStep(env, r, rules, services).call).Some?
    ensures Run(env, reply, before + [r] + after, rules, services, log) ==
      Returned(Run(env, reply, before, rules, services, log).log + [RecordStep(env, r, rules, services).call],
               reply(Run(env, reply, before, rules, services, log).log, RecordStep(env, r, rules, services).call))
  {
    assert before + [r] + after == before + ([r] + after);
    RunSplit(env, reply, before, [r] + after, rules, services, log);
    assert ([r] + after)[0] == r;
  }

  /** A decoded SERVICE MODIFY calls `AttachTagWithService` exactly when the description changed. */
  lemma ServiceModifyIffDescriptionChanged(env: Env, r: StreamRecord, rules: seq<Rule>, services: seq<Service>)
    requires r.eventName == "MODIFY"
    requires env.decode(r.newImage).Success? && env.decode(r.oldImage).Success?
    requires env.entityType(env.decode(r.newImage).value.pk) == KeyCodec.SERVICE
    ensures RecordStep(env, r, rules, services).Invoke? <==>
      env.decode(r.oldImage).value.description != env.decode(r.newImage).value.description
    ensures RecordStep(env, r, rules, services).Invoke? ==>
      RecordStep(env, r, rules, services).call == AttachTagWithService(env.decode(r.newImage).value, rules)
  {
  }

  /** A decoded SERVICE INSERT always calls `AttachTagWithService` with the new image and the rules. */
  lemma ServiceInsertAttaches(env: Env, r: StreamRecord, rules: seq<Rule>, services: seq<Service>)
    requires r.eventName == "INSERT"
    requires env.decode(r.newImage).Success? && env.decode(r.oldImage).Success?
    requires env.entityType(env.decode(r.newImage).value.pk) == KeyCodec.SERVICE
    ensures RecordStep(env, r, rules, services) == Invoke(AttachTagWithService(env.decode(r.newImage).value, rules))
  {
  }

  /** RULE and COMPANY records, on INSERT and MODIFY alike, make their entity's call with the new image. */
  lemma RuleAndCompanyCalls(env: Env, r: StreamRecord, rules: seq<Rule>, services: seq<Service>)
    requires r.eventName == "MODIFY" || r.eventName == "INSERT"
    requires env.decode(r.newImage).Success? && env.decode(r.oldImage).Success?
    ensures env.entityType(env.decode(r.newImage).value.pk) == KeyCodec.RULE ==>
      RecordStep(env, r, rules, services) == Invoke(ProcessRuleForServices(env.decode(r.newImage).value, services))
    ensures env.entityType(env.decode(r.newImage).value.pk) == KeyCodec.COMPANY ==>
      RecordStep(env, r, rules, services) == Invoke(UpdateServiceTagForSubscriberCount(env.decode(r.newImage).value, rules))
  {
  }

  /** TAG records, REMOVE records and unknown event names make no call. */
  lemma QuietRecords(env: Env, r: StreamRecord, rules: seq<Rule>, services: seq<Service>)
    requires env.decode(r.newImage).Success? && env.decode(r.oldImage).Success?
    requires r.eventName !in {"MODIFY", "INSERT"} || env.entityType(env.decode(r.newImage).value.pk) == KeyCodec.TAG
    ensures RecordStep(env, r, rules, services) == Skip
  {
  }

  /** The calls one step makes when its call succeeds. */
  function Emitted(step: Step): seq<Call>
  {
    match step
    case Invoke(c) => [c]
    case _ => []
  }

  /** The calls a batch makes when every image decodes and every call succeeds. */
  function Triggered(env: Env, records: seq<StreamRecord>, rules: seq<Rule>, services: seq<Service>): seq<Call>
    decreases |records|
  {
    if records == [] then []
    else Emitted(RecordStep(env, records[0], rules, services)) + Triggered(env, records[1..], rules, services)
  }

  ghost predicate AllDecode(env: Env, records: seq<StreamRecord>)
  {
    forall i :: 0 <= i < |records| ==> env.decode(records[i].newImage).Success? && env.decode(records[i].oldImage).Success?
  }

  lemma AllDecodeTail(env: Env, records: seq<StreamRecord>)
    requires records != [] && AllDecode(env, records)
    ensures env.decode(records[0].newImage).Success? && env.decode(records[0].oldImage).Success?
    ensures AllDecode(env, records[1..])
  {
    forall i | 0 <= i < |records[1..]|
      ensures env.decode(records[1..][i].newImage).Success? && env.decode(records[1..][i].oldImage).Success?
    {
      assert records[1..][i] == records[i + 1];
    }
  }

  /** A record that decodes and whose call succeeds lets the loop go on to the next record. */
  lemma RunHead(env: Env, reply: Replies, records: seq<StreamRecord>, rules: seq<Rule>, services: seq<Service>, log: seq<Call>)
    requires records != [] && NeverFails(reply)
    requires env.decode(records[0].newImage).Success? && env.decode(records[0].oldImage).Success?
    ensures Run(env, reply, records, rules, services, log) ==
      Run(env, reply, records[1..], rules, services, log + Emitted(RecordStep(env, records[0], rules, services)))
  {
    var step := RecordStep(env, records[0], rules, services);
    assert !step.Return?;
    if step.Invoke? {
      assert reply(log, step.call).None?;
    } else {
      assert log + [] == log;
    }
  }

  /**
   * With every image decodable and a repository that answers nil (as `AttachTagWithService`
   * always does), the whole batch is handled and makes exactly the triggered calls, in order.
   */
  lemma {:induction false} QuietBatch(env: Env, reply: Replies, records: seq<StreamRecord>,
                                      rules: seq<Rule>, services: seq<Service>, log: seq<Call>)
    requires AllDecode(env, records) && NeverFails(reply)
    ensures Run(env, reply, records, rules, services, log) == Completed(log + Triggered(env, records, rules, services))
    decreases |records|
  {
    if records == [] {
      assert log + [] == log;
    } else {
      AllDecodeTail(env, records);
      var head := Emitted(RecordStep(env, records[0], rules, services));
      var rest := Triggered(env, records[1..], rules, services);
      RunHead(env, reply, records, rules, services, log);
      QuietBatch(env, reply, records[1..], rules, services, log + head);
      assert log + head + rest == log + (head + rest);
    }
  }

  /** The handler object: the repository it calls and the helpers it decodes with. */
  class StreamSvc {
    const db: Backend
    const env: Env

    constructor (db: Backend, env: Env)
      ensures this.db == db && this.env == env
    {
      this.db := db;
      this.env := env;
    }

    method StreamHandler(records: seq<StreamRecord>) returns (err: Option<Error>)
      modifies db
      ensures db.log == HandlerOutcome(env, db.reply, records, db.allRules, db.allServices, old(db.log)).log
      ensures err == HandlerOutcome(env, db.reply, records, db.allRules, db.allServices, old(db.log)).Err()
    {
      var rules := db.GetAllRules();
      if rules.Failure? {
        return None;
      }
      var services := db.GetAllServices();
      if services.Failure? {
        return None;
      }
      ghost var log0 := db.log;
      for i := 0 to |records|
        invariant Run(env, db.reply, records, rules.value, services.value, log0) ==
                  Run(env, db.reply, records[i..], rules.value, services.value, db.log)
      {
        var record := records[i];
        assert records[i..][0] == record && records[i..][1..] == records[i + 1..];
        var newData := env.decode(record.newImage);
        if newData.Failure? {
          return Some(newData.error);
        }
        var oldData := env.decode(record.oldImage);
        if oldData.Failure? {
          return Some(oldData.error);
        }
        var entity := env.entityType(newData.value.pk);
        var call: Option<Call> := None;
        match record.eventName {
          case "MODIFY" =>
          if entity == KeyCodec.SERVICE {
            if oldData.value.description != newData.value.description {
              call := Some(AttachTagWithService(newData.value, rules.value));
            }
          } else if entity == KeyCodec.RULE {
            call := Some(ProcessRuleForServices(newData.value, services.value));
          } else if entity == KeyCodec.COMPANY {
            call := Some(UpdateServiceTagForSubscriberCount(newData.value, rules.value));
          }
          case "INSERT" =>
          if entity == KeyCodec.SERVICE {
            call := Some(AttachTagWithService(newData.value, rules.value));
          } else if entity == KeyCodec.RULE {
            call := Some(ProcessRuleForServices(newData.value, services.value));
          } else if entity == KeyCodec.COMPANY {
            call := Some(UpdateServiceTagForSubscriberCount(newData.value, rules.value));
          }
          case _ =>
        }
        if call.Some? {
          var e := db.Invoke(call.value);
          if e.Some? {
            return e;
          }
        }
      }
      err := None;
    }
  }
}
