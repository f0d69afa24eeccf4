/**
 * The service-only stream handler (`inventory`, streams/service/main.go): one snapshot read
 * of all rules, then each record's new image decoded into a `ServiceRequest`; MODIFY falls
 * through to INSERT, which calls `AttachTagWithService` with the decoded service.
 *
 * `InventoryStep`/`InventoryRun` follow the code as written, where the "old" service of a
 * MODIFY is decoded from the new image; `IntendedStep`/`IntendedRun` decode it from the old
 * image and move on to the next record when the description did not change.
 */
module ServiceStream {
  import opened Wrappers
  import opened Models
  import opened StreamCalls

  /** `dynamodbattribute.UnmarshalMap` into the service shape; its body is not part of this model. */
  type Decoder = Image -> Result<Service, Error>

  // ------------------------------------------------------------ as written

  function InventoryStep(decode: Decoder, r: StreamRecord, rules: seq<Rule>): (s: Step)
    ensures decode(r.newImage).Failure? ==> s == Return(Some(decode(r.newImage).error))
    ensures decode(r.newImage).Success? && r.eventName == "MODIFY" ==> s == Return(None)
    ensures s.Invoke? ==> r.eventName == "INSERT" && s.call == AttachTagWithServiceRequest(decode(r.newImage).value, rules)
    ensures decode(r.newImage).Success? && r.eventName == "INSERT" ==> s.Invoke?
  {
    match decode(r.newImage)
    case Failure(e) => Return(Some(e))
    case Success(newService) =>
      match r.eventName
      case "MODIFY" =>
        // the "old" service is decoded from the new image
        (match decode(r.newImage)
         case Failure(e) => Return(Some(e))
         case Success(oldService) =>
           if oldService.description == newService.description then Return(None)
           else Invoke(AttachTagWithServiceRequest(newService, rules)))
      case "INSERT" => Invoke(AttachTagWithServiceRequest(newService, rules))
      case _ => Skip
  }

  function InventoryRun(decode: Decoder, reply: Replies, records: seq<StreamRecord>, rules: seq<Rule>,
                        log: seq<Call>): (o: Outcome)
    ensures log <= o.log && |o.log| <= |log| + |records|
    ensures forall i :: |log| <= i < |o.log| ==> o.log[i].AttachTagWithServiceRequest? && o.log[i].rules == rules
    decreases |records|
  {
    if records == [] then Completed(log)
    else
      match InventoryStep(decode, records[0], rules)
      case Return(err) => Returned(log, err)
      case Skip => InventoryRun(decode, reply, records[1..], rules, log)
      case Invoke(c) =>
        if reply(log, c).Some? then Returned(log + [c], reply(log, c))
        else InventoryRun(decode, reply, records[1..], rules, log + [c])
  }

  /** The whole handler: a failed read of the rules ends it with nil before any record. */
  function InventoryOutcome(decode: Decoder, reply: Replies, records: seq<StreamRecord>,
                            allRules: Result<seq<Rule>, Error>, log: seq<Call>): (o: Outcome)
    ensures log <= o.log
    ensures allRules.Failure? ==> o.log == log && o.Err() == None
  {
    if allRules.Failure? then Returned(log, None)
    else InventoryRun(decode, reply, records, allRules.value, log)
  }

  /** Records are handled strictly in order: a batch is its first part, then (unless that returned) the rest. */
  lemma {:induction false} InventorySplit(decode: Decoder, reply: Replies, a: seq<StreamRecord>, b: seq<StreamRecord>,
                                          rules: seq<Rule>, log: seq<Call>)
    ensures InventoryRun(decode, reply, a + b, rules, log) ==
      (var first := InventoryRun(decode, reply, a, rules, log);
       if first.Returned? then first else InventoryRun(decode, reply, b, rules, first.log))
    decreases |a|
  {
    if a == [] {
      assert a + b == b;
    } else {
      assert (a + b)[0] == a[0];
      assert (a + b)[1..] == a[1..] + b;
      match InventoryStep(decode, a[0], rules)
      case Return(err) =>
      case Skip =>
        InventorySplit(decode, reply, a[1..], b, rules, log);
      case Invoke(c) =>
        if reply(log, c).None? {
          InventorySplit(decode, reply, a[1..], b, rules, log + [c]);
        }
    }
  }

  /**
   * As written, the first decodable MODIFY record ends the batch with nil, whatever its
   * images hold: no call for it, and every later record is skipped.
   */
  lemma FirstModifyEndsBatch(decode: Decoder, reply: Replies, before: seq<StreamRecord>, r: StreamRecord,
                             after: seq<StreamRecord>, rules: seq<Rule>, log: seq<Call>)
    requires InventoryRun(decode, reply, before, rules, log).Completed?
    requires r.eventName == "MODIFY" && decode(r.newImage).Success?
    ensures InventoryRun(decode, reply, before + [r] + after, rules, log) ==
      Returned(InventoryRun(decode, reply, before, rules, log).log, None)
  {
    assert before + [r] + after == before + ([r] + after);
    InventorySplit(decode, reply, before, [r] + after, rules, log);
    assert ([r] + after)[0] == r;
  }

  /** A new image that cannot be decoded ends the batch with that error. */
  lemma NewImageFailureStopsInventory(decode: Decoder, reply: Replies, before: seq<StreamRecord>, r: StreamRecord,
                                      after: seq<StreamRecord>, rules: seq<Rule>, log: seq<Call>)
    requires InventoryRun(decode, reply, before, rules, log).Completed?
    requires decode(r.newImage).Failure?
    ensures InventoryRun(decode, reply, before + [r] + after, rules, log) ==
      Returned(InventoryRun(decode, reply, before, rules, log).log, Some(decode(r.newImage).error))
  {
    assert before + [r] + after == before + ([r] + after);
    InventorySplit(decode, reply, before, [r] + after, rules, log);
    assert ([r] + after)[0] == r;
  }

  /** An INSERT calls `AttachTagWithService` with the decoded service; an error from it ends the batch. */
  lemma InsertAttaches(decode: Decoder, reply: Replies, r: StreamRecord, after: seq<StreamRecord>,
                       rules: seq<Rule>, log: seq<Call>)
    requires r.eventName == "INSERT" && decode(r.newImage).Success?
    ensures InventoryStep(decode, r, rules) == Invoke(AttachTagWithServiceRequest(decode(r.newImage).value, rules))
    ensures reply(log, AttachTagWithServiceRequest(decode(r.newImage).value, rules)).Some? ==>
      InventoryRun(decode, reply, [r] + after, rules, log) ==
      Returned(log + [AttachTagWithServiceRequest(decode(r.newImage).value, rules)],
               reply(log, AttachTagWithServiceRequest(decode(r.newImage).value, rules)))
  {
    assert ([r] + after)[0] == r;
  }

  /** REMOVE and any other event name make no call and the loop goes on. */
  lemma OtherEventsSkipped(decode: Decoder, reply: Replies, r: StreamRecord, after: seq<StreamRecord>,
                           rules: seq<Rule>, log: seq<Call>)
    requires r.eventName != "MODIFY" && r.eventName != "INSERT" && decode(r.newImage).Success?
    ensures InventoryRun(decode, reply, [r] + after, rules, log) == InventoryRun(decode, reply, after, rules, log)
  {
    assert ([r] + after)[0] == r;
    assert ([r] + after)[1..] == after;
  }

  // ------------------------------------------------------------ as evidently intended

  function IntendedStep(decode: Decoder, r: StreamRecord, rules: seq<Rule>): Step
  {
    match decode(r.newImage)
    case Failure(e) => Return(Some(e))
    case Success(newService) =>
      match r.eventName
      case "MODIFY" =>
        (match decode(r.oldImage)
         case Failure(e) => Return(Some(e))
         case Success(oldService) =>
           if oldService.description == newService.description then Skip
           else Invoke(AttachTagWithServiceRequest(newService, rules)))
      case "INSERT" => Invoke(AttachTagWithServiceRequest(newService, rules))
      case _ => Skip
  }

  function IntendedRun(decode: Decoder, reply: Replies, records: seq<StreamRecord>, rules: seq<Rule>,
                       log: seq<Call>): (o: Outcome)
    ensures log <= o.log && |o.log| <= |log| + |records|
    ensures o.Returned? ==> o.err.Some?
    decreases |records|
  {
    if records == [] then Completed(log)
    else
      match IntendedStep(decode, records[0], rules)
      case Return(err) => Returned(log, err)
      case Skip => IntendedRun(decode, reply, records[1..], rules, log)
      case Invoke(c) =>
        if reply(log, c).Some? then Returned(log + [c], reply(log, c))
        else IntendedRun(decode, reply, records[1..], rules, log + [c])
  }

  /** Whether a record is a new service, or a service whose description changed. */
  predicate WantsTags(decode: Decoder, r: StreamRecord)
  {
    decode(r.newImage).Success? &&
    (r.eventName == "INSERT" ||
     (r.eventName == "MODIFY" && decode(r.oldImage).Success? &&
      decode(r.oldImage).value.description != decode(r.newImage).value.description))
  }

  /** The calls `Wanted` lists for one record. */
  function WantedFor(decode: Decoder, r: StreamRecord, rules: seq<Rule>): seq<Call>
  {
    if WantsTags(decode, r) then [AttachTagWithServiceRequest(decode(r.newImage).value, rules)] else []
  }

  /** The tag analyses a batch asks for: one per record that `WantsTags`, in record order. */
  function Wanted(decode: Decoder, records: seq<StreamRecord>, rules: seq<Rule>): seq<Call>
    decreases |records|
  {
    if records == [] then []
    else
      WantedFor(decode, records[0], rules) + Wanted(decode, records[1..], rules)
  }

  ghost predicate Decodable(decode: Decoder, records: seq<StreamRecord>)
  {
    forall i :: 0 <= i < |records| ==>
      decode(records[i].newImage).Success? && (records[i].eventName == "MODIFY" ==> decode(records[i].oldImage).Success?)
  }

  lemma DecodableTail(decode: Decoder, records: seq<StreamRecord>)
    requires records != [] && Decodable(decode, records)
    ensures decode(records[0].newImage).Success?
    ensures records[0].eventName == "MODIFY" ==> decode(records[0].oldImage).Success?
    ensures Decodable(decode, records[1..])
  {
    forall i | 0 <= i < |records[1..]|
      ensures decode(records[1..][i].newImage).Success? &&
              (records[1..][i].eventName == "MODIFY" ==> decode(records[1..][i].oldImage).Success?)
    {
      assert records[1..][i] == records[i + 1];
    }
  }

  /** On a decodable record the corrected step calls exactly when the record `WantsTags`. */
  lemma IntendedStepWants(decode: Decoder, r: StreamRecord, rules: seq<Rule>)
    requires decode(r.newImage).Success?
    requires r.eventName == "MODIFY" ==> decode(r.oldImage).Success?
    ensures !IntendedStep(decode, r, rules).Return?
    ensures IntendedStep(decode, r, rules).Invoke? <==> WantsTags(decode, r)
    ensures IntendedStep(decode, r, rules).Invoke? ==>
      IntendedStep(decode, r, rules).call == AttachTagWithServiceRequest(decode(r.newImage).value, rules)
  {
  }

  /** A decodable record whose call succeeds lets the corrected loop go on to the next record. */
  lemma IntendedHead(decode: Decoder, reply: Replies, records: seq<StreamRecord>, rules: seq<Rule>, log: seq<Call>)
    requires records != [] && NeverFails(reply)
    requires decode(records[0].newImage).Success?
    requires records[0].eventName == "MODIFY" ==> decode(records[0].oldImage).Success?
    ensures IntendedRun(decode, reply, records, rules, log) ==
      IntendedRun(decode, reply, records[1..], rules, log + WantedFor(decode, records[0], rules))
  {
    IntendedStepWants(decode, records[0], rules);
    var step := IntendedStep(decode, records[0], rules);
    if step.Invoke? {
      assert reply(log, step.call).None?;
    } else {
      assert log + [] == log;
    }
  }

  /**
   * The corrected handler, on decodable images and a repository that answers nil, handles
   * the whole batch and asks for exactly the wanted tag analyses.
   */
  lemma {:induction false} IntendedBatchCalls(decode: Decoder, reply: Replies, records: seq<StreamRecord>,
                                              rules: seq<Rule>, log: seq<Call>)
    requires Decodable(decode, records) && NeverFails(reply)
    ensures IntendedRun(decode, reply, records, rules, log) == Completed(log + Wanted(decode, records, rules))
    decreases |records|
  {
    if records == [] {
      assert log + [] == log;
    } else {
      DecodableTail(decode, records);
      var head := WantedFor(decode, records[0], rules);
      var rest := Wanted(decode, records[1..], rules);
      IntendedHead(decode, reply, records, rules, log);
      IntendedBatchCalls(decode, reply, records[1..], rules, log + head);
      assert log + head + rest == log + (head + rest);
    }
  }

  /**
   * The discrepancy on a two-record batch: a MODIFY that changes the description, then an
   * INSERT. As written nothing is called and the handler returns nil after the first record;
   * the corrected handler asks for both tag analyses.
   */
  lemma ChangedDescriptionIgnored(decode: Decoder, reply: Replies, changed: StreamRecord, created: StreamRecord,
                                  rules: seq<Rule>, log: seq<Call>)
    requires changed.eventName == "MODIFY" && created.eventName == "INSERT"
    requires decode(changed.newImage).Success? && decode(changed.oldImage).Success? && decode(created.newImage).Success?
    requires decode(changed.oldImage).value.description != decode(changed.newImage).value.description
    requires NeverFails(reply)
    ensures InventoryRun(decode, reply, [changed, created], rules, log) == Returned(log, None)
    ensures IntendedRun(decode, reply, [changed, created], rules, log) ==
      Completed(log + [AttachTagWithServiceRequest(decode(changed.newImage).value, rules),
                       AttachTagWithServiceRequest(decode(created.newImage).value, rules)])
  {
    IntendedBatchCalls(decode, reply, [changed, created], rules, log);
    assert [changed, created][1..] == [created];
    assert [created][1..] == [];
  }

  // ------------------------------------------------------------ the handler

  class ServiceSvc {
    const db: Backend
    const decode: Decoder

    constructor (db: Backend, decode: Decoder)
      ensures this.db == db && this.decode == decode
    {
      this.db := db;
      this.decode := decode;
    }

    /** `inventory`, as written. */
    method Inventory(records: seq<StreamRecord>) returns (err: Option<Error>)
      modifies db
      ensures db.log == InventoryOutcome(decode, db.reply, records, db.allRules, old(db.log)).log
      ensures err == InventoryOutcome(decode, db.reply, records, db.allRules, old(db.log)).Err()
    {
      var rules := db.GetAllRules();
      if rules.Failure? {
        return None;
      }
      ghost var log0 := db.log;
      for i := 0 to |records|
        invariant InventoryRun(decode, db.reply, records, rules.value, log0) ==
                  InventoryRun(decode, db.reply, records[i..], rules.value, db.log)
      {
        var record := records[i];
        assert records[i..][0] == record && records[i..][1..] == records[i + 1..];
        var newService := decode(record.newImage);
        if newService.Failure? {
          return Some(newService.error);
        }
        var attach := false;
        match record.eventName {
          case "MODIFY" =>
            // the "old" service is decoded from the new image
            match decode(record.newImage) {
              case Failure(e) =>
                return Some(e);
              case Success(oldService) =>
                if oldService.description == newService.value.description {
                  return None;
                }
            }
            attach := true;  // fallthrough
          case "INSERT" =>
            attach := true;
          case _ =>
        }
        if attach {
          var e := db.Invoke(AttachTagWithServiceRequest(newService.value, rules.value));
          if e.Some? {
            return e;
          }
        }
      }
      err := None;
    }
  }
}
