/**
 * The event router: classify an invocation as a queue batch or an event-bus
 * event, run the record call on it, and either enqueue a retry message or
 * report the failed subset of the batch. The record call is an oracle from
 * payload to success, and sending to the retry queue is a function from the
 * message to the message id the queue answers with.
 */
module Router {
  import opened Json
  import opened Seqs

  /**
   * `is_sqs_event`: Some(b) for its answer, None when evaluating it raises
   * (`len` of a value without a length, or `.get` on a first record that is
   * not a dict).
   */
  function IsSqsEvent(event: Json): (r: Option<bool>)
    ensures r == Some(true) <==> SqsShaped(event)
    ensures r.None? <==>
      event.JObj? && Lookup(event.fields, "Records").Some? &&
      var recs := Lookup(event.fields, "Records").value;
      !Sized(recs) || (Truthy(recs) && !(recs.JArr? && recs.items[0].JObj?))
  {
    if !event.JObj? then Some(false)
    else match Lookup(event.fields, "Records")
      case None => Some(false)
      case Some(recs) =>
        if !Sized(recs) then None
        else if !Truthy(recs) then Some(false)     // len(...) == 0
        else match recs
          case JArr(items) =>
            if items[0].JObj? then Some(Lookup(items[0].fields, "eventSource") == Some(JStr("aws:sqs")))
            else None
          case _ => None
  }

  /** A dict with a non-empty Records list whose first element has eventSource "aws:sqs". */
  predicate SqsShaped(event: Json) {
    event.JObj? &&
    match Lookup(event.fields, "Records")
    case Some(JArr(rs)) =>
      |rs| > 0 && rs[0].JObj? && Lookup(rs[0].fields, "eventSource") == Some(JStr("aws:sqs"))
    case _ => false
  }

  // ----- event-bus path -----

  /** The message put on the retry queue for a failed event. */
  function RetryMessage(event: Json): Json {
    JObj([("retry_source", JStr("sqs")), ("original_event", event)])
  }

  /** What the event-bus path returns, and the messages it sent to the retry queue. */
  datatype BusOutcome = BusOutcome(result: Json, sent: seq<Json>)

  function BusOk(): Json {
    JObj([("status", JStr("ok")), ("path", JStr("eventbridge")), ("servicenow", JStr("created"))])
  }

  function BusQueued(messageId: Json): Json {
    JObj([("status", JStr("queued")), ("path", JStr("eventbridge")), ("messageId", messageId)])
  }

  /**
   * `handle_eventbridge_event`: a successful record call returns status ok and
   * sends nothing; a failed one sends exactly the retry message wrapping the
   * event and returns status queued with the id the queue answered.
   */
  function HandleEventBridge(event: Json, create: Json -> bool, send: Json -> Json): (r: BusOutcome)
    ensures create(event) <==> r.sent == []
    ensures create(event) ==> r.result == BusOk()
    ensures !create(event) ==> r.sent == [RetryMessage(event)] && r.result == BusQueued(send(RetryMessage(event)))
  {
    if create(event) then BusOutcome(BusOk(), [])
    else
      var message := RetryMessage(event);
      BusOutcome(BusQueued(send(message)), [message])
  }

  // ----- queue path -----

  /** What processing one queue record comes to. */
  datatype Step = Succeeded | Failed(id: Json) | Abort

  /** `body.get("original_event") or body`. */
  function SqsPayload(body: Fields): Json {
    var original := Get(body, "original_event", JNull);
    if Truthy(original) then original else JObj(body)
  }

  /** The record is reported as failed by its messageId; a record without one raises. */
  function FailedStep(rec: Fields): Step {
    match Lookup(rec, "messageId")
    case Some(id) => Failed(id)
    case None => Abort
  }

  /**
   * One pass of the batch loop over a record: a body that does not decode
   * fails the record; a body that decodes to something other than a dict, a
   * record that is not a dict or has no string body raises out of the loop.
   */
  function RecordStep(rec: Json, codec: Codec, create: Json -> bool): Step {
    match rec
    case JObj(fields) =>
      (match Lookup(fields, "body")
       case Some(JStr(text)) =>
         (match codec.loads(text)
          case None => FailedStep(fields)
          case Some(JObj(body)) => if create(SqsPayload(body)) then Succeeded else FailedStep(fields)
          case Some(_) => Abort)
       case _ => Abort)
    case _ => Abort
  }

  function Fails(codec: Codec, create: Json -> bool): Json -> bool {
    rec => RecordStep(rec, codec, create).Failed?
  }

  /** `{"itemIdentifier": messageId}` for a failed record. */
  function FailureEntry(codec: Codec, create: Json -> bool): Json -> Json {
    rec => var step := RecordStep(rec, codec, create);
           JObj([("itemIdentifier", if step.Failed? then step.id else JNull)])
  }

  function BatchResponse(failures: seq<Json>): Json {
    JObj([("batchItemFailures", JArr(failures))])
  }

  /**
   * The batch result, as a specification: None when some record raises,
   * otherwise the failure entries of the failing records in record order.
   */
  function SqsBatch(records: seq<Json>, codec: Codec, create: Json -> bool): Option<Json> {
    if exists k :: 0 <= k < |records| && RecordStep(records[k], codec, create).Abort? then None
    else Some(BatchResponse(FilterMap(records, Fails(codec, create), FailureEntry(codec, create))))
  }

  /** The event holds a Records list, as every event the router classifies as a queue batch does. */
  predicate HasRecordList(event: Json) {
    event.JObj? && Lookup(event.fields, "Records").Some? && Lookup(event.fields, "Records").value.JArr?
  }

  function RecordsOf(event: Json): seq<Json>
    requires HasRecordList(event)
  {
    Lookup(event.fields, "Records").value.items
  }

  /**
   * The body of the batch loop for one record: decode the body, report an
   * undecodable one as failed (the loop's `continue`), otherwise run the
   * record call on the unwrapped payload.
   */
  method ProcessRecord(rec: Json, codec: Codec, create: Json -> bool) returns (step: Step)
    ensures step == RecordStep(rec, codec, create)
  {
    if !rec.JObj? {
      return Abort;
    }
    var text := Lookup(rec.fields, "body");
    if !(text.Some? && text.value.JStr?) {
      return Abort;
    }
    var parsed := codec.loads(text.value.s);
    if parsed.None? {
      return FailedStep(rec.fields);
    }
    if !parsed.value.JObj? {
      return Abort;
    }
    var payload := SqsPayload(parsed.value.fields);
    var success := create(payload);
    if !success {
      return FailedStep(rec.fields);
    }
    return Succeeded;
  }

  /**
   * The batch loop's progress over a prefix of the records: None once a
   * record has raised, otherwise the failure entries collected so far.
   */
  function Batch(records: seq<Json>, codec: Codec, create: Json -> bool): Option<seq<Json>> {
    if records == [] then Some([])
    else match Batch(records[..|records| - 1], codec, create)
      case None => None
      case Some(failures) =>
        match RecordStep(records[|records| - 1], codec, create)
        case Abort => None
        case Failed(id) => Some(failures + [JObj([("itemIdentifier", id)])])
        case Succeeded => Some(failures)
  }

  /**
   * Running the loop over all records agrees with the batch specification:
   * it stops exactly when some record raises, and otherwise collects the
   * failure entries of the failing records in order.
   */
  lemma {:induction false} BatchMatchesSpec(records: seq<Json>, codec: Codec, create: Json -> bool)
    ensures Batch(records, codec, create).None? <==>
      exists k :: 0 <= k < |records| && RecordStep(records[k], codec, create).Abort?
    ensures Batch(records, codec, create).Some? ==>
      Batch(records, codec, create).value == FilterMap(records, Fails(codec, create), FailureEntry(codec, create))
  {
    if records != [] {
      var n := |records| - 1;
      var prefix, last := records[..n], records[n];
      BatchMatchesSpec(prefix, codec, create);
      FilterMapSnoc(prefix, last, Fails(codec, create), FailureEntry(codec, create));
      assert records == prefix + [last];
      if exists k :: 0 <= k < |records| && RecordStep(records[k], codec, create).Abort? {
        var k :| 0 <= k < |records| && RecordStep(records[k], codec, create).Abort?;
        if k < n {
          assert prefix[k] == records[k];
        }
      }
      if exists k :: 0 <= k < n && RecordStep(prefix[k], codec, create).Abort? {
        var k :| 0 <= k < n && RecordStep(prefix[k], codec, create).Abort?;
        assert records[k] == prefix[k];
      }
    }
  }

  /** `handle_sqs_event`: the loop over the batch that collects the failed records. */
  method HandleSqsEvent(event: Json, codec: Codec, create: Json -> bool) returns (r: Option<Json>)
    requires HasRecordList(event)
    ensures r == SqsBatch(RecordsOf(event), codec, create)
  {
    var records := RecordsOf(event);
    var failures: seq<Json> := [];
    for i := 0 to |records|
      invariant Batch(records[..i], codec, create) == Some(failures)
    {
      var step := ProcessRecord(records[i], codec, create);
      assert records[..i + 1][..i] == records[..i];
      match step
      case Abort =>
        AbortedBatch(records, i, codec, create);
        return None;
      case Failed(id) =>
        failures := failures + [JObj([("itemIdentifier", id)])];
      case Succeeded =>
    }
    assert records[..|records|] == records;
    BatchMatchesSpec(records, codec, create);
    r := Some(BatchResponse(failures));
  }

  lemma AbortedBatch(records: seq<Json>, i: nat, codec: Codec, create: Json -> bool)
    requires i < |records| && RecordStep(records[i], codec, create).Abort?
    ensures SqsBatch(records, codec, create) == None
  {
  }

  /**
   * When the batch completes, its failure list has one entry per failing
   * record, and it is empty exactly when every record succeeded.
   */
  lemma SqsFailuresCount(records: seq<Json>, codec: Codec, create: Json -> bool)
    requires SqsBatch(records, codec, create).Some?
    ensures var failures := FilterMap(records, Fails(codec, create), FailureEntry(codec, create));
      SqsBatch(records, codec, create) == Some(BatchResponse(failures)) &&
      |failures| == Count(records, Fails(codec, create)) &&
      (failures == [] <==> forall k :: 0 <= k < |records| ==> RecordStep(records[k], codec, create) == Succeeded)
  {
    var keep, entry := Fails(codec, create), FailureEntry(codec, create);
    FilterMapLength(records, keep, entry);
    FilterMapEmpty(records, keep, entry);
  }

  /**
   * The failure list keeps record order: a failing record's entry is
   * preceded by the entries of exactly the failing records before it.
   */
  lemma SqsFailuresExact(records: seq<Json>, codec: Codec, create: Json -> bool, i: nat)
    requires SqsBatch(records, codec, create).Some?
    requires i < |records|
    ensures var failures := FilterMap(records, Fails(codec, create), FailureEntry(codec, create));
      RecordStep(records[i], codec, create).Failed? ==>
        Count(records[..i], Fails(codec, create)) < |failures| &&
        failures[Count(records[..i], Fails(codec, create))] ==
          JObj([("itemIdentifier", RecordStep(records[i], codec, create).id)])
  {
    if RecordStep(records[i], codec, create).Failed? {
      FilterMapAt(records, Fails(codec, create), FailureEntry(codec, create), i);
    }
  }

  /**
   * A record fails exactly when its body does not decode or the record call
   * on its payload (original_event when truthy, else the body) fails.
   */
  lemma RecordFailsIff(rec: Json, codec: Codec, create: Json -> bool)
    requires rec.JObj? && Lookup(rec.fields, "messageId").Some?
    requires Lookup(rec.fields, "body").Some? && Lookup(rec.fields, "body").value.JStr?
    requires var parsed := codec.loads(Lookup(rec.fields, "body").value.s);
      parsed.None? || parsed.value.JObj?
    ensures var parsed := codec.loads(Lookup(rec.fields, "body").value.s);
      RecordStep(rec, codec, create).Failed? <==> parsed.None? || !create(SqsPayload(parsed.value.fields))
    ensures RecordStep(rec, codec, create).Failed? ==> RecordStep(rec, codec, create).id == Lookup(rec.fields, "messageId").value
  {
  }

  /**
   * A retry message read back from the queue hands the original event to the
   * record call when the event is truthy; an empty event is not unwrapped,
   * and the record call gets the retry message itself.
   */
  lemma RetryRoundTrip(event: Json, id: Json, codec: Codec, create: Json -> bool)
    requires codec.loads(codec.dumps(RetryMessage(event))) == Some(RetryMessage(event))
    ensures SqsPayload(RetryMessage(event).fields) == if Truthy(event) then event else RetryMessage(event)
    ensures var rec := JObj([("messageId", id), ("body", JStr(codec.dumps(RetryMessage(event))))]);
      RecordStep(rec, codec, create) == if create(SqsPayload(RetryMessage(event).fields)) then Succeeded else Failed(id)
  {
    var fields := RetryMessage(event).fields;
    assert Lookup(fields, "original_event") == Some(event);
    var rec := JObj([("messageId", id), ("body", JStr(codec.dumps(RetryMessage(event))))]);
    assert Lookup(rec.fields, "body") == Some(JStr(codec.dumps(RetryMessage(event))));
    assert Lookup(rec.fields, "messageId") == Some(id);
  }

  // ----- entry point -----

  /** The invocation's response (None when it raises) and the messages sent to the retry queue. */
  datatype Invocation = Invocation(response: Option<Json>, sent: seq<Json>)

  /** The event-bus response: status code 200 and the serialised result. */
  function BusResponse(result: Json, codec: Codec): Json {
    JObj([("statusCode", JInt(200)), ("body", JStr(codec.dumps(result)))])
  }

  /**
   * `lambda_handler`: a queue batch returns the batch result unchanged and
   * sends nothing; anything else takes the event-bus path and is wrapped in a
   * status-200 response.
   */
  method LambdaHandler(event: Json, codec: Codec, create: Json -> bool, send: Json -> Json)
    returns (inv: Invocation)
    ensures IsSqsEvent(event).None? ==> inv == Invocation(None, [])
    ensures IsSqsEvent(event) == Some(true) ==>
      HasRecordList(event) && inv == Invocation(SqsBatch(RecordsOf(event), codec, create), [])
    ensures IsSqsEvent(event) == Some(false) ==>
      var bus := HandleEventBridge(event, create, send);
      inv == Invocation(Some(BusResponse(bus.result, codec)), bus.sent)
  {
    var isSqs := IsSqsEvent(event);
    if isSqs.None? {
      inv := Invocation(None, []);
    } else if isSqs.value {
      var result := HandleSqsEvent(event, codec, create);
      inv := Invocation(result, []);
    } else {
      var bus := HandleEventBridge(event, create, send);
      inv := Invocation(Some(BusResponse(bus.result, codec)), bus.sent);
    }
  }

  // ----- scenarios -----

  /** A batch of a malformed record and a succeeding one reports only the malformed record. */
  lemma ScenarioMalformedRecord(codec: Codec, create: Json -> bool, bad: string, good: string, body: Fields)
    requires codec.loads(bad).None? && codec.loads(good) == Some(JObj(body)) && create(SqsPayload(body))
    ensures var records := [JObj([("messageId", JStr("m1")), ("body", JStr(bad))]),
                            JObj([("messageId", JStr("m2")), ("body", JStr(good))])];
      SqsBatch(records, codec, create) == Some(BatchResponse([JObj([("itemIdentifier", JStr("m1"))])]))
  {
    var first := JObj([("messageId", JStr("m1")), ("body", JStr(bad))]);
    var second := JObj([("messageId", JStr("m2")), ("body", JStr(good))]);
    var records := [first, second];
    assert Lookup(first.fields, "body") == Some(JStr(bad));
    assert Lookup(first.fields, "messageId") == Some(JStr("m1"));
    assert Lookup(second.fields, "body") == Some(JStr(good));
    assert RecordStep(first, codec, create) == Failed(JStr("m1"));
    assert RecordStep(second, codec, create) == Succeeded;
    assert records[..1] == [first] && [first][..0] == [];
    assert Batch([], codec, create) == Some([]);
    assert [] + [JObj([("itemIdentifier", JStr("m1"))])] == [JObj([("itemIdentifier", JStr("m1"))])];
    assert Batch([first], codec, create) == Some([JObj([("itemIdentifier", JStr("m1"))])]);
    assert Batch(records, codec, create) == Some([JObj([("itemIdentifier", JStr("m1"))])]);
    BatchMatchesSpec(records, codec, create);
  }

  /** A failed event-bus event is queued once, wrapped as a retry message. */
  lemma ScenarioQueued(event: Json, codec: Codec, create: Json -> bool, send: Json -> Json)
    requires !create(event)
    ensures var bus := HandleEventBridge(event, create, send);
      bus.sent == [JObj([("retry_source", JStr("sqs")), ("original_event", event)])] &&
      Lookup(bus.result.fields, "status") == Some(JStr("queued")) &&
      Lookup(bus.result.fields, "messageId") == Some(send(RetryMessage(event)))
  {
    var fields := BusQueued(send(RetryMessage(event))).fields;
    assert fields[2] == ("messageId", send(RetryMessage(event)));
    assert Lookup(fields[2..], "messageId") == Some(send(RetryMessage(event)));
    assert fields[1..][1..] == fields[2..];
  }
}
