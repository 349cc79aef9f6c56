/**
 * The event schema of the workflow package and its outbox translator: the
 * step that turns a record's status transition into the encoded payload the
 * transactional outbox stores.
 */
module Workflow {
  import opened Wrappers
  import opened GoInt
  import Decimal

  /** Go's `RunState`, an `int`: the state of one run of a workflow record. */
  type RunState = Int64

  /**
   * The fields of the transitioning record that the translator reads.
   * `Status` is the code of the status the record moved to.
   */
  datatype WireRecord = WireRecord(
    WorkflowName: string,
    ID: string,
    ForeignID: string,
    Status: Int64,
    RunID: string,
    RunState: RunState)

  /** An event as a consumer receives it (creation time not modelled). */
  datatype Event = Event(ID: Int64, ForeignID: Int64, Type: Int64, Headers: map<Header, string>)

  /** The string-typed variant of Event for non-native consumers. */
  datatype ConnectorEvent = ConnectorEvent(ID: string, ForeignID: string, Type: string, Headers: map<string, string>)

  /** An outbox payload once the outbox store has given it an ID. */
  datatype OutboxEvent = OutboxEvent(ID: Int64, WorkflowName: string, Data: seq<Byte>)

  /** The translator's output, not yet persisted. */
  datatype OutboxEventData = OutboxEventData(WorkflowName: string, Data: seq<Byte>)

  /** The zero value `OutboxEventData{}`: empty name, no bytes. */
  const EmptyOutboxEventData := OutboxEventData("", [])

  /** The closed vocabulary of metadata keys. */
  datatype Header =
    | HeaderWorkflowName
    | HeaderForeignID
    | HeaderTopic
    | HeaderRunID
    | HeaderRunState
    | HeaderPreviousRunState
  {
    /** The wire name of the key, `string(h)` in Go. */
    function Key(): string {
      match this
      case HeaderWorkflowName => "workflow_name"
      case HeaderForeignID => "foreign_id"
      case HeaderTopic => "topic"
      case HeaderRunID => "run_id"
      case HeaderRunState => "run_state"
      case HeaderPreviousRunState => "previous_run_state"
    }
  }

  /** Every header, in declaration order. */
  const AllHeaders: seq<Header> := [
    HeaderWorkflowName, HeaderForeignID, HeaderTopic, HeaderRunID, HeaderRunState, HeaderPreviousRunState
  ]

  /** The six wire names. */
  const HeaderKeys: set<string> :=
    {"workflow_name", "foreign_id", "topic", "run_id", "run_state", "previous_run_state"}

  /** The list of headers is complete and the six wire names are pairwise distinct. */
  lemma HeaderVocabulary()
    ensures |AllHeaders| == 6 && |HeaderKeys| == 6
    ensures forall h: Header :: h in AllHeaders
    ensures forall i, j :: 0 <= i < j < |AllHeaders| ==> AllHeaders[i].Key() != AllHeaders[j].Key()
  {
    forall h: Header ensures h in AllHeaders {
      match h
      case HeaderWorkflowName =>
      case HeaderForeignID =>
      case HeaderTopic =>
      case HeaderRunID =>
      case HeaderRunState =>
      case HeaderPreviousRunState =>
    }
  }

  /** A string is in the key set exactly when it is the wire name of some header. */
  lemma HeaderKeysExact(k: string)
    ensures k in HeaderKeys <==> exists h: Header :: h.Key() == k
  {
    if k == "workflow_name" { assert HeaderWorkflowName.Key() == k; }
    else if k == "foreign_id" { assert HeaderForeignID.Key() == k; }
    else if k == "topic" { assert HeaderTopic.Key() == k; }
    else if k == "run_id" { assert HeaderRunID.Key() == k; }
    else if k == "run_state" { assert HeaderRunState.Key() == k; }
    else if k == "previous_run_state" { assert HeaderPreviousRunState.Key() == k; }
    else {
      forall h: Header ensures h.Key() != k {
        match h
        case HeaderWorkflowName =>
        case HeaderForeignID =>
        case HeaderTopic =>
        case HeaderRunID =>
        case HeaderRunState =>
        case HeaderPreviousRunState =>
      }
    }
  }

  /** Distinct headers have distinct wire names. */
  lemma HeaderKeyInjective(h1: Header, h2: Header)
    ensures h1.Key() == h2.Key() <==> h1 == h2
  {
  }

  /** The message the outbox stores: `outboxpb.OutboxRecord`. */
  datatype OutboxRecord = OutboxRecord(ForeignId: string, Type: Int32, Headers: map<string, string>)

  /** Whatever error the encoder reports. */
  datatype EncodeError = EncodeError(message: string)

  /** The value each header takes for a record, its previous run state and its topic. */
  function HeaderValue(h: Header, record: WireRecord, previousRunState: RunState, topicName: string): string {
    match h
    case HeaderWorkflowName => record.WorkflowName
    case HeaderForeignID => record.ForeignID
    case HeaderTopic => topicName
    case HeaderRunID => record.RunID
    case HeaderRunState => Decimal.FormatInt(record.RunState as int)
    case HeaderPreviousRunState => Decimal.FormatInt(previousRunState as int)
  }

  /** The header map, listed in the order of the vocabulary. */
  function OutboxHeaders(record: WireRecord, previousRunState: RunState, topicName: string): (hs: map<string, string>)
    ensures hs.Keys == HeaderKeys && |hs| == 6
    ensures forall h: Header :: h.Key() in hs && hs[h.Key()] == HeaderValue(h, record, previousRunState, topicName)
  {
    map[
      HeaderWorkflowName.Key() := record.WorkflowName,
      HeaderForeignID.Key() := record.ForeignID,
      HeaderTopic.Key() := topicName,
      HeaderRunID.Key() := record.RunID,
      HeaderRunState.Key() := Decimal.FormatInt(record.RunState as int),
      HeaderPreviousRunState.Key() := Decimal.FormatInt(previousRunState as int)
    ]
  }

  /**
   * The message built for a record, its previous run state and its topic:
   * the record's ID, its status truncated to 32 bits, and one header per
   * vocabulary entry.
   */
  function OutboxRecordFor(record: WireRecord, previousRunState: RunState, topicName: string): (m: OutboxRecord)
    ensures m.ForeignId == record.ID
    ensures (m.Type as int - record.Status as int) % TwoTo32 == 0
    ensures m.Headers.Keys == HeaderKeys && |m.Headers| == 6
    ensures forall h: Header :: m.Headers[h.Key()] == HeaderValue(h, record, previousRunState, topicName)
  {
    OutboxRecord(record.ID, ToInt32(record.Status as int), OutboxHeaders(record, previousRunState, topicName))
  }

  /**
   * What the message carries.  Its ForeignId is the record's ID, while the
   * foreign_id header is the record's ForeignID: two different fields.  The
   * run-state headers are decimal strings that parse back to the run states,
   * whatever their value.
   */
  lemma OutboxRecordContents(record: WireRecord, previousRunState: RunState, topicName: string)
    ensures var m := OutboxRecordFor(record, previousRunState, topicName);
      && m.ForeignId == record.ID
      && (InInt32Range(record.Status as int) <==> m.Type as int == record.Status as int)
      && m.Headers.Keys == HeaderKeys
      && m.Headers["workflow_name"] == record.WorkflowName
      && m.Headers["foreign_id"] == record.ForeignID
      && m.Headers["topic"] == topicName
      && m.Headers["run_id"] == record.RunID
      && Decimal.ParseDecimal(m.Headers["run_state"]) == Some(record.RunState as int)
      && Decimal.ParseDecimal(m.Headers["previous_run_state"]) == Some(previousRunState as int)
  {
    ToInt32Identity(record.Status as int);
  }

  /**
   * The message loses nothing the translator reads except the high bits of
   * the status: two messages are equal exactly when the inputs agree on every
   * field used and the statuses agree modulo 2^32.
   */
  lemma OutboxRecordDeterminesInputs(r1: WireRecord, p1: RunState, t1: string, r2: WireRecord, p2: RunState, t2: string)
    ensures OutboxRecordFor(r1, p1, t1) == OutboxRecordFor(r2, p2, t2) <==>
      && r1.ID == r2.ID
      && r1.WorkflowName == r2.WorkflowName
      && r1.ForeignID == r2.ForeignID
      && r1.RunID == r2.RunID
      && r1.RunState == r2.RunState
      && p1 == p2
      && t1 == t2
      && (r1.Status as int - r2.Status as int) % TwoTo32 == 0
  {
    var m1, m2 := OutboxRecordFor(r1, p1, t1), OutboxRecordFor(r2, p2, t2);
    ToInt32Congruence(r1.Status as int, r2.Status as int);
    Decimal.FormatIntInjective(r1.RunState as int, r2.RunState as int);
    Decimal.FormatIntInjective(p1 as int, p2 as int);
    if m1 == m2 {
      assert m1.Headers[HeaderWorkflowName.Key()] == m2.Headers[HeaderWorkflowName.Key()];
      assert m1.Headers[HeaderForeignID.Key()] == m2.Headers[HeaderForeignID.Key()];
      assert m1.Headers[HeaderTopic.Key()] == m2.Headers[HeaderTopic.Key()];
      assert m1.Headers[HeaderRunID.Key()] == m2.Headers[HeaderRunID.Key()];
      assert m1.Headers[HeaderRunState.Key()] == m2.Headers[HeaderRunState.Key()];
      assert m1.Headers[HeaderPreviousRunState.Key()] == m2.Headers[HeaderPreviousRunState.Key()];
    }
  }

  /**
   * `WireRecordToOutboxEventData`.  `topic` is the topic-naming function and
   * `marshal` the message encoder; `err == None` is Go's nil error.
   */
  method WireRecordToOutboxEventData(
    record: WireRecord,
    previousRunState: RunState,
    topic: (string, Int64) -> string,
    marshal: OutboxRecord -> Result<seq<Byte>, EncodeError>)
    returns (data: OutboxEventData, err: Option<EncodeError>)
    ensures var encoded := marshal(OutboxRecordFor(record, previousRunState, topic(record.WorkflowName, record.Status)));
      && (err.None? <==> encoded.Success?)
      && (encoded.Success? ==> data.WorkflowName == record.WorkflowName && data.Data == encoded.value)
      && (encoded.Failure? ==> data == EmptyOutboxEventData && err == Some(encoded.error))
  {
    var topicName := topic(record.WorkflowName, record.Status);

    var headers: map<string, string> := map[];
    headers := headers[HeaderForeignID.Key() := record.ForeignID];
    headers := headers[HeaderWorkflowName.Key() := record.WorkflowName];
    headers := headers[HeaderTopic.Key() := topicName];
    headers := headers[HeaderRunID.Key() := record.RunID];
    headers := headers[HeaderRunState.Key() := Decimal.FormatInt(record.RunState as int)];
    headers := headers[HeaderPreviousRunState.Key() := Decimal.FormatInt(previousRunState as int)];

    var r := OutboxRecord(record.ID, ToInt32(record.Status as int), headers);
    assert r == OutboxRecordFor(record, previousRunState, topicName);

    var encoded := marshal(r);
    if encoded.Failure? {
      return EmptyOutboxEventData, Some(encoded.error);
    }
    return OutboxEventData(record.WorkflowName, encoded.value), None;
  }

  /**
   * Two calls with the same inputs hand the encoder the same message.  Each
   * call has its own encoder, since `proto.Marshal` does not fix the order of
   * map entries and may give different bytes for equal messages; the results
   * are equal whenever the two encoders agree on that message.
   */
  method TranslateTwice(
    record: WireRecord,
    previousRunState: RunState,
    topic: (string, Int64) -> string,
    marshal1: OutboxRecord -> Result<seq<Byte>, EncodeError>,
    marshal2: OutboxRecord -> Result<seq<Byte>, EncodeError>)
    returns (data1: OutboxEventData, err1: Option<EncodeError>, data2: OutboxEventData, err2: Option<EncodeError>)
    ensures var m := OutboxRecordFor(record, previousRunState, topic(record.WorkflowName, record.Status));
      && (err1.None? ==> marshal1(m) == Success(data1.Data))
      && (err2.None? ==> marshal2(m) == Success(data2.Data))
      && (err1.None? && err2.None? ==> data1.WorkflowName == data2.WorkflowName == record.WorkflowName)
      && (marshal1(m).Success? == marshal2(m).Success? ==> err1.None? == err2.None?)
      && (marshal1(m) == marshal2(m) ==> data1 == data2 && err1 == err2)
  {
    data1, err1 := WireRecordToOutboxEventData(record, previousRunState, topic, marshal1);
    data2, err2 := WireRecordToOutboxEventData(record, previousRunState, topic, marshal2);
  }

  /**
   * The worked example of the outbox contract, with the message's ForeignId
   * taken from the record's ID as the translator does.
   */
  lemma OnboardingExample()
    ensures OutboxRecordFor(WireRecord("onboarding", "rec-1", "cust-42", 3, "run-7", 2), 1, "onboarding-3")
      == OutboxRecord("rec-1", 3, map[
        "workflow_name" := "onboarding",
        "foreign_id" := "cust-42",
        "topic" := "onboarding-3",
        "run_id" := "run-7",
        "run_state" := "2",
        "previous_run_state" := "1"])
  {
  }
}
