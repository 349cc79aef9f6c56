# Workflow outbox translator

A Dafny model of the event schema of the `workflow` package and of its outbox
translator, `WireRecordToOutboxEventData` in `event.go`. When a workflow record
changes status, the translator turns the record and the run state it came from
into an `OutboxEventData`: the workflow name plus an encoded
`outboxpb.OutboxRecord` message. The message holds a foreign id, a 32-bit type
code and a map with six headers. A transactional outbox stores that payload in
the same unit of work as the transition.

Files and modules:

- `wrappers.dfy` (`Wrappers`): `Option` and `Result`.
- `goint.dfy` (`GoInt`): Go's `int64`, `int32` and `byte`, and the wrap-around conversion `int32(x)`.
- `decimal.dfy` (`Decimal`): `strconv.FormatInt(x, 10)` as `FormatInt`. `ParseDecimal` is a reference
  inverse (optional sign, then digits). There are round-trip lemmas in both directions.
- `event.dfy` (`Workflow`): the record fields the translator reads (`WireRecord`) and the `Header` vocabulary.
  It also holds the four structs `Event`, `ConnectorEvent`, `OutboxEvent` and `OutboxEventData`, and the message
  `OutboxRecord`. `OutboxHeaders` and `OutboxRecordFor` are the reference definitions of the header map and
  the message. The method `WireRecordToOutboxEventData` is the translator itself.

The translator is an imperative method. It fills a local map with the six
insertions in the source's order: `foreign_id`, `workflow_name`, `topic`,
`run_id`, `run_state`, `previous_run_state`. The method is proved equal to the
reference map, which lists the keys in vocabulary order. The topic-naming
function `Topic` and the encoder `proto.Marshal` are defined outside this code.
Both are passed in as function parameters. The encoder returns either the bytes
or an `EncodeError`. The Go pair `(OutboxEventData, error)` becomes two
out-parameters, and `err == None` stands for a nil error.

Two points of the code that the model keeps exactly as written:

- The message's `ForeignId` is taken from `record.ID` (event.go:82). The
  `foreign_id` header is taken from `record.ForeignID` (event.go:74). These are
  two different fields. `OnboardingExample` shows a concrete message where they differ.
- The message's `Type` is `int32(record.Status)` (event.go:83). It equals the
  status only when the status fits in 32 bits. Otherwise it wraps modulo 2^32.

## Model

| member | source | states |
|---|---|---|
| GoInt.ToInt32 | event.go:83 | `int32(x)` is congruent to x modulo 2^32 and leaves values in the int32 range unchanged |
| GoInt.ToInt32Identity | event.go:83 | the conversion returns x exactly when x lies in the int32 range (both directions) |
| GoInt.ToInt32Congruence | event.go:83 | two statuses give the same int32 exactly when they agree modulo 2^32 |
| Decimal.FormatNat | event.go:78-79 | the rendering of a natural number is a non-empty digit string, and it starts with '0' only for zero |
| Decimal.FormatInt | event.go:78-79 | `strconv.FormatInt(x, 10)`: the rendering is canonical (no '+', no leading zero, no "-0") and parses back to x, for every integer, zero and negative values included |
| Decimal.CanonicalRoundTrip | event.go:78-79 | every canonical decimal string parses, and rendering the parsed value gives back the same string |
| Decimal.FormatIntCharacterization | event.go:78-79 | `FormatInt(x) == s` holds exactly when s is canonical and parses to x |
| Decimal.FormatIntInjective | event.go:78-79 | distinct run states render as distinct strings |
| Workflow.HeaderVocabulary | event.go:98-107 | the six Header constants are all the headers there are, and their wire names are pairwise distinct, so there are six keys |
| Workflow.HeaderKeysExact | event.go:100-107 | a string is one of the six keys exactly when it is the wire name of some Header |
| Workflow.HeaderKeyInjective | event.go:100-107 | two headers have the same wire name only if they are the same header |
| Workflow.OutboxHeaders | event.go:73-79 | the header map has exactly the six Header keys and six entries, and each key holds its header's value for the record |
| Workflow.OutboxRecordFor | event.go:81-85 | the message literal: ForeignId is `record.ID`, Type is congruent to Status modulo 2^32, the header map has exactly the six keys and holds each header's value for the record |
| Workflow.OutboxRecordContents | event.go:71-85 | the message's ForeignId is `record.ID`; Type equals Status exactly when Status fits in int32; `foreign_id`, `workflow_name`, `topic` and `run_id` hold `record.ForeignID`, `record.WorkflowName`, the topic and `record.RunID`; `run_state` and `previous_run_state` parse back to the two run states, for every value and with no special case |
| Workflow.OutboxRecordDeterminesInputs | event.go:73-85 | two messages are equal exactly when their inputs agree on ID, workflow name, foreign id, run id, run state, previous run state and topic, and their statuses agree modulo 2^32 |
| Workflow.WireRecordToOutboxEventData | event.go:70-96 | the error is nil exactly when encoding the message succeeds. On success the name is `record.WorkflowName` and the data are exactly the encoder's bytes for the message. On failure the result is the empty `OutboxEventData{}` together with the encoder's error |
| Workflow.TranslateTwice | event.go:70-96 | two calls with identical inputs hand the encoder the same message, and both successful results carry `record.WorkflowName`. The bytes of each call are that call's encoding of the message. The outputs are identical when the two encodings of the message agree, and the error-ness is the same when the two encoders succeed or fail alike |
| Workflow.OnboardingExample | event.go:70-85 | the worked example: record rec-1 of customer cust-42 in workflow onboarding, status 3, run run-7 in state 2, previous state 1 and topic onboarding-3 give the expected message |

## Left out

- `Topic` is a function parameter of the translator. Nothing is assumed about
  it beyond being a function, so it is not taken to be injective.
- `proto.Marshal` and the protobuf wire format are not modelled. The encoder is
  a function parameter that may fail. No decoder is modelled.
- Workflow.TranslateTwice: within one call the encoder is a Dafny function, so
  it is deterministic there. `proto.Marshal` does not fix map-entry order, so
  two real calls may encode equal messages to different bytes. For that reason
  the two calls take separate encoders, and what is promised for every encoder
  is equality of the messages, not of the bytes.
- `Header` is closed to the six constants of event.go:101-106. Go's
  `type Header string` (event.go:98) is an open string type, so other `Header`
  values are not represented. Keys of `Event.Headers` outside the six are not
  represented either.
- The type of `record.ID` is not shown in event.go. It is assumed to be
  `string`, because the message's string field `ForeignId` is filled from it
  at event.go:82.
- The `CreatedAt` timestamps of `Event`, `ConnectorEvent` and `OutboxEvent` are
  not modelled. Stores and streamers assign them, and no logic here uses them.
- Persistence, ID assignment, polling, publishing and delivery order in the
  outbox are not modelled. That code is not part of this model.
- `Event` and `ConnectorEvent` are data declarations only. They have no behaviour.
- Go's `int` is modelled as 64 bits, so `int64(record.RunState)` is the identity.
  A 32-bit platform is not modelled.
- A nil byte slice and an empty one are not told apart. Both are `[]`.
- `ParseDecimal` accepts an optional sign followed by one or more digits, with
  no 64-bit range check. It is not a model of `strconv.ParseInt`.
- The translator holds no shared state, so concurrency is not modelled.
