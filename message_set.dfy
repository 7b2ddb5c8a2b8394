/** A group of messages created in one request (lib/MessageSet.js): the
    response sorter and validator, the payload collector and the guarded
    `sendMessageSet` flow, first as pure functions and then performed in
    place by the class. */
module MessageSet {
  import opened Wrappers
  import opened Json
  import opened Transport
  import opened MessageSinkErrors
  import opened MessageSetErrors
  import opened Rejections
  import opened MessageSink
  import opened MessageLifecycleState
  import opened MessageStateWrapper
  import opened MessageSetMessage
  import opened MessageFactory

  /** `msgResp.status === 'success'`; an entry that is not an object has no
      status. */
  predicate IsSuccess(j: Json)
  {
    Member(j, "status") == Some(JStr("success"))
  }

  /** The entries of `rs` whose status is a success, in order. */
  function Succeeded(rs: seq<Json>): seq<Json>
  {
    if |rs| == 0 then []
    else Succeeded(rs[..|rs| - 1]) + (if IsSuccess(rs[|rs| - 1]) then [rs[|rs| - 1]] else [])
  }

  /** The other entries of `rs`, in order. */
  function Failed(rs: seq<Json>): seq<Json>
  {
    if |rs| == 0 then []
    else Failed(rs[..|rs| - 1]) + (if IsSuccess(rs[|rs| - 1]) then [] else [rs[|rs| - 1]])
  }

  /** The entries lodash `transform` visits: the items of an array, none of
      anything else. */
  function ResponseItems(responses: Option<Json>): seq<Json>
  {
    if responses.Some? && responses.value.JArr? then responses.value.items else []
  }

  /** The partition `sortMixedResponsePayload` builds. */
  function SortedResponses(responses: Option<Json>): Partition
  {
    var items := ResponseItems(responses);
    Partition(Succeeded(items), Failed(items))
  }

  /** `sortMixedResponsePayload`: one pass over the entries, pushing each to
      `succeeded` or `failed`. */
  method SortMixedResponsePayload(responses: seq<Json>) returns (p: Partition)
    ensures p == Partition(Succeeded(responses), Failed(responses))
  {
    var succeeded: seq<Json> := [];
    var failed: seq<Json> := [];
    var i := 0;
    while i < |responses|
      invariant 0 <= i <= |responses|
      invariant succeeded == Succeeded(responses[..i]) && failed == Failed(responses[..i])
    {
      assert responses[..i + 1][..i] == responses[..i];
      if !IsSuccess(responses[i]) {
        failed := failed + [responses[i]];
      } else {
        succeeded := succeeded + [responses[i]];
      }
      i := i + 1;
    }
    assert responses[..i] == responses;
    p := Partition(succeeded, failed);
  }

  /** The two halves together hold every entry exactly as often as the
      input does: the sorter loses and invents nothing. */
  lemma {:induction false} PartitionIsPermutation(rs: seq<Json>)
    ensures multiset(Succeeded(rs)) + multiset(Failed(rs)) == multiset(rs)
  {
    if |rs| > 0 {
      var init, x := rs[..|rs| - 1], rs[|rs| - 1];
      PartitionIsPermutation(init);
      assert rs == init + [x];
      if IsSuccess(x) {
        assert Succeeded(rs) == Succeeded(init) + [x];
        assert Failed(rs) == Failed(init);
      } else {
        assert Succeeded(rs) == Succeeded(init);
        assert Failed(rs) == Failed(init) + [x];
      }
    }
  }

  /** So the two halves' lengths add up to the input's. */
  lemma PartitionSizes(rs: seq<Json>)
    ensures |Succeeded(rs)| + |Failed(rs)| == |rs|
  {
    PartitionIsPermutation(rs);
    assert |multiset(Succeeded(rs)) + multiset(Failed(rs))| == |multiset(rs)|;
  }

  /** Every succeeded entry has a success status, no failed entry has, and
      both come from the input. */
  lemma {:induction false} PartitionClassifies(rs: seq<Json>)
    ensures forall x | x in Succeeded(rs) :: x in rs && IsSuccess(x)
    ensures forall x | x in Failed(rs) :: x in rs && !IsSuccess(x)
  {
    if |rs| > 0 {
      var init := rs[..|rs| - 1];
      PartitionClassifies(init);
      assert rs == init + [rs[|rs| - 1]];
    }
  }

  /** Sorting keeps the input order: sorting a concatenation concatenates
      the sorted halves. */
  lemma {:induction false} PartitionKeepsOrder(a: seq<Json>, b: seq<Json>)
    ensures Succeeded(a + b) == Succeeded(a) + Succeeded(b)
    ensures Failed(a + b) == Failed(a) + Failed(b)
    decreases |b|
  {
    if |b| == 0 {
      assert a + b == a;
    } else {
      var init := b[..|b| - 1];
      PartitionKeepsOrder(a, init);
      assert (a + b)[..|a + b| - 1] == a + init;
      assert (a + b)[|a + b| - 1] == b[|b| - 1];
    }
  }

  /** `validateCreateResponse` of a set: the first failing check, in order. */
  function ValidateSetCreateResponse(response: Option<Response>): (r: Outcome<SetError>)
    ensures r == Fail(EmptyCreateResponse) <==> !Truthy(BodyOf(response))
    ensures r.Fail? && r.error.BadStatusCreateResponse? <==>
              Truthy(BodyOf(response)) && Member(BodyOf(response), "status") != Some(JNum(200))
    ensures r.Fail? && r.error.BadStatusCreateResponse? ==>
              r.error.status == Member(BodyOf(response), "status")
    ensures r.Fail? && r.error.PartialPayloadFailure? <==>
              Truthy(BodyOf(response)) && Member(BodyOf(response), "status") == Some(JNum(200))
              && Member(BodyOf(response), "all_succeeded") != Some(JBool(true))
    ensures r.Fail? && r.error.PartialPayloadFailure? ==>
              r.error.response == SortedResponses(Member(BodyOf(response), "responses"))
    ensures r == Pass <==>
              Truthy(BodyOf(response)) && Member(BodyOf(response), "status") == Some(JNum(200))
              && Member(BodyOf(response), "all_succeeded") == Some(JBool(true))
  {
    var body := BodyOf(response);
    if !Truthy(body) then Fail(EmptyCreateResponse)
    else if Member(body, "status") != Some(JNum(200)) then Fail(BadStatusCreateResponse(Member(body, "status")))
    else if Member(body, "all_succeeded") != Some(JBool(true)) then
      Fail(PartialPayloadFailure(SortedResponses(Member(body, "responses"))))
    else Pass
  }

  /** `extractPayloadsFromMessageSet` on the messages' fields: every create
      payload in order, or the first export error. */
  function CollectPayloads(fs: seq<Fields>): Result<seq<Payload>, SinkError>
  {
    if |fs| == 0 then Ok([])
    else match CollectPayloads(fs[..|fs| - 1])
      case Err(e) => Err(e)
      case Ok(ps) =>
        match ExportCreatePayload(fs[|fs| - 1])
        case Err(e) => Err(e)
        case Ok(p) => Ok(ps + [p])
  }

  /** Collecting succeeds exactly when every message exports. */
  lemma {:induction false} CollectOkIff(fs: seq<Fields>)
    ensures CollectPayloads(fs).Ok? <==> forall i | 0 <= i < |fs| :: ExportCreatePayload(fs[i]).Ok?
  {
    if |fs| > 0 {
      var init := fs[..|fs| - 1];
      CollectOkIff(init);
      assert forall i | 0 <= i < |init| :: init[i] == fs[i];
    }
  }

  /** A successful collection holds each message's create payload at the
      message's own position. */
  lemma {:induction false} CollectOkValues(fs: seq<Fields>)
    requires CollectPayloads(fs).Ok?
    ensures |CollectPayloads(fs).value| == |fs|
    ensures forall i | 0 <= i < |fs| ::
              ExportCreatePayload(fs[i]).Ok? && CollectPayloads(fs).value[i] == ExportCreatePayload(fs[i]).value
  {
    if |fs| > 0 {
      var init := fs[..|fs| - 1];
      CollectOkValues(init);
      var ps := CollectPayloads(init).value;
      assert CollectPayloads(fs).value == ps + [ExportCreatePayload(fs[|fs| - 1]).value];
      assert forall i | 0 <= i < |init| :: init[i] == fs[i];
    }
  }

  /** When message `i` is the first that does not export, collecting fails
      with its error. */
  lemma {:induction false} CollectFirstError(fs: seq<Fields>, i: int)
    requires 0 <= i < |fs| && ExportCreatePayload(fs[i]).Err?
    requires forall j | 0 <= j < i :: ExportCreatePayload(fs[j]).Ok?
    ensures CollectPayloads(fs) == Err(ExportCreatePayload(fs[i]).error)
  {
    var init := fs[..|fs| - 1];
    assert forall j | 0 <= j < |init| :: init[j] == fs[j];
    if i == |fs| - 1 {
      CollectOkIff(init);
    } else {
      CollectFirstError(init, i);
    }
  }

  /** The fields of each message, in order. */
  function FieldsOf(ms: seq<MessageSetMessage>): (r: seq<Fields>)
    reads set m | m in ms :: m.wrapper.base.sink
    ensures |r| == |ms|
    ensures forall i | 0 <= i < |ms| :: r[i] == ms[i].wrapper.base.sink.Snapshot()
  {
    if |ms| == 0 then []
    else FieldsOf(ms[..|ms| - 1]) + [ms[|ms| - 1].wrapper.base.sink.Snapshot()]
  }

  /** `extractPayloadsFromMessageSet`: a loop over the messages that stops at
      the first export error. */
  method ExtractPayloadsFromMessageSet(messages: seq<MessageSetMessage>) returns (r: Result<seq<Payload>, SinkError>)
    ensures r == CollectPayloads(FieldsOf(messages))
  {
    ghost var fs := FieldsOf(messages);
    var payloads: seq<Payload> := [];
    var i := 0;
    while i < |messages|
      invariant 0 <= i <= |messages|
      invariant CollectPayloads(fs[..i]) == Ok(payloads)
    {
      var e := ExportCreatePayload(messages[i].wrapper.base.sink.Snapshot());
      assert fs[..i + 1][..i] == fs[..i];
      if e.Err? {
        CollectOkIff(fs[..i]);
        assert forall j | 0 <= j < i :: fs[..i][j] == fs[j];
        CollectFirstError(fs, i);
        return Err(e.error);
      }
      payloads := payloads + [e.value];
      i := i + 1;
    }
    assert fs[..i] == fs;
    r := Ok(payloads);
  }

  /** What `sendMessageSet` leaves behind: the set's lifecycle, the request
      handed to the transport (`None` when it was never called) and how the
      promise settles. */
  datatype GroupFlow = GroupFlow(state: State, request: Option<SetRequest>, result: Outcome<Error>)

  /** `sendMessageSet()`: refuse a second send, collect the payloads, mark
      create started, hand them to the transport, then record the outcome. */
  function SendFlow(fs: seq<Fields>, s: State, timeout: int, outcome: TransportOutcome): GroupFlow
  {
    if s.create.started then GroupFlow(s, None, Fail(SetFailure(MessageSetHasAlreadyBeenSent)))
    else match CollectPayloads(fs)
      case Err(e) => GroupFlow(s, None, Fail(SinkFailure(e)))
      case Ok(ps) =>
        var started := Apply(s, CreateStarted);
        var request := Some(SetRequest(ps, timeout));
        match outcome
        case Rejected(te) =>
          GroupFlow(Apply(started, CreateErrored(WithoutResponse(TransportFailure(te)))),
                    request, Fail(TransportFailure(te)))
        case Resolved(response) =>
          match ValidateSetCreateResponse(response)
          case Fail(ge) =>
            GroupFlow(Apply(started, CreateErrored(WithResponse(response, SetFailure(ge)))),
                      request, Fail(SetFailure(ge)))
          case Pass =>
            GroupFlow(Apply(started, CreateCompleted(BodyOf(response))), request, Pass)
  }

  /** The guards of `sendMessageSet`: a started set is refused, a set with
      a message that does not export is refused with that message's error;
      neither changes anything or calls the transport. Otherwise the
      transport receives every payload, in order, and the timeout. */
  lemma SendFlowGuards(fs: seq<Fields>, s: State, timeout: int, outcome: TransportOutcome)
    ensures var r := SendFlow(fs, s, timeout, outcome);
      && (s.create.started ==> r == GroupFlow(s, None, Fail(SetFailure(MessageSetHasAlreadyBeenSent))))
      && (!s.create.started && CollectPayloads(fs).Err? ==>
            r == GroupFlow(s, None, Fail(SinkFailure(CollectPayloads(fs).error))))
      && (r.request.Some? <==> !s.create.started && forall i | 0 <= i < |fs| :: ExportCreatePayload(fs[i]).Ok?)
      && (r.request.Some? ==>
            && r.request.value.timeout == timeout
            && |r.request.value.messages| == |fs|
            && forall i | 0 <= i < |fs| :: r.request.value.messages[i] == ExportCreatePayload(fs[i]).value)
  {
    CollectOkIff(fs);
    if CollectPayloads(fs).Ok? {
      CollectOkValues(fs);
    }
  }

  /** After the transport call: create is started; a fully successful
      response marks it completed and stores the body; anything else
      stores the failure record as the create error and settles with its
      inner error. Nothing but the create sub-state changes. */
  lemma SendFlowOutcome(fs: seq<Fields>, s: State, timeout: int, outcome: TransportOutcome)
    requires SendFlow(fs, s, timeout, outcome).request.Some?
    ensures var r := SendFlow(fs, s, timeout, outcome);
      && r.state.create.started
      && r.state.update == s.update && r.state.optionsManifest == s.optionsManifest
      && (r.result.Pass? <==> outcome.Resolved? && ValidateSetCreateResponse(outcome.response).Pass?)
      && (r.result.Pass? ==>
            r.state.create == s.create.(started := true, completed := true,
                                        responseBody := BodyOf(outcome.response)))
      && (outcome.Rejected? ==>
            && r.state.create == s.create.(started := true, error := Some(WithoutResponse(TransportFailure(outcome.error))))
            && r.result == Fail(TransportFailure(outcome.error)))
      && (outcome.Resolved? && ValidateSetCreateResponse(outcome.response).Fail? ==>
            var ge := ValidateSetCreateResponse(outcome.response).error;
            && r.state.create == s.create.(started := true, error := Some(WithResponse(outcome.response, SetFailure(ge))))
            && r.result == Fail(SetFailure(ge)))
  {
  }

  /** The set object: the factory's defaults, the queued messages and the
      set's own lifecycle. */
  class MessageSet {
    const factory: MessageFactory
    var messages: seq<MessageSetMessage>
    const lifecycle: MessageLifecycleState

    constructor ()
      ensures fresh(factory) && fresh(lifecycle)
      ensures factory.Snapshot() == InitialDefaults
      ensures messages == []
      ensures lifecycle.state == InitialState
    {
      factory := new MessageFactory();
      messages := [];
      lifecycle := new MessageLifecycleState();
    }

    /** `newMessage(apiKey, userId)`: a fresh set member set up from the
        defaults, appended to the queue. */
    method NewMessage(apiKey: Option<string>, userId: Option<string>, now: string) returns (msg: MessageSetMessage)
      modifies this
      ensures messages == old(messages) + [msg]
      ensures fresh(msg) && fresh(msg.wrapper) && fresh(msg.wrapper.base)
      ensures fresh(msg.wrapper.base.sink) && fresh(msg.wrapper.base.lifecycle)
      ensures msg.wrapper.base.sink.Snapshot() == NewMessageFields(factory.Snapshot(), apiKey, userId, now)
      ensures msg.wrapper.base.lifecycle.state == InitialState
      ensures msg.wrapper.transportTimeout == factory.transportTimeout
    {
      var key := Override(apiKey, factory.apiKey);
      var id := Override(userId, factory.userId);
      msg := new MessageSetMessage(key, id, now);
      ApplyDefaults(msg.wrapper, factory.Snapshot());
      messages := messages + [msg];
    }

    /** `sendMessageSet()`, with the transport's eventual outcome as input. */
    method SendMessageSet(outcome: TransportOutcome) returns (request: Option<SetRequest>, r: Outcome<Error>)
      modifies lifecycle
      ensures GroupFlow(lifecycle.state, request, r)
           == SendFlow(old(FieldsOf(messages)), old(lifecycle.state), factory.transportTimeout, outcome)
    {
      if lifecycle.CreateEntryStarted() {
        return None, Fail(SetFailure(MessageSetHasAlreadyBeenSent));
      }
      var payloads := ExtractPayloadsFromMessageSet(messages);
      if payloads.Err? {
        return None, Fail(SinkFailure(payloads.error));
      }
      lifecycle.SetAsCreateStarted();
      request := Some(SetRequest(payloads.value, factory.transportTimeout));
      match outcome {
        case Rejected(te) =>
          lifecycle.SetAsCreateErrored(WithoutResponse(TransportFailure(te)));
          r := Fail(TransportFailure(te));
        case Resolved(response) =>
          var e := ValidateSetCreateResponse(response);
          if e.Fail? {
            lifecycle.SetAsCreateErrored(WithResponse(response, SetFailure(e.error)));
            r := Fail(SetFailure(e.error));
          } else {
            lifecycle.SetAsCreateCompleted(BodyOf(response));
            r := Pass;
          }
      }
    }

    function GetCreateResponse(): Json
      reads lifecycle
    {
      lifecycle.GetCreateResponse()
    }

    function CreateEntryStarted(): bool
      reads lifecycle
    {
      lifecycle.CreateEntryStarted()
    }

    function CreateEntryCompleted(): bool
      reads lifecycle
    {
      lifecycle.CreateEntryCompleted()
    }
  }
}
