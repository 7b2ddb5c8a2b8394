/** The single-message driver (lib/MessageStateWrapper.js): the response
    validators and the guarded `send` and `update` flows. A flow is first
    stated as a pure function of the fields, the lifecycle state, the
    timeout and the outcome the transport delivers; the class's methods
    perform it in place and are proved to match it. */
module MessageStateWrapper {
  import opened Wrappers
  import opened Json
  import opened Transport
  import opened MessageSinkErrors
  import opened MessageStateWrapperErrors
  import opened Rejections
  import opened MessageSink
  import opened MessageLifecycleState
  import opened MessageStateSink

  /** The default `transport_timeout`, in milliseconds. */
  const DefaultTransportTimeout: int := 5000

  /** `response.body`, with a missing response read as a missing body. */
  function BodyOf(response: Option<Response>): Json
  {
    if response.Some? then response.value.body else JNull
  }

  /** `extractMessageId`: the body's `message_id` when it is a string. */
  function ExtractMessageId(body: Json): (r: Option<string>)
    ensures r.Some? <==> Member(body, "message_id").Some? && Member(body, "message_id").value.JStr?
    ensures r.Some? ==> Member(body, "message_id") == Some(JStr(r.value))
  {
    match Member(body, "message_id")
    case Some(JStr(id)) => Some(id)
    case _ => None
  }

  /** `validateCreateResponse`: the first failing check, in order. */
  function ValidateCreateResponse(response: Option<Response>): (r: Outcome<WrapperError>)
    ensures r == Fail(EmptyCreateResponse) <==> !Truthy(BodyOf(response))
    ensures r.Fail? && r.error.BadStatusCreateResponse? <==>
              Truthy(BodyOf(response)) && Member(BodyOf(response), "status") != Some(JNum(200))
    ensures r.Fail? && r.error.BadStatusCreateResponse? ==>
              r.error.status == Member(BodyOf(response), "status")
    ensures r == Fail(BadMessageIdCreateResponse) <==>
              Truthy(BodyOf(response)) && Member(BodyOf(response), "status") == Some(JNum(200))
              && !TruthyMember(Member(BodyOf(response), "message_id"))
    ensures r == Pass <==>
              Truthy(BodyOf(response)) && Member(BodyOf(response), "status") == Some(JNum(200))
              && TruthyMember(Member(BodyOf(response), "message_id"))
  {
    var body := BodyOf(response);
    if !Truthy(body) then Fail(EmptyCreateResponse)
    else if Member(body, "status") != Some(JNum(200)) then Fail(BadStatusCreateResponse(Member(body, "status")))
    else if !TruthyMember(Member(body, "message_id")) then Fail(BadMessageIdCreateResponse)
    else Pass
  }

  /** `validateUpdateResponse`: the first failing check, in order. */
  function ValidateUpdateResponse(response: Option<Response>): (r: Outcome<WrapperError>)
    ensures r == Fail(EmptyUpdateResponse) <==> !Truthy(BodyOf(response))
    ensures r.Fail? && r.error.FieldsFailedToUpdate? <==>
              Truthy(BodyOf(response)) && Member(BodyOf(response), "status") != Some(JNum(200))
              && Member(BodyOf(response), "error").Some? && Member(BodyOf(response), "error").value.JArr?
    ensures r.Fail? && r.error.FieldsFailedToUpdate? ==>
              Member(BodyOf(response), "error") == Some(JArr(r.error.fields))
    ensures r.Fail? && r.error.GenericUpdateError? <==>
              Truthy(BodyOf(response)) && Member(BodyOf(response), "status") != Some(JNum(200))
              && Member(BodyOf(response), "error").Some? && Member(BodyOf(response), "error").value.JStr?
    ensures r.Fail? && r.error.GenericUpdateError? ==>
              Member(BodyOf(response), "error") == Some(JStr(r.error.serviceError))
    ensures r.Fail? && r.error.BadStatusUpdateResponse? <==>
              Truthy(BodyOf(response)) && Member(BodyOf(response), "status") != Some(JNum(200))
              && !(Member(BodyOf(response), "error").Some? && Member(BodyOf(response), "error").value.JArr?)
              && !(Member(BodyOf(response), "error").Some? && Member(BodyOf(response), "error").value.JStr?)
    ensures r.Fail? && r.error.BadStatusUpdateResponse? ==>
              r.error.status == Member(BodyOf(response), "status")
    ensures r == Fail(UpdateResponseDidNotHaveUpdatedList) <==>
              Truthy(BodyOf(response)) && Member(BodyOf(response), "status") == Some(JNum(200))
              && Member(BodyOf(response), "updated").None?
    ensures r == Pass <==>
              Truthy(BodyOf(response)) && Member(BodyOf(response), "status") == Some(JNum(200))
              && Member(BodyOf(response), "updated").Some?
  {
    var body := BodyOf(response);
    if !Truthy(body) then Fail(EmptyUpdateResponse)
    else if Member(body, "status") != Some(JNum(200)) then
      match Member(body, "error")
      case Some(JArr(items)) => Fail(FieldsFailedToUpdate(items))
      case Some(JStr(s)) => Fail(GenericUpdateError(s))
      case _ => Fail(BadStatusUpdateResponse(Member(body, "status")))
    else if Member(body, "updated").None? then Fail(UpdateResponseDidNotHaveUpdatedList)
    else Pass
  }

  /** Whether the manifest marks payload key `k` for the update body; keys
      outside the manifest never are. */
  function Flagged(m: Manifest, k: Key): bool
  {
    match k
    case Intent => m.intent
    case NotHandled => m.notHandled
    case Version => m.version
    case Feedback => m.feedback
    case _ => false
  }

  /** The update query: `{api_key, message_id}` read from the payload. */
  function UpdateQuery(p: Payload): Payload
  {
    map k | k in p && (k == ApiKey || k == MessageId) :: p[k]
  }

  /** lodash `pickBy(payload, (v, key) => opts[key])`. */
  function UpdateBody(p: Payload, m: Manifest): Payload
  {
    map k | k in p && Flagged(m, k) :: p[k]
  }

  /** What a flow leaves behind: the message's fields, its lifecycle, the
      request handed to the transport (`None` when it was never called) and
      how the promise settles. */
  datatype Flow<R> = Flow(fields: Fields, state: State, request: Option<R>, result: Outcome<Error>)

  /** `send()`: refuse a second send, export the create payload, mark create
      started, hand the payload to the transport, then record the outcome. */
  function CreateFlow(f: Fields, s: State, timeout: int, outcome: TransportOutcome): Flow<CreateRequest>
  {
    if s.create.started then Flow(f, s, None, Fail(WrapperFailure(MessageHasAlreadyBeenSent)))
    else match ExportCreatePayload(f)
      case Err(e) => Flow(f, s, None, Fail(SinkFailure(e)))
      case Ok(p) =>
        var started := Apply(s, CreateStarted);
        var request := Some(CreateRequest(p, timeout));
        match outcome
        case Rejected(te) =>
          Flow(f, Apply(started, CreateErrored(WithoutResponse(TransportFailure(te)))),
               request, Fail(TransportFailure(te)))
        case Resolved(response) =>
          match ValidateCreateResponse(response)
          case Fail(we) =>
            Flow(f, Apply(started, CreateErrored(WithResponse(response, WrapperFailure(we)))),
                 request, Fail(WrapperFailure(we)))
          case Pass =>
            Flow(f.(messageId := ExtractMessageId(BodyOf(response))),
                 Apply(started, CreateCompleted(BodyOf(response))), request, Pass)
  }

  /** `update()`: the four guards in order, then mark update started, send
      the query and the flagged part of the payload, and record the
      outcome. */
  function UpdateFlow(f: Fields, s: State, timeout: int, outcome: TransportOutcome): Flow<UpdateRequest>
  {
    if UpdateBlocker(s).Some? then Flow(f, s, None, Fail(WrapperFailure(MessageCannotBeUpdated)))
    else if !s.create.completed then Flow(f, s, None, Fail(WrapperFailure(MessageMustBeSentBeforeBeingUpdated)))
    else if s.update.started then Flow(f, s, None, Fail(WrapperFailure(MessageHasAlreadyBeenUpdated)))
    else match ExportUpdatePayload(f)
      case Err(e) => Flow(f, s, None, Fail(SinkFailure(e)))
      case Ok(p) =>
        var started := Apply(s, UpdateStarted);
        var request := Some(UpdateRequest(UpdateQuery(p), UpdateBody(p, started.optionsManifest), timeout));
        match outcome
        case Rejected(te) =>
          Flow(f, Apply(started, UpdateErrored(WithoutResponse(TransportFailure(te)))),
               request, Fail(TransportFailure(te)))
        case Resolved(response) =>
          match ValidateUpdateResponse(response)
          case Fail(we) =>
            Flow(f, Apply(started, UpdateErrored(WithResponse(response, WrapperFailure(we)))),
                 request, Fail(WrapperFailure(we)))
          case Pass =>
            Flow(f, Apply(started, UpdateCompleted(BodyOf(response))), request, Pass)
  }

  /** The guards of `send`: a started create is refused with
      `MessageHasAlreadyBeenSent`, an invalid payload with its export error;
      neither changes anything or calls the transport. Otherwise the
      transport receives the create payload and the timeout. */
  lemma CreateFlowGuards(f: Fields, s: State, timeout: int, outcome: TransportOutcome)
    ensures var r := CreateFlow(f, s, timeout, outcome);
      && (s.create.started ==> r == Flow(f, s, None, Fail(WrapperFailure(MessageHasAlreadyBeenSent))))
      && (!s.create.started && ExportCreatePayload(f).Err? ==>
            r == Flow(f, s, None, Fail(SinkFailure(ExportCreatePayload(f).error))))
      && (r.request.Some? <==> !s.create.started && ExportCreatePayload(f).Ok?)
      && (r.request.Some? ==> r.request.value == CreateRequest(ExportCreatePayload(f).value, timeout))
  {
  }

  /** After the transport call: create is started; a valid response marks
      it completed, stores the body verbatim and adopts the extracted
      message id; anything else stores the failure record as the create
      error and settles with the record's inner error. The update sub-state
      and the manifest are never touched. */
  lemma CreateFlowOutcome(f: Fields, s: State, timeout: int, outcome: TransportOutcome)
    requires CreateFlow(f, s, timeout, outcome).request.Some?
    ensures var r := CreateFlow(f, s, timeout, outcome);
      && r.state.create.started
      && r.state.update == s.update && r.state.optionsManifest == s.optionsManifest
      && (r.result.Pass? <==> outcome.Resolved? && ValidateCreateResponse(outcome.response).Pass?)
      && (r.result.Pass? ==>
            && r.state.create == s.create.(started := true, completed := true,
                                           responseBody := BodyOf(outcome.response))
            && r.fields == f.(messageId := ExtractMessageId(BodyOf(outcome.response))))
      && (outcome.Rejected? ==>
            && r.state.create == s.create.(started := true, error := Some(WithoutResponse(TransportFailure(outcome.error))))
            && r.result == Fail(TransportFailure(outcome.error)))
      && (outcome.Resolved? && ValidateCreateResponse(outcome.response).Fail? ==>
            var we := ValidateCreateResponse(outcome.response).error;
            && r.state.create == s.create.(started := true, error := Some(WithResponse(outcome.response, WrapperFailure(we))))
            && r.result == Fail(WrapperFailure(we)))
      && (r.result.Fail? ==> r.fields == f && UpdateBlocker(r.state).Some?)
  {
  }

  /** The guards of `update`, in order, each settling before update is
      started and without calling the transport. */
  lemma UpdateFlowGuards(f: Fields, s: State, timeout: int, outcome: TransportOutcome)
    ensures var r := UpdateFlow(f, s, timeout, outcome);
      && (UpdateBlocker(s).Some? ==>
            r == Flow(f, s, None, Fail(WrapperFailure(MessageCannotBeUpdated))))
      && (UpdateBlocker(s).None? && !s.create.completed ==>
            r == Flow(f, s, None, Fail(WrapperFailure(MessageMustBeSentBeforeBeingUpdated))))
      && (UpdateBlocker(s).None? && s.create.completed && s.update.started ==>
            r == Flow(f, s, None, Fail(WrapperFailure(MessageHasAlreadyBeenUpdated))))
      && (UpdateBlocker(s).None? && s.create.completed && !s.update.started
          && ExportUpdatePayload(f).Err? ==>
            r == Flow(f, s, None, Fail(SinkFailure(ExportUpdatePayload(f).error))))
      && (r.request.Some? <==> UpdateBlocker(s).None? && s.create.completed && !s.update.started
                               && ExportUpdatePayload(f).Ok?)
  {
  }

  /** The query of a payload that holds both identifiers is exactly those
      two entries. */
  lemma QueryOfIdentifiers(p: Payload, apiKey: Json, messageId: Json)
    requires ApiKey in p && p[ApiKey] == apiKey && MessageId in p && p[MessageId] == messageId
    ensures UpdateQuery(p) == map[ApiKey := apiKey, MessageId := messageId]
  {
    var q := UpdateQuery(p);
    assert q.Keys == {ApiKey, MessageId};
  }

  /** The query built from a successful update export. */
  lemma QueryOfExport(f: Fields)
    requires ExportUpdatePayload(f).Ok?
    ensures f.apiKey.Some? && f.messageId.Some?
    ensures UpdateQuery(ExportUpdatePayload(f).value)
         == map[ApiKey := JStr(f.apiKey.value), MessageId := JStr(f.messageId.value)]
  {
    UpdatePayloadIdentifiers(f);
    QueryOfIdentifiers(ExportUpdatePayload(f).value, JStr(f.apiKey.value), JStr(f.messageId.value));
  }

  /** The body built from a successful update export under manifest `m`. */
  lemma BodyOfExport(f: Fields, m: Manifest)
    requires ExportUpdatePayload(f).Ok?
    ensures var b := UpdateBody(ExportUpdatePayload(f).value, m);
      && (forall k :: k in b <==> Flagged(m, k) && UpdateValue(f, k) != JNull)
      && (forall k | k in b :: b[k] == UpdateValue(f, k))
  {
    UpdatePayloadContents(f);
  }

  /** The update request: the query is exactly the api key and the message
      id; the body holds exactly the payload entries whose manifest flag is
      set, so it never carries either identifier. */
  lemma UpdateRequestShape(f: Fields, s: State, timeout: int, outcome: TransportOutcome)
    requires UpdateFlow(f, s, timeout, outcome).request.Some?
    ensures var q := UpdateFlow(f, s, timeout, outcome).request.value;
      && f.apiKey.Some? && f.messageId.Some?
      && q.query == map[ApiKey := JStr(f.apiKey.value), MessageId := JStr(f.messageId.value)]
      && (forall k :: k in q.body <==> Flagged(s.optionsManifest, k) && UpdateValue(f, k) != JNull)
      && (forall k | k in q.body :: q.body[k] == UpdateValue(f, k))
      && ApiKey !in q.body && MessageId !in q.body
      && q.timeout == timeout
  {
    UpdateExportVerdict(f);
    var p := ExportUpdatePayload(f).value;
    assert UpdateFlow(f, s, timeout, outcome).request.value
        == UpdateRequest(UpdateQuery(p), UpdateBody(p, s.optionsManifest), timeout);
    QueryOfExport(f);
    BodyOfExport(f, s.optionsManifest);
  }

  /** Under a manifest that flags only the intent, the body of an update
      export is the intent alone. */
  lemma BodyOfIntentOnly(g: Fields)
    requires ExportUpdatePayload(g).Ok? && g.intent.Some?
    ensures UpdateBody(ExportUpdatePayload(g).value, Manifest(true, false, false, false))
         == map[Intent := JStr(g.intent.value)]
  {
    var m := Manifest(true, false, false, false);
    var b := UpdateBody(ExportUpdatePayload(g).value, m);
    BodyOfExport(g, m);
    forall k
      ensures Flagged(m, k) <==> k == Intent
    {
    }
    assert UpdateValue(g, Intent) == JStr(g.intent.value);
    assert b.Keys == {Intent};
  }

  /** An update whose manifest flags only the intent sends the intent and
      nothing else. */
  lemma UpdateOfIntentOnly(g: Fields, s: State, timeout: int, outcome: TransportOutcome)
    requires ExportUpdatePayload(g).Ok? && g.intent.Some?
    requires s.create.completed && !s.update.started && UpdateBlocker(s).None?
    requires s.optionsManifest == Manifest(true, false, false, false)
    ensures UpdateFlow(g, s, timeout, outcome).request.Some?
    ensures UpdateFlow(g, s, timeout, outcome).request.value.body == map[Intent := JStr(g.intent.value)]
  {
    UpdateFlowGuards(g, s, timeout, outcome);
    var p := ExportUpdatePayload(g).value;
    assert UpdateFlow(g, s, timeout, outcome).request.value.body == UpdateBody(p, s.optionsManifest);
    BodyOfIntentOnly(g);
  }

  /** The manifest at work: after a successful send, setting the intent
      through the state-tracking sink makes the next update carry the
      intent and nothing else. */
  lemma IntentAfterSendIsTheWholeUpdate(f: Fields, timeout: int, body: Json, x: string, outcome: TransportOutcome)
    requires ExportCreatePayload(f).Ok?
    requires ValidateCreateResponse(Some(Response(body))) == Pass && ExtractMessageId(body).Some?
    ensures var c := CreateFlow(f, InitialState, timeout, Resolved(Some(Response(body))));
      var u := UpdateFlow(c.fields.(intent := Some(x)), Dirty(c.state, FlagIntent), timeout, outcome);
      && u.request.Some?
      && u.request.value.body == map[Intent := JStr(x)]
  {
    var response := Some(Response(body));
    var c := CreateFlow(f, InitialState, timeout, Resolved(response));
    assert c.state == InitialState.(create := InitialEntry.(started := true, completed := true, responseBody := body));
    assert c.fields == f.(messageId := ExtractMessageId(body));
    var g := c.fields.(intent := Some(x));
    CreateExportVerdict(f);
    UpdateExportVerdict(g);
    UpdateOfIntentOnly(g, Dirty(c.state, FlagIntent), timeout, outcome);
  }

  /** After the transport call: update is started; a valid response marks
      it completed and stores the body; anything else stores the failure
      record as the update error, which from then on blocks every update.
      The fields, the create sub-state and the manifest are never touched. */
  lemma UpdateFlowOutcome(f: Fields, s: State, timeout: int, outcome: TransportOutcome)
    requires UpdateFlow(f, s, timeout, outcome).request.Some?
    ensures var r := UpdateFlow(f, s, timeout, outcome);
      && r.fields == f
      && r.state.update.started
      && r.state.create == s.create && r.state.optionsManifest == s.optionsManifest
      && (r.result.Pass? <==> outcome.Resolved? && ValidateUpdateResponse(outcome.response).Pass?)
      && (r.result.Pass? ==>
            r.state.update == s.update.(started := true, completed := true,
                                        responseBody := BodyOf(outcome.response)))
      && (outcome.Rejected? ==>
            && r.state.update == s.update.(started := true, error := Some(WithoutResponse(TransportFailure(outcome.error))))
            && r.result == Fail(TransportFailure(outcome.error)))
      && (outcome.Resolved? && ValidateUpdateResponse(outcome.response).Fail? ==>
            var we := ValidateUpdateResponse(outcome.response).error;
            && r.state.update == s.update.(started := true, error := Some(WithResponse(outcome.response, WrapperFailure(we))))
            && r.result == Fail(WrapperFailure(we)))
      && (r.result.Fail? ==> UpdateBlocker(r.state).Some?)
  {
  }

  /** A truthy message id that is not a string (a number, say) passes the
      create validator, but `extractMessageId` then yields `null`: right
      after the send the message cannot be exported for update, and an
      `update()` that passes its lifecycle guards is refused with that
      export error without calling the transport. Only a later
      `setMessageId` on the sink repairs it. */
  lemma NumericMessageIdIsDropped(f: Fields, s: State, timeout: int, body: Json,
                                  timeout2: int, outcome2: TransportOutcome)
    requires !s.create.started && ExportCreatePayload(f).Ok?
    requires ValidateCreateResponse(Some(Response(body))) == Pass
    requires Member(body, "message_id").Some? && !Member(body, "message_id").value.JStr?
    ensures var r := CreateFlow(f, s, timeout, Resolved(Some(Response(body))));
      && r.result == Pass
      && r.state.create.completed
      && r.fields.messageId.None?
      && ExportUpdatePayload(r.fields).Err?
      && (UpdateBlocker(s).None? && !s.update.started ==>
            UpdateFlow(r.fields, r.state, timeout2, outcome2)
              == Flow(r.fields, r.state, None, Fail(SinkFailure(ExportUpdatePayload(r.fields).error))))
  {
    var r := CreateFlow(f, s, timeout, Resolved(Some(Response(body))));
    assert r.fields == f.(messageId := None);
    UpdateExportVerdict(r.fields);
  }

  /** The numeric case the service may send: `{"status": 200, "message_id": 7}`. */
  lemma NumericMessageIdExample(f: Fields, s: State, timeout: int)
    requires !s.create.started && ExportCreatePayload(f).Ok?
    ensures var response := Some(Response(JObj(map["status" := JNum(200), "message_id" := JNum(7)])));
      && ValidateCreateResponse(response) == Pass
      && ExportUpdatePayload(CreateFlow(f, s, timeout, Resolved(response)).fields).Err?
  {
    var body := JObj(map["status" := JNum(200), "message_id" := JNum(7)]);
    assert Member(body, "status") == Some(JNum(200));
    assert Member(body, "message_id") == Some(JNum(7));
    NumericMessageIdIsDropped(f, s, timeout, body, timeout, Resolved(None));
  }

  /** The single-message object: a state-tracking sink and its timeout. */
  class MessageStateWrapper {
    const base: MessageStateSink
    var transportTimeout: int

    constructor (apiKey: Option<string>, userId: Option<string>, now: string)
      ensures fresh(base) && fresh(base.sink) && fresh(base.lifecycle)
      ensures base.sink.Snapshot() == FreshFields(apiKey, userId, now)
      ensures base.lifecycle.state == InitialState
      ensures transportTimeout == DefaultTransportTimeout
    {
      base := new MessageStateSink(apiKey, userId, now);
      transportTimeout := DefaultTransportTimeout;
    }

    method SetClientTimeout(t: int)
      modifies this
      ensures transportTimeout == t
    {
      transportTimeout := t;
    }

    /** `send()`, with the transport's eventual outcome as input. */
    method Send(outcome: TransportOutcome) returns (request: Option<CreateRequest>, r: Outcome<Error>)
      modifies base.sink, base.lifecycle
      ensures Flow(base.sink.Snapshot(), base.lifecycle.state, request, r)
           == CreateFlow(old(base.sink.Snapshot()), old(base.lifecycle.state), transportTimeout, outcome)
    {
      var sink := base.sink;
      var lifecycle := base.lifecycle;
      if lifecycle.CreateEntryStarted() {
        return None, Fail(WrapperFailure(MessageHasAlreadyBeenSent));
      }
      var payload := ExportCreatePayload(sink.Snapshot());
      if payload.Err? {
        return None, Fail(SinkFailure(payload.error));
      }
      lifecycle.SetAsCreateStarted();
      request := Some(CreateRequest(payload.value, transportTimeout));
      match outcome {
        case Rejected(te) =>
          lifecycle.SetAsCreateErrored(WithoutResponse(TransportFailure(te)));
          r := Fail(TransportFailure(te));
        case Resolved(response) =>
          var e := ValidateCreateResponse(response);
          if e.Fail? {
            lifecycle.SetAsCreateErrored(WithResponse(response, WrapperFailure(e.error)));
            r := Fail(WrapperFailure(e.error));
          } else {
            lifecycle.SetAsCreateCompleted(BodyOf(response));
            sink.SetMessageId(ExtractMessageId(BodyOf(response)));
            r := Pass;
          }
      }
    }

    /** `update()`, with the transport's eventual outcome as input. */
    method Update(outcome: TransportOutcome) returns (request: Option<UpdateRequest>, r: Outcome<Error>)
      modifies base.lifecycle
      ensures Flow(base.sink.Snapshot(), base.lifecycle.state, request, r)
           == UpdateFlow(base.sink.Snapshot(), old(base.lifecycle.state), transportTimeout, outcome)
    {
      var lifecycle := base.lifecycle;
      if lifecycle.CannotBeUpdated().Some? {
        return None, Fail(WrapperFailure(MessageCannotBeUpdated));
      } else if !lifecycle.CreateEntryCompleted() {
        return None, Fail(WrapperFailure(MessageMustBeSentBeforeBeingUpdated));
      } else if lifecycle.UpdateEntryStarted() {
        return None, Fail(WrapperFailure(MessageHasAlreadyBeenUpdated));
      }
      var payload := ExportUpdatePayload(base.sink.Snapshot());
      if payload.Err? {
        return None, Fail(SinkFailure(payload.error));
      }
      var query := UpdateQuery(payload.value);
      lifecycle.SetAsUpdateStarted();
      var opts := lifecycle.OptionsManifest();
      request := Some(UpdateRequest(query, UpdateBody(payload.value, opts), transportTimeout));
      match outcome {
        case Rejected(te) =>
          lifecycle.SetAsUpdateErrored(WithoutResponse(TransportFailure(te)));
          r := Fail(TransportFailure(te));
        case Resolved(response) =>
          var e := ValidateUpdateResponse(response);
          if e.Fail? {
            lifecycle.SetAsUpdateErrored(WithResponse(response, WrapperFailure(e.error)));
            r := Fail(WrapperFailure(e.error));
          } else {
            lifecycle.SetAsUpdateCompleted(BodyOf(response));
            r := Pass;
          }
      }
    }
  }
}
