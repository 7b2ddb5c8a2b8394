# chatbase-node message lifecycle and payload engine, in Dafny

This project models the message engine of the Chatbase Node.js client:

- the **message sink**: a message's fields, four validators and two payload exporters;
- the **lifecycle state**: the create and update sub-states and the options manifest of dirty flags;
- the **state-tracking sink**: setters that flag their key for the next update once the message has been created;
- the **single-message wrapper**: response validators and the guarded `send`/`update` flows;
- the **message set**: a queue of members sent in one request, with a per-member response partition;
- the **factory**: defaults copied onto new messages;
- the error kinds of each layer.

## How the model is organised

- **Values from the service** are a `Json` datatype (`json.dfy`). `Member` is a JavaScript property read and `Truthy` is JavaScript truthiness.
- **Payload keys** are the `Key` enumeration, and a payload is a `map<Key, Json>`. `KeyName` gives each key's wire spelling.
- **Each error class** is a datatype constructor. `Rejections.Error` is whatever a promise can be rejected with. `ErrorRecord` is the `{response, error}` / `{error}` object stored in the lifecycle.
  - There are exactly three sink error kinds (`message_sink_errors.dfy`).
  - There are twelve wrapper error kinds (`message_state_wrapper_errors.dfy`).
  - There are four set error kinds (`message_set_errors.dfy`).
  - Each error carries the data the source puts into its message text: a status, a field list or a service string. `PartialPayloadFailure` is the one class that stores a field, `response`, and it carries that partition.
- **Classes whose fields the source assigns in place** are Dafny classes:
  - `MessageSink`, `MessageLifecycleState` and `MessageFactory`;
  - their setters have `modifies this` and state the whole new snapshot.
- **Inheritance** becomes composition through `const` references:
  - a state sink holds a `sink` and a `lifecycle`;
  - a wrapper holds its state sink `base` and a timeout;
  - a set member holds its `wrapper`;
  - a set holds its `factory`, its `messages` and its own `lifecycle`.
- **Each lifecycle mutator** is an `Event`. `Apply` gives its effect on the `State` value, and each mutator method is proved to perform exactly that effect.
- **The transport is not modelled.** `send`, `update` and `sendMessageSet` take the outcome the transport would deliver as an input. They return the request they would hand it, or `None` when they never call it.
  - These methods set the started flag before they consume the outcome.
  - Each flow is first a pure function (`CreateFlow`, `UpdateFlow`, `SendFlow`), with lemmas about guards and outcomes. Each method is proved to perform its flow.
- **The two loops**, `sortMixedResponsePayload` and `extractPayloadsFromMessageSet`, are methods with loop invariants. Each is proved against a recursive reference function (`Succeeded`/`Failed`, `CollectPayloads`). Lemmas about those functions state the promised properties.

## Model

| member | source | states |
|---|---|---|
| Json.OmitNull | lib/MessageSink.js:433-435 | the result keeps exactly the entries whose value is not null, unchanged |
| MessageSink.MessageSink.constructor | lib/MessageSink.js:85-228 | a fresh sink: given api key and user id, type user, both flags false, timestamp the given time, every other field null |
| MessageSink.MessageSink.SetAsTypeUser | lib/MessageSink.js:234-237 | only the type changes, to user |
| MessageSink.MessageSink.SetAsTypeAgent | lib/MessageSink.js:243-246 | only the type changes, to agent |
| MessageSink.MessageSink.SetTimestamp | lib/MessageSink.js:252-255 | only the timestamp changes |
| MessageSink.MessageSink.SetPlatform | lib/MessageSink.js:262-265 | only the platform changes |
| MessageSink.MessageSink.SetMessage | lib/MessageSink.js:272-275 | only the message text changes |
| MessageSink.MessageSink.SetIntent | lib/MessageSink.js:281-284 | only the intent changes |
| MessageSink.MessageSink.SetAsHandled | lib/MessageSink.js:291-294 | only not_handled changes, to false |
| MessageSink.MessageSink.SetAsNotHandled | lib/MessageSink.js:300-303 | only not_handled changes, to true |
| MessageSink.MessageSink.SetVersion | lib/MessageSink.js:309-312 | only the version changes |
| MessageSink.MessageSink.SetAsFeedback | lib/MessageSink.js:318-321 | only feedback changes, to true |
| MessageSink.MessageSink.SetAsNotFeedback | lib/MessageSink.js:327-330 | only feedback changes, to false |
| MessageSink.MessageSink.SetMessageId | lib/MessageSink.js:338-341 | only the message id changes |
| MessageSink.MessageSink.SetUserId | lib/MessageSink.js:348-351 | only the user id changes |
| MessageSink.MessageSink.SetResponseTime | lib/MessageSink.js:359-362 | only the response time changes |
| MessageSink.MessageSink.SetCustomSessionId | lib/MessageSink.js:370-373 | only the custom session id changes |
| MessageSink.CreateManifestIff | lib/MessageSink.js:32-33 | the create manifest holds iff api key, user id, timestamp, platform and message are all set (type is always a string) |
| MessageSink.UpdateManifestIff | lib/MessageSink.js:36 | the update manifest holds iff api key and message id are both set |
| MessageSink.FreshFailsCreateManifest | lib/MessageSink.js:85-228 | a fresh sink is of type user, passes both flag validators and fails the create manifest |
| MessageSink.CreateExportVerdict | lib/MessageSink.js:424-436 | the create export checks in order; it returns the not-handled error iff not_handled is set on an agent message, the feedback error iff only feedback is, RequiredKeysNotSet with the create required list iff the flags are legal but a required field is missing, and a payload iff every check passes |
| MessageSink.UpdateExportVerdict | lib/MessageSink.js:445-457 | the same order for the update export, with the update required list |
| MessageSink.AgentFlagsNeverExport | lib/MessageSink.js:381-395 | an agent message with either flag set is refused by both exporters, with the not-handled error taking precedence |
| MessageSink.RawCreateAt | lib/MessageSink.js:65-71 | before null stripping, the merged create payload holds at each key what CreateValue says, or nothing where that is null |
| MessageSink.RawUpdateAt | lib/MessageSink.js:72-77 | the same for the merged update payload and UpdateValue |
| MessageSink.CreatePayloadContents | lib/MessageSink.js:424-436 | a successful create payload holds exactly the keys whose create value is not null, each with that value: the flags as the string "true" iff set, message_id never |
| MessageSink.UpdatePayloadContents | lib/MessageSink.js:445-457 | a successful update payload holds exactly the keys whose update value is not null: identifiers, intent, version and both raw flags |
| MessageSink.CreatePayloadRequired | lib/MessageSink.js:30-33 | every required create key is present as a string, and type carries the type's name |
| MessageSink.UpdatePayloadRequired | lib/MessageSink.js:34-36 | both identifiers are present as strings, and both flags as raw booleans |
| MessageSink.UpdatePayloadIdentifiers | lib/MessageSink.js:445-457 | a successful update payload carries exactly the field values of api key and message id |
| MessageSink.CreateValueKeys | lib/MessageSink.js:30-31 | only create export keys and the two flags can carry a create value |
| MessageSink.UpdateValueKeys | lib/MessageSink.js:34-35 | only update export keys and not_handled can carry an update value |
| MessageSink.CreatePayloadShape | lib/MessageSink.js:424-436 | a create payload holds only create payload keys and no null; not_handled and feedback appear, as "true", iff set |
| MessageSink.UpdatePayloadShape | lib/MessageSink.js:445-457 | an update payload holds only update payload keys and no null |
| MessageLifecycleState.Apply | lib/MessageLifecycleState.js:100-202 | no mutator unsets a started, completed, error or manifest flag; create mutators touch only create, update mutators only update, a flag mutator sets its own manifest key and leaves every other manifest key as it was |
| MessageLifecycleState.UpdateBlocker | lib/MessageLifecycleState.js:294-301 | blocked iff an error is stored; the create error takes precedence over the update error |
| MessageLifecycleState.InitialStateIsBlank | lib/MessageLifecycleState.js:66-92 | initially nothing is started, completed or stored, the manifest is all false and nothing blocks an update |
| MessageLifecycleState.AdvancesTransitive | lib/MessageLifecycleState.js:100-202 | monotonicity composes |
| MessageLifecycleState.RunAdvances | lib/MessageLifecycleState.js:100-202 | monotonicity over any sequence of mutators |
| MessageLifecycleState.BlockerIsSticky | lib/MessageLifecycleState.js:294-301 | once blocked, always blocked, and a create error stays the blocker |
| MessageLifecycleState.RunSeparatesSubStates | lib/MessageLifecycleState.js:100-158 | a sequence of create mutators never changes the update sub-state or manifest, and vice versa |
| MessageLifecycleState.FlagIdempotent | lib/MessageLifecycleState.js:166-202 | flagging twice is flagging once |
| MessageLifecycleState.MessageLifecycleState.constructor | lib/MessageLifecycleState.js:23-93 | the state starts as the initial state |
| MessageLifecycleState.MessageLifecycleState.SetAsCreateStarted | lib/MessageLifecycleState.js:100-103 | the state becomes the effect of the create-started event |
| MessageLifecycleState.MessageLifecycleState.SetAsCreateCompleted | lib/MessageLifecycleState.js:112-116 | completed is set and the body stored verbatim; nothing else changes |
| MessageLifecycleState.MessageLifecycleState.SetAsCreateErrored | lib/MessageLifecycleState.js:123-126 | the error record is stored; nothing else changes |
| MessageLifecycleState.MessageLifecycleState.SetAsUpdateStarted | lib/MessageLifecycleState.js:133-136 | the state becomes the effect of the update-started event |
| MessageLifecycleState.MessageLifecycleState.SetAsUpdateCompleted | lib/MessageLifecycleState.js:143-147 | completed is set and the body stored verbatim; nothing else changes |
| MessageLifecycleState.MessageLifecycleState.SetAsUpdateErrored | lib/MessageLifecycleState.js:155-158 | the error record is stored; nothing else changes |
| MessageLifecycleState.MessageLifecycleState.FlagIntentForUpdate | lib/MessageLifecycleState.js:166-169 | the intent flag is set; nothing else changes |
| MessageLifecycleState.MessageLifecycleState.FlagNotHandledForUpdate | lib/MessageLifecycleState.js:177-180 | the not_handled flag is set; nothing else changes |
| MessageLifecycleState.MessageLifecycleState.FlagVersionForUpdate | lib/MessageLifecycleState.js:188-191 | the version flag is set; nothing else changes |
| MessageLifecycleState.MessageLifecycleState.FlagFeedbackForUpdate | lib/MessageLifecycleState.js:199-202 | the feedback flag is set; nothing else changes |
| MessageStateSink.DirtyFlagsIffMayFlag | lib/MessageStateSink.js:40-112 | a wrapped setter's key is flagged afterwards iff it was before or create had completed with nothing blocking; every other manifest key keeps its value, and no other lifecycle field changes |
| MessageStateSink.CreateErrorStopsFlagging | lib/MessageStateSink.js:41 | with a create error stored no wrapped setter flags anything, even after completion |
| MessageStateSink.NoFlaggingBeforeCreate | lib/MessageStateSink.js:40-112 | before create has completed no wrapped setter flags anything |
| MessageStateSink.MessageStateSink.constructor | lib/MessageStateSink.js:24-32 | a fresh sink with its own fresh lifecycle in the initial state |
| MessageStateSink.MessageStateSink.SetIntent | lib/MessageStateSink.js:40-46 | the intent is always assigned; the intent key is flagged under the condition checked before assigning |
| MessageStateSink.MessageStateSink.SetAsHandled | lib/MessageStateSink.js:53-59 | not_handled becomes false; the not_handled key is flagged under the same condition |
| MessageStateSink.MessageStateSink.SetAsNotHandled | lib/MessageStateSink.js:66-72 | not_handled becomes true; the not_handled key is flagged under the same condition |
| MessageStateSink.MessageStateSink.SetVersion | lib/MessageStateSink.js:80-86 | the version is always assigned; the version key is flagged under the same condition |
| MessageStateSink.MessageStateSink.SetAsFeedback | lib/MessageStateSink.js:93-99 | feedback becomes true; the feedback key is flagged under the same condition |
| MessageStateSink.MessageStateSink.SetAsNotFeedback | lib/MessageStateSink.js:106-112 | feedback becomes false; the feedback key is flagged under the same condition |
| MessageStateWrapper.ExtractMessageId | lib/MessageStateWrapper.js:41-46 | the body's message_id iff it is a string, otherwise nothing |
| MessageStateWrapper.ValidateCreateResponse | lib/MessageStateWrapper.js:56-65 | the first failing check: empty body, status not 200 (carrying the status), falsy message_id; passes iff none fails |
| MessageStateWrapper.ValidateUpdateResponse | lib/MessageStateWrapper.js:75-89 | the first failing check: empty body; status not 200 with an array error (carrying it), a string error (carrying it), or anything else (carrying the status); status 200 without `updated`; passes iff none fails |
| MessageStateWrapper.CreateFlowGuards | lib/MessageStateWrapper.js:140-148 | a started create is refused with MessageHasAlreadyBeenSent, an invalid payload with its export error, neither changing anything; the transport is called iff both guards pass, with the payload and the timeout |
| MessageStateWrapper.CreateFlowOutcome | lib/MessageStateWrapper.js:100-161 | after the call create is started; success iff the response validates, then completed, body stored and message id extracted; otherwise the failure record stored as create error and the inner error returned; update and manifest untouched |
| MessageStateWrapper.UpdateFlowGuards | lib/MessageStateWrapper.js:171-183 | the four guards in order (blocked, not created, already updating, export error), each settling before update is started and without a transport call |
| MessageStateWrapper.QueryOfIdentifiers | lib/MessageStateWrapper.js:184-187 | the query holds exactly the two identifier entries of the payload |
| MessageStateWrapper.QueryOfExport | lib/MessageStateWrapper.js:184-187 | the query of an update export is exactly the api key and message id as strings |
| MessageStateWrapper.BodyOfExport | lib/MessageStateWrapper.js:189-190 | the update body holds exactly the payload entries under flagged manifest keys |
| MessageStateWrapper.UpdateRequestShape | lib/MessageStateWrapper.js:184-191 | the update request: query exactly the identifiers, body exactly the flagged non-null entries, never an identifier, and the timeout |
| MessageStateWrapper.BodyOfIntentOnly | lib/MessageStateWrapper.js:188-191 | under a manifest that flags only the intent, the body picked from an update export is exactly the intent entry |
| MessageStateWrapper.UpdateOfIntentOnly | lib/MessageStateWrapper.js:188-191 | with only the intent flagged, the update body is exactly the intent |
| MessageStateWrapper.IntentAfterSendIsTheWholeUpdate | lib/MessageStateSink.js:40-46 | after a successful send, setting the intent makes the next update body exactly that intent |
| MessageStateWrapper.UpdateFlowOutcome | lib/MessageStateWrapper.js:116-200 | after the call update is started; success iff the response validates, then completed and body stored; otherwise the failure record stored as update error, which blocks every later update; fields, create and manifest untouched |
| MessageStateWrapper.NumericMessageIdIsDropped | lib/MessageStateWrapper.js:140-161 | for any response body with a truthy message_id that is not a string, create validation passes but the id is not adopted, so right after the send the message cannot be exported for update and an `update()` past its lifecycle guards is refused with that export error, with no transport call (a later `setMessageId` on the sink would repair it) |
| MessageStateWrapper.NumericMessageIdExample | lib/MessageStateWrapper.js:140-161 | the body `{"status": 200, "message_id": 7}` is such a body: it passes create validation and leaves the message unexportable for update |
| MessageStateWrapper.MessageStateWrapper.constructor | lib/MessageStateWrapper.js:36-40 | a fresh state sink with a 5000 ms timeout |
| MessageStateWrapper.MessageStateWrapper.SetClientTimeout | lib/MessageStateWrapper.js:129-132 | only the timeout changes |
| MessageStateWrapper.MessageStateWrapper.Send | lib/MessageStateWrapper.js:140-163 | performs CreateFlow on the fields, the lifecycle and the timeout |
| MessageStateWrapper.MessageStateWrapper.Update | lib/MessageStateWrapper.js:171-202 | performs UpdateFlow; the fields are never changed |
| MessageSetMessage.MessageSetMessage.constructor | lib/MessageSetMessage.js:31-33 | built exactly as a single-message wrapper |
| MessageSetMessage.MessageSetMessage.Send | lib/MessageSetMessage.js:40-42 | always fails with CannotSendIndividualMessage and changes nothing |
| MessageSetMessage.MessageSetMessage.Update | lib/MessageSetMessage.js:49-51 | always fails with CannotUpdateIndividualMessage and changes nothing |
| MessageFactory.Override | lib/MessageFactory.js:143-144 | the argument when truthy, the factory's value otherwise |
| MessageFactory.NewMessageFieldsFromDefaults | lib/MessageFactory.js:142-157 | a new message's identifiers follow the truthy-argument rule; it takes platform, version, intent and session id from the factory; agent gives agent, anything else user; every other field as on a fresh message |
| MessageFactory.ApplyDefaults | lib/MessageFactory.js:145-155 | the chained setters on a not-yet-created message assign the defaults and never flag the manifest |
| MessageFactory.MessageFactory.constructor | lib/MessageFactory.js:28-45 | every default null and the timeout 5000 |
| MessageFactory.MessageFactory.SetApiKey | lib/MessageFactory.js:52-55 | only the api key default changes |
| MessageFactory.MessageFactory.SetUserId | lib/MessageFactory.js:62-65 | only the user id default changes |
| MessageFactory.MessageFactory.SetPlatform | lib/MessageFactory.js:72-75 | only the platform default changes |
| MessageFactory.MessageFactory.SetAsTypeUser | lib/MessageFactory.js:81-84 | only the type default changes, to user |
| MessageFactory.MessageFactory.SetAsTypeAgent | lib/MessageFactory.js:90-93 | only the type default changes, to agent |
| MessageFactory.MessageFactory.SetVersion | lib/MessageFactory.js:99-102 | only the version default changes |
| MessageFactory.MessageFactory.SetIntent | lib/MessageFactory.js:108-111 | only the intent default changes |
| MessageFactory.MessageFactory.SetCustomSessionId | lib/MessageFactory.js:118-121 | only the session id default changes |
| MessageFactory.MessageFactory.SetClientTimeout | lib/MessageFactory.js:128-131 | only the timeout default changes |
| MessageFactory.MessageFactory.NewMessage | lib/MessageFactory.js:142-157 | a fresh message with the fields NewMessageFields gives, an initial lifecycle (manifest all false) and the factory's timeout; the factory is unchanged |
| MessageSet.SortMixedResponsePayload | lib/MessageSet.js:37-51 | the loop builds exactly the partition into succeeded and failed entries |
| MessageSet.PartitionIsPermutation | lib/MessageSet.js:37-51 | the two halves together are a permutation of the input |
| MessageSet.PartitionSizes | lib/MessageSet.js:37-51 | the halves' lengths sum to the input length |
| MessageSet.PartitionClassifies | lib/MessageSet.js:40-44 | succeeded entries have status 'success', failed entries do not, and both come from the input |
| MessageSet.PartitionKeepsOrder | lib/MessageSet.js:37-51 | sorting a concatenation concatenates the sorted parts, so input order is kept |
| MessageSet.ValidateSetCreateResponse | lib/MessageSet.js:52-62 | the first failing check: empty body, status not 200 (carrying it), all_succeeded not true (carrying the partition of `responses`); passes iff none fails |
| MessageSet.CollectOkIff | lib/MessageSet.js:63-73 | collecting succeeds iff every member exports |
| MessageSet.CollectOkValues | lib/MessageSet.js:63-73 | a successful collection has one payload per member, each member's own, in member order |
| MessageSet.CollectFirstError | lib/MessageSet.js:63-73 | the result is the error of the first member, from the left, that does not export |
| MessageSet.FieldsOf | lib/MessageSet.js:65-66 | the members' field snapshots, one per member, in order |
| MessageSet.ExtractPayloadsFromMessageSet | lib/MessageSet.js:63-73 | the loop with its early return computes the collection of the members' create payloads |
| MessageSet.SendFlowGuards | lib/MessageSet.js:220-229 | a started set is refused with MessageSetHasAlreadyBeenSent, a set with an invalid member with that member's error, neither changing anything; otherwise the transport gets every payload in order and the timeout |
| MessageSet.SendFlowOutcome | lib/MessageSet.js:178-241 | after the call create is started; success iff the response validates, then completed with the body stored; otherwise the failure record stored as create error and the inner error returned |
| MessageSet.MessageSet.constructor | lib/MessageSet.js:74-82 | factory defaults, no messages, a fresh initial lifecycle |
| MessageSet.MessageSet.NewMessage | lib/MessageSet.js:203-219 | appends exactly one fresh member, set up from the defaults, and returns it; earlier members are unchanged |
| MessageSet.MessageSet.SendMessageSet | lib/MessageSet.js:220-243 | performs SendFlow on the members' fields, the set's lifecycle and the factory's timeout |

## Left out

- lib/Transport.js (HTTP through `got`, endpoints, headers) is not part of this model. The transport's outcome is an input, and the request is returned as data.
- lib/config.js and logging: configuration loading and log output have no effect on the state.
- Promises and asynchrony: `send`, `update` and `sendMessageSet` are synchronous methods. The one ordering fact they keep is that started is set before the outcome is consumed.
- `Date.now()` in the default timestamp is a constructor parameter `now`.
- Numbers are integers: floats and NaN are not modelled, and `response_time` is an opaque integer.
- Error message texts are not modelled; each error is a constructor with the data its text is built from. Apart from `PartialPayloadFailure.response`, the source classes store no such data as a field, so the model records more than an error object exposes.
- MessageSinkErrors.RequiredKeysNotSet: the source passes the required key names joined by ", " into the message text. The model keeps the list of names itself.
- The MessageSetMessage errors are plain constructors. Their module is not part of this model; the source throws them rather than rejecting.
- Chainable return values (`return this`) are not modelled; callers keep their own reference.
- Setters accept any JavaScript value in the source. The model takes `Option<string>` for text fields, `MsgType` for the type and `int` for the timeout.
- Message types other than user and agent cannot arise through the setters, so they are not modelled.
- The manifest is kept beside the update sub-state, not inside it. The setters the state sink does not override are reached through its `sink`. Their `modifies` clause names only the sink, so they cannot touch the manifest.
- The setters `MessageSet` redeclares are the factory's, reached through `factory`.
- MessageSetMessage.MessageSetMessage.Send, MessageSetMessage.MessageSetMessage.Update: composition replaces the source's overrides. The refusal holds only for calls made through these two methods; the public `wrapper` field still offers the single-message `Send`/`Update`, which a member's overrides make unreachable in the source.
- MessageSet.ResponseItems: lodash `transform` over `responses` is modelled for arrays only. Any other value yields an empty partition. The source would iterate an object's values, and would visit each character of a non-empty string, sorting every character into failed.
- MessageSet.IsSuccess: a `null` entry makes the source throw a TypeError. The model sorts it as failed.
- MessageSet.MessageSet.SendMessageSet: its contract reads the members' fields in the pre-state. It changes only the set's lifecycle, so they are the same fields.
- The source's static and instance accessors that only forward a value are plain functions without contracts.
