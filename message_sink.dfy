/** The message data sink (lib/MessageSink.js): the fields of one message,
    the four validators and the two payload exporters. The validators and
    exporters are pure functions of a `Fields` snapshot; the class holds the
    fields the setters assign in place. */
module MessageSink {
  import opened Wrappers
  import opened Json
  import opened MessageSinkErrors

  /** `MessageSink.messageTypes()`. */
  datatype MsgType = User | Agent

  function TypeName(t: MsgType): string
  {
    match t
    case User => "user"
    case Agent => "agent"
  }

  /** The property names of a message, as they appear in exported payloads. */
  datatype Key =
    | ApiKey | UserId | Type | TimeStamp | Platform | Message | Intent
    | NotHandled | Feedback | Version | MessageId | ResponseTime | CustomSessionId

  /** The wire spelling of each property name. */
  function KeyName(k: Key): string
  {
    match k
    case ApiKey => "api_key"
    case UserId => "user_id"
    case Type => "type"
    case TimeStamp => "time_stamp"
    case Platform => "platform"
    case Message => "message"
    case Intent => "intent"
    case NotHandled => "not_handled"
    case Feedback => "feedback"
    case Version => "version"
    case MessageId => "message_id"
    case ResponseTime => "response_time"
    case CustomSessionId => "custom_session_id"
  }

  /** The wire spellings of a list of property names, in order. */
  function Names(ks: seq<Key>): seq<string>
  {
    seq(|ks|, i requires 0 <= i < |ks| => KeyName(ks[i]))
  }

  /** An exported key/value payload. */
  type Payload = map<Key, Json>

  const MsgCreateExportKeys: seq<Key> :=
    [ApiKey, UserId, Type, TimeStamp, Platform, Message, Intent, Version, ResponseTime, CustomSessionId]
  const RequiredMsgCreateExportKeys: seq<Key> :=
    [ApiKey, Type, UserId, TimeStamp, Platform, Message]
  const MsgUpdateExportKeys: seq<Key> := [ApiKey, MessageId, Intent, Feedback, Version]
  const RequiredMsgUpdateExportKeys: seq<Key> := [ApiKey, MessageId]

  /** Every key a create payload can hold: the create export keys and the
      two stringified flags. */
  const CreatePayloadKeys: set<Key> := set k | k in MsgCreateExportKeys + [NotHandled, Feedback]

  /** Every key an update payload can hold. */
  const UpdatePayloadKeys: set<Key> := set k | k in MsgUpdateExportKeys + [NotHandled]

  /** The values of a message's properties at one moment. */
  datatype Fields = Fields(
    apiKey: Option<string>,
    userId: Option<string>,
    msgType: MsgType,
    timeStamp: Option<string>,
    platform: Option<string>,
    message: Option<string>,
    intent: Option<string>,
    notHandled: bool,
    feedback: bool,
    version: Option<string>,
    messageId: Option<string>,
    responseTime: Option<int>,
    customSessionId: Option<string>)

  /** The fields the constructor sets; `now` stands for `Date.now().toString()`. */
  function FreshFields(apiKey: Option<string>, userId: Option<string>, now: string): Fields
  {
    Fields(apiKey, userId, User, Some(now), None, None, None, false, false,
           None, None, None, None)
  }

  /** The value of the property named `k`. */
  function FieldValue(f: Fields, k: Key): Json
  {
    match k
    case ApiKey => StrOrNull(f.apiKey)
    case UserId => StrOrNull(f.userId)
    case Type => JStr(TypeName(f.msgType))
    case TimeStamp => StrOrNull(f.timeStamp)
    case Platform => StrOrNull(f.platform)
    case Message => StrOrNull(f.message)
    case Intent => StrOrNull(f.intent)
    case NotHandled => JBool(f.notHandled)
    case Feedback => JBool(f.feedback)
    case Version => StrOrNull(f.version)
    case MessageId => StrOrNull(f.messageId)
    case ResponseTime => NumOrNull(f.responseTime)
    case CustomSessionId => StrOrNull(f.customSessionId)
  }

  /** lodash `pick(this, keys)`: every listed property, `null` or not. */
  function Pick(f: Fields, keys: seq<Key>): Payload
  {
    map k | k in keys :: FieldValue(f, k)
  }

  /** lodash `every(m, isString)`. */
  predicate AllStrings(m: Payload)
  {
    forall k | k in m :: m[k].JStr?
  }

  predicate ValidateNotHandled(f: Fields)
  {
    !f.notHandled || f.msgType == User
  }

  predicate ValidateFeedback(f: Fields)
  {
    !f.feedback || f.msgType == User
  }

  predicate ValidateCreateManifest(f: Fields)
  {
    AllStrings(Pick(f, RequiredMsgCreateExportKeys))
  }

  predicate ValidateUpdateManifest(f: Fields)
  {
    AllStrings(Pick(f, RequiredMsgUpdateExportKeys))
  }

  /** The flags as a create payload carries them: the string "true" for a
      literal `true`, `null` for any other value. */
  function ExtractBooleanKeysForCreate(notHandled: Json, feedback: Json): Payload
  {
    map[NotHandled := if notHandled == JBool(true) then JStr("true") else JNull,
        Feedback := if feedback == JBool(true) then JStr("true") else JNull]
  }

  /** The flags as an update payload carries them: unchanged. */
  function ExtractBooleanKeysForUpdate(notHandled: Json, feedback: Json): Payload
  {
    map[NotHandled := notHandled, Feedback := feedback]
  }

  /** The create payload before `null`s are stripped. lodash `merge` of flat
      objects is map union, the right operand winning. */
  function RawCreatePayload(f: Fields): Payload
  {
    ExtractBooleanKeysForCreate(JBool(f.notHandled), JBool(f.feedback)) + Pick(f, MsgCreateExportKeys)
  }

  /** The update payload before `null`s are stripped. */
  function RawUpdatePayload(f: Fields): Payload
  {
    Pick(f, MsgUpdateExportKeys) + ExtractBooleanKeysForUpdate(JBool(f.notHandled), JBool(f.feedback))
  }

  /** `exportCreatePayload`: the first failing check's error, or the create
      payload. */
  function ExportCreatePayload(f: Fields): Result<Payload, SinkError>
  {
    if !ValidateNotHandled(f) then Err(NotHandledValidationError)
    else if !ValidateFeedback(f) then Err(FeedbackValidationError)
    else if !ValidateCreateManifest(f) then
      Err(RequiredKeysNotSet(Names(RequiredMsgCreateExportKeys)))
    else
      Ok(OmitNull(RawCreatePayload(f)))
  }

  /** `exportUpdatePayload`: the first failing check's error, or the update
      payload. */
  function ExportUpdatePayload(f: Fields): Result<Payload, SinkError>
  {
    if !ValidateNotHandled(f) then Err(NotHandledValidationError)
    else if !ValidateFeedback(f) then Err(FeedbackValidationError)
    else if !ValidateUpdateManifest(f) then
      Err(RequiredKeysNotSet(Names(RequiredMsgUpdateExportKeys)))
    else
      Ok(OmitNull(RawUpdatePayload(f)))
  }

  /** The required create fields are set (and so are strings). */
  predicate CreateFieldsSet(f: Fields)
  {
    f.apiKey.Some? && f.userId.Some? && f.timeStamp.Some? && f.platform.Some? && f.message.Some?
  }

  /** The required update fields are set. */
  predicate UpdateFieldsSet(f: Fields)
  {
    f.apiKey.Some? && f.messageId.Some?
  }

  /** Neither flag is set on a message that is not of type user. */
  predicate FlagsLegal(f: Fields)
  {
    f.msgType == User || (!f.notHandled && !f.feedback)
  }

  lemma CreateManifestIff(f: Fields)
    ensures ValidateCreateManifest(f) <==> CreateFieldsSet(f)
  {
    var m := Pick(f, RequiredMsgCreateExportKeys);
    assert m[ApiKey] == StrOrNull(f.apiKey);
    assert m[UserId] == StrOrNull(f.userId);
    assert m[TimeStamp] == StrOrNull(f.timeStamp);
    assert m[Platform] == StrOrNull(f.platform);
    assert m[Message] == StrOrNull(f.message);
  }

  lemma UpdateManifestIff(f: Fields)
    ensures ValidateUpdateManifest(f) <==> UpdateFieldsSet(f)
  {
    var m := Pick(f, RequiredMsgUpdateExportKeys);
    assert m[ApiKey] == StrOrNull(f.apiKey);
    assert m[MessageId] == StrOrNull(f.messageId);
  }

  /** A fresh message lacks its platform and body, so it cannot be exported
      for creation. */
  lemma FreshFailsCreateManifest(apiKey: Option<string>, userId: Option<string>, now: string)
    ensures !ValidateCreateManifest(FreshFields(apiKey, userId, now))
    ensures FreshFields(apiKey, userId, now).msgType == User
    ensures ValidateNotHandled(FreshFields(apiKey, userId, now))
    ensures ValidateFeedback(FreshFields(apiKey, userId, now))
  {
    CreateManifestIff(FreshFields(apiKey, userId, now));
  }

  /** The create export's verdict in terms of the field values, in the
      order the checks run. */
  lemma CreateExportVerdict(f: Fields)
    ensures ExportCreatePayload(f) == Err(NotHandledValidationError)
        <==> f.notHandled && f.msgType == Agent
    ensures ExportCreatePayload(f) == Err(FeedbackValidationError)
        <==> !f.notHandled && f.feedback && f.msgType == Agent
    ensures ExportCreatePayload(f).Err? && ExportCreatePayload(f).error.RequiredKeysNotSet?
        <==> FlagsLegal(f) && !CreateFieldsSet(f)
    ensures ExportCreatePayload(f).Err? && ExportCreatePayload(f).error.RequiredKeysNotSet? ==>
              ExportCreatePayload(f).error.requiredKeys == Names(RequiredMsgCreateExportKeys)
    ensures ExportCreatePayload(f).Ok? <==> FlagsLegal(f) && CreateFieldsSet(f)
  {
    CreateManifestIff(f);
  }

  /** The update export's verdict in terms of the field values. */
  lemma UpdateExportVerdict(f: Fields)
    ensures ExportUpdatePayload(f) == Err(NotHandledValidationError)
        <==> f.notHandled && f.msgType == Agent
    ensures ExportUpdatePayload(f) == Err(FeedbackValidationError)
        <==> !f.notHandled && f.feedback && f.msgType == Agent
    ensures ExportUpdatePayload(f).Err? && ExportUpdatePayload(f).error.RequiredKeysNotSet?
        <==> FlagsLegal(f) && !UpdateFieldsSet(f)
    ensures ExportUpdatePayload(f).Err? && ExportUpdatePayload(f).error.RequiredKeysNotSet? ==>
              ExportUpdatePayload(f).error.requiredKeys == Names(RequiredMsgUpdateExportKeys)
    ensures ExportUpdatePayload(f).Ok? <==> FlagsLegal(f) && UpdateFieldsSet(f)
  {
    UpdateManifestIff(f);
  }

  /** An agent message with either flag set never exports, for creation or
      for update. */
  lemma AgentFlagsNeverExport(f: Fields)
    requires f.msgType == Agent && (f.notHandled || f.feedback)
    ensures ExportCreatePayload(f) == Err(if f.notHandled then NotHandledValidationError
                                          else FeedbackValidationError)
    ensures ExportUpdatePayload(f) == Err(if f.notHandled then NotHandledValidationError
                                          else FeedbackValidationError)
  {
  }

  /** What a create payload holds under key `k`, key by key: the flags
      stringified, the message id never, every other property as it is;
      `null` stands for "absent". */
  function CreateValue(f: Fields, k: Key): Json
  {
    match k
    case NotHandled => if f.notHandled then JStr("true") else JNull
    case Feedback => if f.feedback then JStr("true") else JNull
    case MessageId => JNull
    case _ => FieldValue(f, k)
  }

  /** What an update payload holds under key `k`: the identifiers, the raw
      flags, intent and version, and nothing else. */
  function UpdateValue(f: Fields, k: Key): Json
  {
    match k
    case ApiKey => FieldValue(f, k)
    case MessageId => FieldValue(f, k)
    case Intent => FieldValue(f, k)
    case Version => FieldValue(f, k)
    case NotHandled => FieldValue(f, k)
    case Feedback => FieldValue(f, k)
    case _ => JNull
  }

  /** The raw create payload agrees with `CreateValue` at `k`. */
  lemma RawCreateAt(f: Fields, k: Key)
    ensures k in RawCreatePayload(f) ==> RawCreatePayload(f)[k] == CreateValue(f, k)
    ensures k !in RawCreatePayload(f) ==> CreateValue(f, k) == JNull
  {
  }

  /** The raw update payload agrees with `UpdateValue` at `k`. */
  lemma RawUpdateAt(f: Fields, k: Key)
    ensures k in RawUpdatePayload(f) ==> RawUpdatePayload(f)[k] == UpdateValue(f, k)
    ensures k !in RawUpdatePayload(f) ==> UpdateValue(f, k) == JNull
  {
  }

  /** A successful create payload holds exactly the keys whose create value
      is not `null`, each with that value. */
  lemma CreatePayloadContents(f: Fields)
    requires ExportCreatePayload(f).Ok?
    ensures var p := ExportCreatePayload(f).value;
      && (forall k :: k in p <==> CreateValue(f, k) != JNull)
      && (forall k | k in p :: p[k] == CreateValue(f, k))
  {
    forall k
      ensures k in RawCreatePayload(f) ==> RawCreatePayload(f)[k] == CreateValue(f, k)
      ensures k !in RawCreatePayload(f) ==> CreateValue(f, k) == JNull
    {
      RawCreateAt(f, k);
    }
  }

  /** A successful update payload holds exactly the keys whose update value
      is not `null`, each with that value. */
  lemma UpdatePayloadContents(f: Fields)
    requires ExportUpdatePayload(f).Ok?
    ensures var p := ExportUpdatePayload(f).value;
      && (forall k :: k in p <==> UpdateValue(f, k) != JNull)
      && (forall k | k in p :: p[k] == UpdateValue(f, k))
  {
    forall k
      ensures k in RawUpdatePayload(f) ==> RawUpdatePayload(f)[k] == UpdateValue(f, k)
      ensures k !in RawUpdatePayload(f) ==> UpdateValue(f, k) == JNull
    {
      RawUpdateAt(f, k);
    }
  }

  /** A successful create payload carries every required key as a string,
      and the message type under `type`. */
  lemma CreatePayloadRequired(f: Fields)
    requires ExportCreatePayload(f).Ok?
    ensures var p := ExportCreatePayload(f).value;
      && (forall k | k in RequiredMsgCreateExportKeys :: k in p && p[k].JStr?)
      && Type in p && p[Type] == JStr(TypeName(f.msgType))
  {
    CreateManifestIff(f);
    forall k | k in RequiredMsgCreateExportKeys
      ensures k in RawCreatePayload(f) && RawCreatePayload(f)[k] == CreateValue(f, k) && CreateValue(f, k).JStr?
    {
      RawCreateAt(f, k);
    }
  }

  /** A successful update payload carries both identifiers as strings and
      both flags as raw booleans. */
  lemma UpdatePayloadRequired(f: Fields)
    requires ExportUpdatePayload(f).Ok?
    ensures var p := ExportUpdatePayload(f).value;
      && (forall k | k in RequiredMsgUpdateExportKeys :: k in p && p[k].JStr?)
      && NotHandled in p && p[NotHandled] == JBool(f.notHandled)
      && Feedback in p && p[Feedback] == JBool(f.feedback)
  {
    UpdateManifestIff(f);
    forall k | k in RequiredMsgUpdateExportKeys
      ensures k in RawUpdatePayload(f) && RawUpdatePayload(f)[k] == UpdateValue(f, k) && UpdateValue(f, k).JStr?
    {
      RawUpdateAt(f, k);
    }
    RawUpdateAt(f, NotHandled);
    RawUpdateAt(f, Feedback);
  }

  /** A successful update payload carries both identifiers as the strings
      the fields hold. */
  lemma UpdatePayloadIdentifiers(f: Fields)
    requires ExportUpdatePayload(f).Ok?
    ensures f.apiKey.Some? && f.messageId.Some?
    ensures var p := ExportUpdatePayload(f).value;
      ApiKey in p && p[ApiKey] == JStr(f.apiKey.value) && MessageId in p && p[MessageId] == JStr(f.messageId.value)
  {
    UpdateManifestIff(f);
    assert UpdateValue(f, ApiKey) == JStr(f.apiKey.value);
    assert UpdateValue(f, MessageId) == JStr(f.messageId.value);
    RawUpdateAt(f, ApiKey);
    RawUpdateAt(f, MessageId);
  }

  /** Only create payload keys ever carry a create value. */
  lemma CreateValueKeys(f: Fields, k: Key)
    ensures CreateValue(f, k) != JNull ==> k in CreatePayloadKeys
  {
    if CreateValue(f, k) != JNull {
      assert k in MsgCreateExportKeys + [NotHandled, Feedback];
    }
  }

  /** Only update payload keys ever carry an update value. */
  lemma UpdateValueKeys(f: Fields, k: Key)
    ensures UpdateValue(f, k) != JNull ==> k in UpdatePayloadKeys
  {
    if UpdateValue(f, k) != JNull {
      assert k in MsgUpdateExportKeys + [NotHandled];
    }
  }

  /** A successful create payload holds only create payload keys, no
      `null`, and each flag as the string "true" exactly when it is set. */
  lemma CreatePayloadShape(f: Fields)
    requires ExportCreatePayload(f).Ok?
    ensures var p := ExportCreatePayload(f).value;
      && (forall k | k in p :: k in CreatePayloadKeys && p[k] != JNull)
      && (NotHandled in p <==> f.notHandled) && (NotHandled in p ==> p[NotHandled] == JStr("true"))
      && (Feedback in p <==> f.feedback) && (Feedback in p ==> p[Feedback] == JStr("true"))
  {
    CreatePayloadContents(f);
    forall k | k in ExportCreatePayload(f).value
      ensures k in CreatePayloadKeys
    {
      CreateValueKeys(f, k);
    }
  }

  /** A successful update payload holds only update payload keys and no
      `null`. */
  lemma UpdatePayloadShape(f: Fields)
    requires ExportUpdatePayload(f).Ok?
    ensures var p := ExportUpdatePayload(f).value;
      forall k | k in p :: k in UpdatePayloadKeys && p[k] != JNull
  {
    UpdatePayloadContents(f);
    forall k | k in ExportUpdatePayload(f).value
      ensures k in UpdatePayloadKeys
    {
      UpdateValueKeys(f, k);
    }
  }

  /** The sink object: its properties, assigned in place by the setters. */
  class MessageSink {
    var apiKey: Option<string>
    var userId: Option<string>
    var msgType: MsgType
    var timeStamp: Option<string>
    var platform: Option<string>
    var message: Option<string>
    var intent: Option<string>
    var notHandled: bool
    var feedback: bool
    var version: Option<string>
    var messageId: Option<string>
    var responseTime: Option<int>
    var customSessionId: Option<string>

    function Snapshot(): Fields
      reads this
    {
      Fields.Fields(apiKey, userId, msgType, timeStamp, platform, message, intent,
                    notHandled, feedback, version, messageId, responseTime, customSessionId)
    }

    constructor (apiKey: Option<string>, userId: Option<string>, now: string)
      ensures Snapshot() == FreshFields(apiKey, userId, now)
    {
      this.apiKey := apiKey;
      this.userId := userId;
      msgType := User;
      timeStamp := Some(now);
      platform := None;
      message := None;
      intent := None;
      notHandled := false;
      feedback := false;
      version := None;
      messageId := None;
      responseTime := None;
      customSessionId := None;
    }

    method SetAsTypeUser()
      modifies this
      ensures Snapshot() == old(Snapshot()).(msgType := User)
    {
      msgType := User;
    }

    method SetAsTypeAgent()
      modifies this
      ensures Snapshot() == old(Snapshot()).(msgType := Agent)
    {
      msgType := Agent;
    }

    method SetTimestamp(ts: Option<string>)
      modifies this
      ensures Snapshot() == old(Snapshot()).(timeStamp := ts)
    {
      timeStamp := ts;
    }

    method SetPlatform(platform: Option<string>)
      modifies this
      ensures Snapshot() == old(Snapshot()).(platform := platform)
    {
      this.platform := platform;
    }

    method SetMessage(message: Option<string>)
      modifies this
      ensures Snapshot() == old(Snapshot()).(message := message)
    {
      this.message := message;
    }

    method SetIntent(intent: Option<string>)
      modifies this
      ensures Snapshot() == old(Snapshot()).(intent := intent)
    {
      this.intent := intent;
    }

    method SetAsHandled()
      modifies this
      ensures Snapshot() == old(Snapshot()).(notHandled := false)
    {
      notHandled := false;
    }

    method SetAsNotHandled()
      modifies this
      ensures Snapshot() == old(Snapshot()).(notHandled := true)
    {
      notHandled := true;
    }

    method SetVersion(version: Option<string>)
      modifies this
      ensures Snapshot() == old(Snapshot()).(version := version)
    {
      this.version := version;
    }

    method SetAsFeedback()
      modifies this
      ensures Snapshot() == old(Snapshot()).(feedback := true)
    {
      feedback := true;
    }

    method SetAsNotFeedback()
      modifies this
      ensures Snapshot() == old(Snapshot()).(feedback := false)
    {
      feedback := false;
    }

    method SetMessageId(messageId: Option<string>)
      modifies this
      ensures Snapshot() == old(Snapshot()).(messageId := messageId)
    {
      this.messageId := messageId;
    }

    method SetUserId(userId: Option<string>)
      modifies this
      ensures Snapshot() == old(Snapshot()).(userId := userId)
    {
      this.userId := userId;
    }

    method SetResponseTime(responseTime: Option<int>)
      modifies this
      ensures Snapshot() == old(Snapshot()).(responseTime := responseTime)
    {
      this.responseTime := responseTime;
    }

    method SetCustomSessionId(customSessionId: Option<string>)
      modifies this
      ensures Snapshot() == old(Snapshot()).(customSessionId := customSessionId)
    {
      this.customSessionId := customSessionId;
    }
  }
}
