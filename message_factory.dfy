/** The message factory (lib/MessageFactory.js): default field values that
    every message it makes starts from. */
module MessageFactory {
  import opened Wrappers
  import opened Json
  import opened MessageSink
  import opened MessageLifecycleState
  import opened MessageStateSink
  import opened MessageStateWrapper

  /** The factory's default fields; `msgType` is `None` while no type was
      chosen. */
  datatype Defaults = Defaults(
    apiKey: Option<string>,
    userId: Option<string>,
    platform: Option<string>,
    msgType: Option<MsgType>,
    version: Option<string>,
    intent: Option<string>,
    customSessionId: Option<string>,
    transportTimeout: int)

  const InitialDefaults: Defaults :=
    Defaults(None, None, None, None, None, None, None, DefaultTransportTimeout)

  /** `arg ? arg : fallback` for an optional string argument. */
  function Override(arg: Option<string>, fallback: Option<string>): (r: Option<string>)
    ensures TruthyString(arg) ==> r == arg
    ensures !TruthyString(arg) ==> r == fallback
  {
    if TruthyString(arg) then arg else fallback
  }

  /** The fields after the factory's chained setters have run on `f`. */
  function WithDefaults(f: Fields, d: Defaults): Fields
  {
    f.(platform := d.platform, version := d.version, intent := d.intent,
       customSessionId := d.customSessionId,
       msgType := if d.msgType.Some? then d.msgType.value else f.msgType)
  }

  /** The fields of a message made from `d`. */
  function NewMessageFields(d: Defaults, apiKey: Option<string>, userId: Option<string>, now: string): Fields
  {
    WithDefaults(FreshFields(Override(apiKey, d.apiKey), Override(userId, d.userId), now), d)
  }

  /** A new message takes its api key and user id from the arguments when
      they are truthy and from the factory otherwise; it takes the
      factory's platform, version, intent and session id; its type is the
      factory's when one was chosen and `user` otherwise; everything else is
      as on a fresh message. */
  lemma NewMessageFieldsFromDefaults(d: Defaults, apiKey: Option<string>, userId: Option<string>, now: string)
    ensures var f := NewMessageFields(d, apiKey, userId, now);
      && f.apiKey == (if TruthyString(apiKey) then apiKey else d.apiKey)
      && f.userId == (if TruthyString(userId) then userId else d.userId)
      && f.platform == d.platform && f.version == d.version && f.intent == d.intent
      && f.customSessionId == d.customSessionId
      && (d.msgType == Some(Agent) ==> f.msgType == Agent)
      && (d.msgType != Some(Agent) ==> f.msgType == User)
      && f.timeStamp == Some(now) && f.message.None? && f.messageId.None? && f.responseTime.None?
      && !f.notHandled && !f.feedback
  {
  }

  /** Runs the factory's chained setters on a message that has not been
      created yet: none of them can flag the manifest. */
  method ApplyDefaults(msg: MessageStateWrapper, d: Defaults)
    requires !msg.base.lifecycle.state.create.completed
    modifies msg, msg.base.sink, msg.base.lifecycle
    ensures msg.base.sink.Snapshot() == WithDefaults(old(msg.base.sink.Snapshot()), d)
    ensures msg.base.lifecycle.state == old(msg.base.lifecycle.state)
    ensures msg.transportTimeout == d.transportTimeout
  {
    msg.base.sink.SetPlatform(d.platform);
    msg.base.SetVersion(d.version);
    msg.base.SetIntent(d.intent);
    msg.base.sink.SetCustomSessionId(d.customSessionId);
    msg.SetClientTimeout(d.transportTimeout);
    match d.msgType
    case Some(Agent) => msg.base.sink.SetAsTypeAgent();
    case Some(User) => msg.base.sink.SetAsTypeUser();
    case None =>
  }

  class MessageFactory {
    var apiKey: Option<string>
    var userId: Option<string>
    var platform: Option<string>
    var msgType: Option<MsgType>
    var version: Option<string>
    var intent: Option<string>
    var customSessionId: Option<string>
    var transportTimeout: int

    function Snapshot(): Defaults
      reads this
    {
      Defaults(apiKey, userId, platform, msgType, version, intent, customSessionId, transportTimeout)
    }

    constructor ()
      ensures Snapshot() == InitialDefaults
    {
      apiKey := None;
      userId := None;
      platform := None;
      msgType := None;
      version := None;
      intent := None;
      customSessionId := None;
      transportTimeout := DefaultTransportTimeout;
    }

    method SetApiKey(apiKey: Option<string>)
      modifies this
      ensures Snapshot() == old(Snapshot()).(apiKey := apiKey)
    {
      this.apiKey := apiKey;
    }

    method SetUserId(userId: Option<string>)
      modifies this
      ensures Snapshot() == old(Snapshot()).(userId := userId)
    {
      this.userId := userId;
    }

    method SetPlatform(platform: Option<string>)
      modifies this
      ensures Snapshot() == old(Snapshot()).(platform := platform)
    {
      this.platform := platform;
    }

    method SetAsTypeUser()
      modifies this
      ensures Snapshot() == old(Snapshot()).(msgType := Some(User))
    {
      msgType := Some(User);
    }

    method SetAsTypeAgent()
      modifies this
      ensures Snapshot() == old(Snapshot()).(msgType := Some(Agent))
    {
      msgType := Some(Agent);
    }

    method SetVersion(version: Option<string>)
      modifies this
      ensures Snapshot() == old(Snapshot()).(version := version)
    {
      this.version := version;
    }

    method SetIntent(intent: Option<string>)
      modifies this
      ensures Snapshot() == old(Snapshot()).(intent := intent)
    {
      this.intent := intent;
    }

    method SetCustomSessionId(customSessionId: Option<string>)
      modifies this
      ensures Snapshot() == old(Snapshot()).(customSessionId := customSessionId)
    {
      this.customSessionId := customSessionId;
    }

    method SetClientTimeout(t: int)
      modifies this
      ensures Snapshot() == old(Snapshot()).(transportTimeout := t)
    {
      transportTimeout := t;
    }

    /** `newMessage(apiKey, userId)`: a fresh single-message wrapper set up
        from the defaults; the factory itself does not change. */
    method NewMessage(apiKey: Option<string>, userId: Option<string>, now: string) returns (msg: MessageStateWrapper)
      ensures fresh(msg) && fresh(msg.base) && fresh(msg.base.sink) && fresh(msg.base.lifecycle)
      ensures msg.base.sink.Snapshot() == NewMessageFields(Snapshot(), apiKey, userId, now)
      ensures msg.base.lifecycle.state == InitialState
      ensures msg.transportTimeout == transportTimeout
    {
      var key := Override(apiKey, this.apiKey);
      var id := Override(userId, this.userId);
      msg := new MessageStateWrapper(key, id, now);
      ApplyDefaults(msg, Snapshot());
    }
  }
}
