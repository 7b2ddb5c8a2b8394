/** A member of a message set (lib/MessageSetMessage.js): a single-message
    wrapper whose own `send` and `update` always refuse, so that it can only
    be created as part of its set. */
module MessageSetMessage {
  import opened Wrappers
  import opened MessageSink
  import opened MessageLifecycleState
  import opened MessageStateWrapper
  import opened MessageSetMessageErrors

  class MessageSetMessage {
    const wrapper: MessageStateWrapper

    /** Built exactly as a single-message wrapper is. */
    constructor (apiKey: Option<string>, userId: Option<string>, now: string)
      ensures fresh(wrapper) && fresh(wrapper.base) && fresh(wrapper.base.sink) && fresh(wrapper.base.lifecycle)
      ensures wrapper.base.sink.Snapshot() == FreshFields(apiKey, userId, now)
      ensures wrapper.base.lifecycle.state == InitialState
      ensures wrapper.transportTimeout == DefaultTransportTimeout
    {
      wrapper := new MessageStateWrapper(apiKey, userId, now);
    }

    /** Always refuses, whatever the state, and changes nothing. */
    method Send() returns (r: Outcome<SetMessageError>)
      ensures r == Fail(CannotSendIndividualMessage)
    {
      r := Fail(CannotSendIndividualMessage);
    }

    /** Always refuses, whatever the state, and changes nothing. */
    method Update() returns (r: Outcome<SetMessageError>)
      ensures r == Fail(CannotUpdateIndividualMessage)
    {
      r := Fail(CannotUpdateIndividualMessage);
    }
  }
}
