/** The dirty-field tracking layer (lib/MessageStateSink.js): a message sink
    with its own lifecycle, whose six updatable-field setters mark their key
    in the options manifest when the message may still be updated. The
    source's subclass becomes a pair of references to the sink and to its
    lifecycle. */
module MessageStateSink {
  import opened Wrappers
  import opened Json
  import opened MessageSink
  import opened MessageLifecycleState
  import opened Rejections

  /** The flagging condition, read before the field is assigned: the create
      request completed and nothing blocks an update. */
  predicate MayFlag(s: State)
  {
    s.create.completed && UpdateBlocker(s).None?
  }

  /** The lifecycle after a wrapped setter whose manifest key is set by the
      flag event `e`. */
  function Dirty(s: State, e: Event): State
  {
    if MayFlag(s) then Apply(s, e) else s
  }

  /** A wrapped setter's key is flagged afterwards exactly when it was
      flagged before or the flagging condition held; every other manifest
      key keeps its value, and nothing else in the lifecycle changes. */
  lemma DirtyFlagsIffMayFlag(s: State, e: Event)
    requires IsFlagEvent(e)
    ensures IsFlagged(Dirty(s, e).optionsManifest, e) <==> IsFlagged(s.optionsManifest, e) || MayFlag(s)
    ensures Dirty(s, e).create == s.create && Dirty(s, e).update == s.update
    ensures ManifestAdvances(s.optionsManifest, Dirty(s, e).optionsManifest)
    ensures ManifestDistance(s.optionsManifest, Dirty(s, e).optionsManifest) <= 1
    ensures forall e' | IsFlagEvent(e') && e' != e ::
              IsFlagged(Dirty(s, e).optionsManifest, e') == IsFlagged(s.optionsManifest, e')
  {
  }

  /** With a create error stored, no wrapped setter flags anything, even
      when the create request also completed. */
  lemma CreateErrorStopsFlagging(s: State, e: Event)
    requires s.create.error.Some?
    ensures Dirty(s, e) == s
  {
  }

  /** Before the create request completed (in particular on a fresh
      message) no wrapped setter flags anything. */
  lemma NoFlaggingBeforeCreate(s: State, e: Event)
    requires !s.create.completed
    ensures Dirty(s, e) == s
  {
  }

  /** A message sink together with its lifecycle. */
  class MessageStateSink {
    const sink: MessageSink
    const lifecycle: MessageLifecycleState

    constructor (apiKey: Option<string>, userId: Option<string>, now: string)
      ensures fresh(sink) && fresh(lifecycle)
      ensures sink.Snapshot() == FreshFields(apiKey, userId, now)
      ensures lifecycle.state == InitialState
    {
      sink := new MessageSink(apiKey, userId, now);
      lifecycle := new MessageLifecycleState();
    }

    method SetIntent(intent: Option<string>)
      modifies sink, lifecycle
      ensures sink.Snapshot() == old(sink.Snapshot()).(intent := intent)
      ensures lifecycle.state == Dirty(old(lifecycle.state), FlagIntent)
    {
      if lifecycle.CreateEntryCompleted() && lifecycle.CannotBeUpdated().None? {
        lifecycle.FlagIntentForUpdate();
      }
      sink.SetIntent(intent);
    }

    method SetAsHandled()
      modifies sink, lifecycle
      ensures sink.Snapshot() == old(sink.Snapshot()).(notHandled := false)
      ensures lifecycle.state == Dirty(old(lifecycle.state), FlagNotHandled)
    {
      if lifecycle.CreateEntryCompleted() && lifecycle.CannotBeUpdated().None? {
        lifecycle.FlagNotHandledForUpdate();
      }
      sink.SetAsHandled();
    }

    method SetAsNotHandled()
      modifies sink, lifecycle
      ensures sink.Snapshot() == old(sink.Snapshot()).(notHandled := true)
      ensures lifecycle.state == Dirty(old(lifecycle.state), FlagNotHandled)
    {
      if lifecycle.CreateEntryCompleted() && lifecycle.CannotBeUpdated().None? {
        lifecycle.FlagNotHandledForUpdate();
      }
      sink.SetAsNotHandled();
    }

    method SetVersion(version: Option<string>)
      modifies sink, lifecycle
      ensures sink.Snapshot() == old(sink.Snapshot()).(version := version)
      ensures lifecycle.state == Dirty(old(lifecycle.state), FlagVersion)
    {
      if lifecycle.CreateEntryCompleted() && lifecycle.CannotBeUpdated().None? {
        lifecycle.FlagVersionForUpdate();
      }
      sink.SetVersion(version);
    }

    method SetAsFeedback()
      modifies sink, lifecycle
      ensures sink.Snapshot() == old(sink.Snapshot()).(feedback := true)
      ensures lifecycle.state == Dirty(old(lifecycle.state), FlagFeedback)
    {
      if lifecycle.CreateEntryCompleted() && lifecycle.CannotBeUpdated().None? {
        lifecycle.FlagFeedbackForUpdate();
      }
      sink.SetAsFeedback();
    }

    method SetAsNotFeedback()
      modifies sink, lifecycle
      ensures sink.Snapshot() == old(sink.Snapshot()).(feedback := false)
      ensures lifecycle.state == Dirty(old(lifecycle.state), FlagFeedback)
    {
      if lifecycle.CreateEntryCompleted() && lifecycle.CannotBeUpdated().None? {
        lifecycle.FlagFeedbackForUpdate();
      }
      sink.SetAsNotFeedback();
    }

    function CreateEntryStarted(): bool
      reads lifecycle
    {
      lifecycle.CreateEntryStarted()
    }

    function CreateEntryCompleted(): bool
      reads lifecycle
    {
      lifecycle.CreateEntryCompleted()
    }

    function UpdateEntryStarted(): bool
      reads lifecycle
    {
      lifecycle.UpdateEntryStarted()
    }

    function UpdateEntryCompleted(): bool
      reads lifecycle
    {
      lifecycle.UpdateEntryCompleted()
    }

    function CannotBeUpdated(): Option<ErrorRecord>
      reads lifecycle
    {
      lifecycle.CannotBeUpdated()
    }

    function GetCreateResponse(): Json
      reads lifecycle
    {
      lifecycle.GetCreateResponse()
    }

    function GetUpdateResponse(): Json
      reads lifecycle
    {
      lifecycle.GetUpdateResponse()
    }
  }
}
