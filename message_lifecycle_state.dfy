/** The lifecycle record of one message or message set
    (lib/MessageLifecycleState.js): the create and update sub-states and the
    options manifest of fields dirtied since creation. Every mutator is an
    `Event` applied to the `State` value the class holds. */
module MessageLifecycleState {
  import opened Wrappers
  import opened Json
  import opened Rejections

  /** One sub-state, `create` or `update`. `responseBody` is `null` until a
      response body is stored. */
  datatype Entry = Entry(started: bool, completed: bool, error: Option<ErrorRecord>, responseBody: Json)

  /** The options manifest: one dirty flag per updatable field. */
  datatype Manifest = Manifest(intent: bool, notHandled: bool, version: bool, feedback: bool)

  /** The whole `_state` record; the manifest lives under `update` in the
      source and is kept beside it here. */
  datatype State = State(create: Entry, update: Entry, optionsManifest: Manifest)

  const InitialEntry: Entry := Entry(false, false, None, JNull)
  const InitialManifest: Manifest := Manifest(false, false, false, false)
  const InitialState: State := State(InitialEntry, InitialEntry, InitialManifest)

  /** The mutators of the lifecycle, one constructor each. */
  datatype Event =
    | CreateStarted
    | CreateCompleted(body: Json)
    | CreateErrored(err: ErrorRecord)
    | UpdateStarted
    | UpdateCompleted(body: Json)
    | UpdateErrored(err: ErrorRecord)
    | FlagIntent
    | FlagNotHandled
    | FlagVersion
    | FlagFeedback

  predicate IsCreateEvent(e: Event)
  {
    e.CreateStarted? || e.CreateCompleted? || e.CreateErrored?
  }

  predicate IsUpdateEvent(e: Event)
  {
    e.UpdateStarted? || e.UpdateCompleted? || e.UpdateErrored?
  }

  predicate IsFlagEvent(e: Event)
  {
    e.FlagIntent? || e.FlagNotHandled? || e.FlagVersion? || e.FlagFeedback?
  }

  /** Nothing set in `a` is unset in `b`: started and completed stay true
      and a stored error stays stored. */
  predicate EntryAdvances(a: Entry, b: Entry)
  {
    (a.started ==> b.started) && (a.completed ==> b.completed) && (a.error.Some? ==> b.error.Some?)
  }

  /** No manifest flag goes back to false. */
  predicate ManifestAdvances(m: Manifest, n: Manifest)
  {
    (m.intent ==> n.intent) && (m.notHandled ==> n.notHandled)
    && (m.version ==> n.version) && (m.feedback ==> n.feedback)
  }

  predicate Advances(s: State, t: State)
  {
    EntryAdvances(s.create, t.create) && EntryAdvances(s.update, t.update)
    && ManifestAdvances(s.optionsManifest, t.optionsManifest)
  }

  /** The number of manifest flags that differ between `m` and `n`. */
  function ManifestDistance(m: Manifest, n: Manifest): nat
  {
    (if m.intent != n.intent then 1 else 0) + (if m.notHandled != n.notHandled then 1 else 0)
    + (if m.version != n.version then 1 else 0) + (if m.feedback != n.feedback then 1 else 0)
  }

  /** Whether the manifest key a flag event sets is set in `m`; `false` for
      any other event. */
  function IsFlagged(m: Manifest, e: Event): bool
  {
    match e
    case FlagIntent => m.intent
    case FlagNotHandled => m.notHandled
    case FlagVersion => m.version
    case FlagFeedback => m.feedback
    case _ => false
  }

  /** The effect of one mutator on the state. Create events touch only the
      create sub-state, update events only the update sub-state, flag events
      only their own manifest key; nothing is ever undone. */
  function Apply(s: State, e: Event): (t: State)
    ensures Advances(s, t)
    ensures IsCreateEvent(e) ==> t.update == s.update && t.optionsManifest == s.optionsManifest
    ensures IsUpdateEvent(e) ==> t.create == s.create && t.optionsManifest == s.optionsManifest
    ensures IsFlagEvent(e) ==> t.create == s.create && t.update == s.update
                               && IsFlagged(t.optionsManifest, e)
                               && ManifestDistance(s.optionsManifest, t.optionsManifest) <= 1
    ensures IsFlagEvent(e) ==> forall e' | IsFlagEvent(e') && e' != e ::
                                 IsFlagged(t.optionsManifest, e') == IsFlagged(s.optionsManifest, e')
  {
    match e
    case CreateStarted => s.(create := s.create.(started := true))
    case CreateCompleted(body) => s.(create := s.create.(completed := true, responseBody := body))
    case CreateErrored(err) => s.(create := s.create.(error := Some(err)))
    case UpdateStarted => s.(update := s.update.(started := true))
    case UpdateCompleted(body) => s.(update := s.update.(completed := true, responseBody := body))
    case UpdateErrored(err) => s.(update := s.update.(error := Some(err)))
    case FlagIntent => s.(optionsManifest := s.optionsManifest.(intent := true))
    case FlagNotHandled => s.(optionsManifest := s.optionsManifest.(notHandled := true))
    case FlagVersion => s.(optionsManifest := s.optionsManifest.(version := true))
    case FlagFeedback => s.(optionsManifest := s.optionsManifest.(feedback := true))
  }

  /** The state after a sequence of mutators, applied left to right. */
  function Run(s: State, es: seq<Event>): State
    decreases |es|
  {
    if |es| == 0 then s else Run(Apply(s, es[0]), es[1..])
  }

  /** `cannotBeUpdated()`: the create error if there is one, else the update
      error if there is one, else nothing (`false` in the source). */
  function UpdateBlocker(s: State): (r: Option<ErrorRecord>)
    ensures r.Some? <==> s.create.error.Some? || s.update.error.Some?
    ensures s.create.error.Some? ==> r == s.create.error
    ensures s.create.error.None? ==> r == s.update.error
  {
    if s.create.error.Some? then s.create.error
    else if s.update.error.Some? then s.update.error
    else None
  }

  /** The initial state: nothing started, completed or stored, no flag set,
      and nothing blocks an update. */
  lemma InitialStateIsBlank()
    ensures !InitialState.create.started && !InitialState.create.completed
    ensures !InitialState.update.started && !InitialState.update.completed
    ensures InitialState.create.error.None? && InitialState.update.error.None?
    ensures InitialState.create.responseBody == JNull && InitialState.update.responseBody == JNull
    ensures InitialState.optionsManifest == Manifest(false, false, false, false)
    ensures UpdateBlocker(InitialState).None?
  {
  }

  /** Advancing is transitive. */
  lemma AdvancesTransitive(s: State, t: State, u: State)
    requires Advances(s, t) && Advances(t, u)
    ensures Advances(s, u)
  {
  }

  /** Monotonicity over any sequence of mutators. */
  lemma {:induction false} RunAdvances(s: State, es: seq<Event>)
    ensures Advances(s, Run(s, es))
    decreases |es|
  {
    if |es| > 0 {
      var t := Apply(s, es[0]);
      RunAdvances(t, es[1..]);
      AdvancesTransitive(s, t, Run(t, es[1..]));
    }
  }

  /** Once something blocks an update, nothing ever unblocks it; and once the
      create attempt has failed, the blocker is always the create error. */
  lemma {:induction false} BlockerIsSticky(s: State, es: seq<Event>)
    requires UpdateBlocker(s).Some?
    ensures UpdateBlocker(Run(s, es)).Some?
    ensures s.create.error.Some? ==> UpdateBlocker(Run(s, es)) == Run(s, es).create.error
  {
    RunAdvances(s, es);
  }

  /** Create events alone never touch the update sub-state or the manifest,
      and update events alone never touch the create sub-state. */
  lemma {:induction false} RunSeparatesSubStates(s: State, es: seq<Event>)
    ensures (forall i | 0 <= i < |es| :: IsCreateEvent(es[i])) ==>
              Run(s, es).update == s.update && Run(s, es).optionsManifest == s.optionsManifest
    ensures (forall i | 0 <= i < |es| :: IsUpdateEvent(es[i])) ==>
              Run(s, es).create == s.create && Run(s, es).optionsManifest == s.optionsManifest
    decreases |es|
  {
    if |es| > 0 {
      RunSeparatesSubStates(Apply(s, es[0]), es[1..]);
      assert forall i | 0 <= i < |es[1..]| :: es[1..][i] == es[i + 1];
    }
  }

  /** Flagging twice is flagging once. */
  lemma FlagIdempotent(s: State, e: Event)
    requires IsFlagEvent(e)
    ensures Apply(Apply(s, e), e) == Apply(s, e)
  {
  }

  /** The lifecycle object: its `_state`, mutated in place. */
  class MessageLifecycleState {
    var state: State

    constructor ()
      ensures state == InitialState
    {
      state := InitialState;
    }

    method SetAsCreateStarted()
      modifies this
      ensures state == Apply(old(state), CreateStarted)
    {
      state := state.(create := state.create.(started := true));
    }

    /** Stores `responseBody` verbatim. */
    method SetAsCreateCompleted(responseBody: Json)
      modifies this
      ensures state == Apply(old(state), CreateCompleted(responseBody))
    {
      state := state.(create := state.create.(completed := true, responseBody := responseBody));
    }

    method SetAsCreateErrored(err: ErrorRecord)
      modifies this
      ensures state == Apply(old(state), CreateErrored(err))
    {
      state := state.(create := state.create.(error := Some(err)));
    }

    method SetAsUpdateStarted()
      modifies this
      ensures state == Apply(old(state), UpdateStarted)
    {
      state := state.(update := state.update.(started := true));
    }

    method SetAsUpdateCompleted(responseBody: Json)
      modifies this
      ensures state == Apply(old(state), UpdateCompleted(responseBody))
    {
      state := state.(update := state.update.(completed := true, responseBody := responseBody));
    }

    method SetAsUpdateErrored(err: ErrorRecord)
      modifies this
      ensures state == Apply(old(state), UpdateErrored(err))
    {
      state := state.(update := state.update.(error := Some(err)));
    }

    method FlagIntentForUpdate()
      modifies this
      ensures state == Apply(old(state), FlagIntent)
    {
      state := state.(optionsManifest := state.optionsManifest.(intent := true));
    }

    method FlagNotHandledForUpdate()
      modifies this
      ensures state == Apply(old(state), FlagNotHandled)
    {
      state := state.(optionsManifest := state.optionsManifest.(notHandled := true));
    }

    method FlagVersionForUpdate()
      modifies this
      ensures state == Apply(old(state), FlagVersion)
    {
      state := state.(optionsManifest := state.optionsManifest.(version := true));
    }

    method FlagFeedbackForUpdate()
      modifies this
      ensures state == Apply(old(state), FlagFeedback)
    {
      state := state.(optionsManifest := state.optionsManifest.(feedback := true));
    }

    function CreateEntryStarted(): bool
      reads this
    {
      state.create.started
    }

    function CreateEntryCompleted(): bool
      reads this
    {
      state.create.completed
    }

    function CreateEntryError(): Option<ErrorRecord>
      reads this
    {
      state.create.error
    }

    function GetCreateResponse(): Json
      reads this
    {
      state.create.responseBody
    }

    function UpdateEntryStarted(): bool
      reads this
    {
      state.update.started
    }

    function UpdateEntryCompleted(): bool
      reads this
    {
      state.update.completed
    }

    function UpdateEntryError(): Option<ErrorRecord>
      reads this
    {
      state.update.error
    }

    function GetUpdateResponse(): Json
      reads this
    {
      state.update.responseBody
    }

    function CannotBeUpdated(): Option<ErrorRecord>
      reads this
    {
      UpdateBlocker(state)
    }

    /** A copy of the manifest: a value, so no later change to the state
        reaches it, and no change to it reaches the state. */
    function OptionsManifest(): Manifest
      reads this
    {
      state.optionsManifest
    }
  }
}
