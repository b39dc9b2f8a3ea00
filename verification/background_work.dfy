/**
 * The recording-lifecycle state machine of the background service (`BackgroundWork`).
 *
 * The service keeps its state in process-wide globals — the `initialized` flag and the
 * `lateinit` method channel to the background isolate — and mirrors each phase into the
 * shared store under the key "state". Every action is a pure function from the state before
 * to the state after; an exception the Kotlin code throws becomes a `Failure`, and in every
 * such path nothing has been changed yet when the exception is raised.
 */
module BackgroundWork {
  import opened Wrappers
  import Preferences

  /** The single key the phase is persisted under. */
  const RecordingStateKey := "state"
  /** Channel method carrying the output path, sent once per start. */
  const PathMethod := "path"
  /** Channel method carrying each new phase. */
  const StateMethod := "state"
  /** Android's `Service.START_STICKY`. */
  const StartSticky := 1

  /** The four phases, persisted and sent as the strings `PhaseName` gives. */
  datatype Phase = Stopped | Initialized | Recording | Saving

  /** The companion constants `RECORDING_STATE_*`: distinct names, so each phase parses back. */
  function PhaseName(p: Phase): (name: string)
    ensures ParsePhase(name) == Some(p)
  {
    match p
    case Stopped => "stopped"
    case Initialized => "initialized"
    case Recording => "recording"
    case Saving => "saving"
  }

  /** The phase a persisted or sent string names, if any. */
  function ParsePhase(name: string): (r: Option<Phase>)
    ensures r.Some? <==> name in {"stopped", "initialized", "recording", "saving"}
  {
    if name == "stopped" then Some(Stopped)
    else if name == "initialized" then Some(Initialized)
    else if name == "recording" then Some(Recording)
    else if name == "saving" then Some(Saving)
    else None
  }

  /** Every accepted name is the name of the phase it parses to. */
  lemma ParsePhaseRoundTrip(name: string)
    ensures ParsePhase(name).Some? ==> PhaseName(ParsePhase(name).value) == name
  {
  }

  /** One `channel.invokeMethod(method, argument)` on the channel to the isolate. */
  datatype Invocation = Invocation(name: string, argument: string)

  /** The parts of an `Intent` the service reads: its action and its two extras. */
  datatype Intent = Intent(action: Option<string>, callback: Option<int>, path: Option<string>)

  datatype Error =
    | AlreadyStarted         // `start` while `initialized` (IllegalStateException)
    | MissingPath            // the "path" extra is null (`!!`)
    | ChannelUninitialized   // `channel` read before any `start` assigned it

  /**
   * The service's state: the two globals (`channelSet` says whether the `lateinit channel`
   * has been assigned), the shared store, every message sent on the channel so far, and
   * whether the service has asked to be stopped.
   */
  datatype State = State(
    initialized: bool,
    channelSet: bool,
    store: Preferences.Store,
    sent: seq<Invocation>,
    stopSelfCalled: bool)

  /** What a normal return of `onStartCommand` yields: the new state and the restart mode. */
  datatype Handled = Handled(state: State, mode: int)

  /** A fresh process: the globals at their initial values, the store as it was left on disk. */
  function Launch(store: Preferences.Store): (s: State)
    ensures !s.initialized && !s.channelSet && s.sent == [] && !s.stopSelfCalled
    ensures s.store == store
  {
    State(false, false, store, [], false)
  }

  /**
   * The phase most recently sent on the channel: the argument of the last `StateMethod`
   * invocation, or `None` when no phase was ever sent.
   */
  function LastReported(sent: seq<Invocation>): (r: Option<string>)
    ensures r.Some? ==>
      exists j :: 0 <= j < |sent| && sent[j] == Invocation(StateMethod, r.value)
        && forall k :: j < k < |sent| ==> sent[k].name != StateMethod
    ensures r.None? ==> forall k :: 0 <= k < |sent| ==> sent[k].name != StateMethod
    decreases |sent|
  {
    if |sent| == 0 then None
    else if sent[|sent| - 1].name == StateMethod then Some(sent[|sent| - 1].argument)
    else
      var r := LastReported(sent[..|sent| - 1]);
      assert forall k :: 0 <= k < |sent| - 1 ==> sent[..|sent| - 1][k] == sent[k];
      r
  }

  /** Appending one message changes the last reported phase exactly when it is a phase message. */
  lemma LastReportedAppend(sent: seq<Invocation>, m: Invocation)
    ensures LastReported(sent + [m]) == if m.name == StateMethod then Some(m.argument) else LastReported(sent)
  {
    assert (sent + [m])[..|sent|] == sent;
  }

  /**
   * `startEngine`, restricted to the state it sets: the foreign engine start is left out, then
   * the channel is assigned, the path is sent as the first message and the flag is raised.
   */
  function StartEngine(s: State, path: string): (r: State)
    ensures r.initialized && r.channelSet
    ensures r.sent == s.sent + [Invocation(PathMethod, path)]
    ensures r.store == s.store && r.stopSelfCalled == s.stopSelfCalled
  {
    s.(channelSet := true, sent := s.sent + [Invocation(PathMethod, path)], initialized := true)
  }

  /**
   * `saveRecordingState`: send the phase on the channel, then persist it. Reading the unset
   * `lateinit channel` throws before the store is touched.
   */
  function SaveRecordingState(s: State, p: Phase): (r: Result<State, Error>)
    ensures r.Failure? <==> !s.channelSet
    ensures r.Failure? ==> r.error == ChannelUninitialized
    ensures r.Success? ==>
      && r.value.sent == s.sent + [Invocation(StateMethod, PhaseName(p))]
      && LastReported(r.value.sent) == Some(PhaseName(p))
      && RecordingStateKey in r.value.store && r.value.store[RecordingStateKey] == PhaseName(p)
      && r.value.store - {RecordingStateKey} == s.store - {RecordingStateKey}
      && r.value.initialized == s.initialized
      && r.value.channelSet == s.channelSet
      && r.value.stopSelfCalled == s.stopSelfCalled
  {
    if !s.channelSet then Failure(ChannelUninitialized)
    else
      var sent := s.sent + [Invocation(StateMethod, PhaseName(p))];
      LastReportedAppend(s.sent, Invocation(StateMethod, PhaseName(p)));
      Success(s.(sent := sent, store := Preferences.PutString(s.store, RecordingStateKey, PhaseName(p))))
  }

  /**
   * `start`: refuse a second start, then bring up the engine and channel, then report
   * "initialized". Notification and foreground bookkeeping are left out.
   */
  function Start(s: State, intent: Intent): (r: Result<State, Error>)
    ensures s.initialized ==> r == Failure(AlreadyStarted)
    ensures !s.initialized && intent.path.None? ==> r == Failure(MissingPath)
    ensures !s.initialized && intent.path.Some? ==>
      && r.Success?
      && r.value.initialized && r.value.channelSet
      && r.value.sent == s.sent + [Invocation(PathMethod, intent.path.value),
                                   Invocation(StateMethod, PhaseName(Initialized))]
      && r.value.store == Preferences.PutString(s.store, RecordingStateKey, PhaseName(Initialized))
      && r.value.stopSelfCalled == s.stopSelfCalled
  {
    if s.initialized then Failure(AlreadyStarted)
    else if intent.path.None? then Failure(MissingPath)
    else SaveRecordingState(StartEngine(s, intent.path.value), Initialized)
  }

  /**
   * `record`: report and persist "recording". It does not look at `initialized`: it fails only
   * when no start ever assigned the channel.
   */
  function Record(s: State): (r: Result<State, Error>)
    ensures r.Failure? <==> !s.channelSet
    ensures r.Failure? ==> r.error == ChannelUninitialized
    ensures r.Success? ==>
      && RecordingStateKey in r.value.store && r.value.store[RecordingStateKey] == PhaseName(Recording)
      && r.value.store - {RecordingStateKey} == s.store - {RecordingStateKey}
      && r.value.sent == s.sent + [Invocation(StateMethod, PhaseName(Recording))]
      && r.value.initialized == s.initialized
      && r.value.channelSet == s.channelSet
      && r.value.stopSelfCalled == s.stopSelfCalled
  {
    SaveRecordingState(s, Recording)
  }

  /**
   * `stop`: when not initialized only ask the OS to stop the service. Otherwise report and
   * persist "stopped", lower the flag, and tear the engine down. The teardown calls `destroy()`
   * on a `lateinit` engine that nothing ever assigns; the exception it raises is swallowed, so
   * it leaves no trace in the state and cannot make `stop` fail.
   */
  function Stop(s: State): (r: Result<State, Error>)
    ensures !s.initialized ==> r == Success(s.(stopSelfCalled := true))
    ensures s.initialized && s.channelSet ==>
      && r.Success?
      && !r.value.initialized
      && r.value.stopSelfCalled
      && RecordingStateKey in r.value.store && r.value.store[RecordingStateKey] == PhaseName(Stopped)
      && r.value.sent == s.sent + [Invocation(StateMethod, PhaseName(Stopped))]
    ensures r.Failure? <==> s.initialized && !s.channelSet
    ensures r.Failure? ==> r.error == ChannelUninitialized
    ensures r.Success? ==>
      && r.value.store - {RecordingStateKey} == s.store - {RecordingStateKey}
      && r.value.channelSet == s.channelSet
  {
    if !s.initialized then Success(s.(stopSelfCalled := true))
    else
      var reported :- SaveRecordingState(s, Stopped);
      Success(reported.(initialized := false, stopSelfCalled := true))
  }

  /** `save`: report and persist "saving", then `stop`. */
  function Save(s: State): (r: Result<State, Error>)
    ensures r.Failure? <==> !s.channelSet
    ensures r.Failure? ==> r.error == ChannelUninitialized
    ensures r.Success? ==>
      && r.value.store - {RecordingStateKey} == s.store - {RecordingStateKey}
      && r.value.channelSet == s.channelSet
    ensures s.channelSet && s.initialized ==>
      && r.Success?
      && !r.value.initialized
      && r.value.stopSelfCalled
      && RecordingStateKey in r.value.store && r.value.store[RecordingStateKey] == PhaseName(Stopped)
      && r.value.sent == s.sent + [Invocation(StateMethod, PhaseName(Saving)),
                                   Invocation(StateMethod, PhaseName(Stopped))]
    ensures s.channelSet && !s.initialized ==>
      && r.Success?
      && !r.value.initialized
      && r.value.stopSelfCalled
      && RecordingStateKey in r.value.store && r.value.store[RecordingStateKey] == PhaseName(Saving)
      && r.value.sent == s.sent + [Invocation(StateMethod, PhaseName(Saving))]
  {
    var saved :- SaveRecordingState(s, Saving);
    Stop(saved)
  }

  /** `intent?.action`: the action of an intent, absent when the intent itself is null. */
  function ActionOf(intent: Option<Intent>): (action: Option<string>)
  {
    if intent.None? then None else intent.value.action
  }

  /** The four actions `onStartCommand` dispatches on. */
  predicate IsServiceAction(action: Option<string>)
  {
    action == Some("start") || action == Some("stop") || action == Some("save") || action == Some("record")
  }

  /** The normal return of `onStartCommand` after an action produced `t`, or the exception it threw. */
  function Lift(t: Result<State, Error>): (r: Result<Handled, Error>)
    ensures r.Success? <==> t.Success?
    ensures t.Success? ==> r.value == Handled(t.value, StartSticky)
    ensures t.Failure? ==> r.error == t.error
  {
    match t
    case Success(next) => Success(Handled(next, StartSticky))
    case Failure(e) => Failure(e)
  }

  /**
   * `onStartCommand`: dispatch on the intent's action and, unless the action threw, return
   * `START_STICKY`. A null intent, a null action or any other action changes nothing.
   */
  function OnStartCommand(s: State, intent: Option<Intent>): (r: Result<Handled, Error>)
    ensures r.Success? ==> r.value.mode == StartSticky
    ensures !IsServiceAction(ActionOf(intent)) ==> r == Success(Handled(s, StartSticky))
    ensures r.Failure? ==> IsServiceAction(ActionOf(intent))
    ensures ActionOf(intent) == Some("start") ==> r == Lift(Start(s, intent.value))
    ensures ActionOf(intent) == Some("stop") ==> r == Lift(Stop(s))
    ensures ActionOf(intent) == Some("save") ==> r == Lift(Save(s))
    ensures ActionOf(intent) == Some("record") ==> r == Lift(Record(s))
  {
    var action := ActionOf(intent);
    var next :-
      if action == Some("start") then Start(s, intent.value)
      else if action == Some("stop") then Stop(s)
      else if action == Some("save") then Save(s)
      else if action == Some("record") then Record(s)
      else Success(s);
    Success(Handled(next, StartSticky))
  }
}
