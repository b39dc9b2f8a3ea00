/**
 * Properties of the service and the controller over sequences of actions: the invariant every
 * reachable state keeps, what the service never touches, and the end-to-end behaviour of the
 * usual command sequences.
 */
module Lifecycle {
  import opened Wrappers
  import Preferences
  import BW = BackgroundWork
  import MA = MainActivity

  /** Every phase message on the channel carries one of the four phase names. */
  predicate ReportsPhases(sent: seq<BW.Invocation>)
  {
    forall k :: 0 <= k < |sent| && sent[k].name == BW.StateMethod ==> BW.ParsePhase(sent[k].argument).Some?
  }

  /** Whenever the key is present and some phase was sent, the store holds the last phase sent. */
  predicate StoreMirrorsChannel(s: BW.State)
  {
    BW.RecordingStateKey in s.store && BW.LastReported(s.sent).Some? ==>
      s.store[BW.RecordingStateKey] == BW.LastReported(s.sent).value
  }

  /**
   * The invariant of every reachable state: the flag is only up once the channel exists; no
   * message is sent before the channel exists; while initialized the last phase reported is
   * "initialized" or "recording"; the store agrees with the channel; only phase names are sent.
   */
  predicate Valid(s: BW.State)
  {
    && (s.initialized ==> s.channelSet)
    && (!s.channelSet ==> s.sent == [])
    && (s.initialized ==>
          BW.LastReported(s.sent) == Some(BW.PhaseName(BW.Initialized))
          || BW.LastReported(s.sent) == Some(BW.PhaseName(BW.Recording)))
    && StoreMirrorsChannel(s)
    && ReportsPhases(s.sent)
  }

  lemma LaunchValid(store: Preferences.Store)
    ensures Valid(BW.Launch(store))
  {
  }

  /** Appending one phase message keeps only phase names on the channel. */
  lemma ReportsPhasesAppend(sent: seq<BW.Invocation>, p: BW.Phase)
    requires ReportsPhases(sent)
    ensures ReportsPhases(sent + [BW.Invocation(BW.StateMethod, BW.PhaseName(p))])
  {
  }

  /** `saveRecordingState` keeps the store mirroring the channel and only sends phase names. */
  lemma SaveRecordingStateKeeps(s: BW.State, p: BW.Phase)
    requires ReportsPhases(s.sent) && StoreMirrorsChannel(s)
    ensures BW.SaveRecordingState(s, p).Success? ==>
      var t := BW.SaveRecordingState(s, p).value;
      ReportsPhases(t.sent) && StoreMirrorsChannel(t)
  {
    if s.channelSet {
      ReportsPhasesAppend(s.sent, p);
    }
  }

  /** `start` keeps the invariant. */
  lemma StartPreservesValid(s: BW.State, intent: BW.Intent)
    requires Valid(s)
    ensures BW.Start(s, intent).Success? ==> Valid(BW.Start(s, intent).value)
  {
    if !s.initialized && intent.path.Some? {
      var e := BW.StartEngine(s, intent.path.value);
      BW.LastReportedAppend(s.sent, BW.Invocation(BW.PathMethod, intent.path.value));
      assert ReportsPhases(e.sent);
      assert StoreMirrorsChannel(e);
      SaveRecordingStateKeeps(e, BW.Initialized);
    }
  }

  /** `stop` keeps the invariant. */
  lemma StopPreservesValid(s: BW.State)
    requires Valid(s)
    ensures BW.Stop(s).Success? ==> Valid(BW.Stop(s).value)
  {
    SaveRecordingStateKeeps(s, BW.Stopped);
  }

  /** `record` keeps the invariant. */
  lemma RecordPreservesValid(s: BW.State)
    requires Valid(s)
    ensures BW.Record(s).Success? ==> Valid(BW.Record(s).value)
  {
    SaveRecordingStateKeeps(s, BW.Recording);
  }

  /** `save` keeps the invariant. */
  lemma SavePreservesValid(s: BW.State)
    requires Valid(s)
    ensures BW.Save(s).Success? ==> Valid(BW.Save(s).value)
  {
    SaveRecordingStateKeeps(s, BW.Saving);
    if s.channelSet {
      var t := BW.SaveRecordingState(s, BW.Saving).value;
      assert !t.initialized ==> Valid(t);
      if t.initialized {
        SaveRecordingStateKeeps(t, BW.Stopped);
      }
    }
  }

  /** One delivered intent keeps the invariant. */
  lemma StepPreservesValid(s: BW.State, intent: Option<BW.Intent>)
    requires Valid(s)
    ensures BW.OnStartCommand(s, intent).Success? ==> Valid(BW.OnStartCommand(s, intent).value.state)
  {
    var action := BW.ActionOf(intent);
    if action == Some("start") {
      StartPreservesValid(s, intent.value);
    } else if action == Some("stop") {
      StopPreservesValid(s);
    } else if action == Some("save") {
      SavePreservesValid(s);
    } else if action == Some("record") {
      RecordPreservesValid(s);
    }
  }

  /**
   * In a reachable state the only ways an intent can throw: a second start, a start without a
   * path, or a record or save before any start assigned the channel. `stop` never throws.
   */
  lemma StepFailures(s: BW.State, intent: Option<BW.Intent>)
    requires Valid(s)
    ensures BW.OnStartCommand(s, intent).Failure? <==>
      || (BW.ActionOf(intent) == Some("start") && (s.initialized || intent.value.path.None?))
      || ((BW.ActionOf(intent) == Some("record") || BW.ActionOf(intent) == Some("save")) && !s.channelSet)
    ensures BW.OnStartCommand(s, intent).Failure? ==>
      BW.OnStartCommand(s, intent).error == (
        if BW.ActionOf(intent) == Some("start") then
          (if s.initialized then BW.AlreadyStarted else BW.MissingPath)
        else BW.ChannelUninitialized)
  {
  }

  /** What a delivered intent never changes: other store keys, the channel once set, the log so far. */
  lemma StepFrame(s: BW.State, intent: Option<BW.Intent>)
    ensures BW.OnStartCommand(s, intent).Success? ==>
      var t := BW.OnStartCommand(s, intent).value.state;
      && t.store - {BW.RecordingStateKey} == s.store - {BW.RecordingStateKey}
      && (s.channelSet ==> t.channelSet)
      && s.sent <= t.sent
  {
  }

  /** Deliver a sequence of intents one after the other, stopping at the first exception. */
  function Run(s: BW.State, intents: seq<Option<BW.Intent>>): (r: Result<BW.State, BW.Error>)
    ensures r.Success? ==> r.value.store - {BW.RecordingStateKey} == s.store - {BW.RecordingStateKey}
    ensures r.Success? && s.channelSet ==> r.value.channelSet
    ensures r.Success? ==> s.sent <= r.value.sent
    decreases |intents|
  {
    if |intents| == 0 then Success(s)
    else
      StepFrame(s, intents[0]);
      var h :- BW.OnStartCommand(s, intents[0]);
      Run(h.state, intents[1..])
  }

  /** Every state reached from a valid one by delivering intents is valid. */
  lemma {:induction false} RunPreservesValid(s: BW.State, intents: seq<Option<BW.Intent>>)
    requires Valid(s)
    ensures Run(s, intents).Success? ==> Valid(Run(s, intents).value)
    decreases |intents|
  {
    if |intents| > 0 {
      StepPreservesValid(s, intents[0]);
      var h := BW.OnStartCommand(s, intents[0]);
      if h.Success? {
        RunPreservesValid(h.value.state, intents[1..]);
      }
    }
  }

  /** One controller call, with its dispatched intent delivered, keeps the invariant. */
  lemma CallPreservesValid(s: BW.State, call: MA.MethodCall)
    requires Valid(s)
    ensures MA.Call(s, call).Success? && MA.Call(s, call).value.after.Success? ==>
      Valid(MA.Call(s, call).value.after.value)
  {
    var h := MA.OnMethodCall(s.store, call);
    if h.Success? && h.value.dispatch.Some? {
      assert h.value.store == s.store;
      assert s.(store := h.value.store) == s;
      StepPreservesValid(s, h.value.dispatch);
    }
  }

  /** Why a session of controller calls ended early. */
  datatype SessionError = Rejected(call: MA.CallError) | Crashed(service: BW.Error)

  /** Apply controller calls one after the other, stopping at the first exception. */
  function Session(s: BW.State, calls: seq<MA.MethodCall>): (r: Result<BW.State, SessionError>)
    decreases |calls|
  {
    if |calls| == 0 then Success(s)
    else
      match MA.Call(s, calls[0])
      case Failure(e) => Failure(Rejected(e))
      case Success(x) =>
        match x.after
        case Failure(e) => Failure(Crashed(e))
        case Success(t) => Session(t, calls[1..])
  }

  /** Every state a session of controller calls reaches from a valid one is valid. */
  lemma {:induction false} SessionPreservesValid(s: BW.State, calls: seq<MA.MethodCall>)
    requires Valid(s)
    ensures Session(s, calls).Success? ==> Valid(Session(s, calls).value)
    decreases |calls|
  {
    if |calls| > 0 {
      CallPreservesValid(s, calls[0]);
      var x := MA.Call(s, calls[0]);
      if x.Success? && x.value.after.Success? {
        SessionPreservesValid(x.value.after.value, calls[1..]);
      }
    }
  }

  /** The controller's phase query. */
  const StateQuery := MA.MethodCall("state", MA.Null)

  /** What the phase query replies in a given state. */
  function QueryPhase(s: BW.State): (v: string)
    ensures BW.RecordingStateKey in s.store ==> v == s.store[BW.RecordingStateKey]
    ensures BW.RecordingStateKey !in s.store ==> v == BW.PhaseName(BW.Stopped)
  {
    MA.Call(s, StateQuery).value.reply.value.value
  }

  /** While a recording session runs, the phase query answers "initialized" or "recording" (or the default after a reset). */
  lemma RunningPhase(s: BW.State)
    requires Valid(s) && s.initialized
    ensures QueryPhase(s) in {BW.PhaseName(BW.Initialized), BW.PhaseName(BW.Recording), BW.PhaseName(BW.Stopped)}
    ensures BW.RecordingStateKey in s.store ==>
      QueryPhase(s) == BW.PhaseName(BW.Initialized) || QueryPhase(s) == BW.PhaseName(BW.Recording)
  {
  }

  /** The calls the UI makes for start, record, save and reset. */
  function StartCall(handle: int, path: string): (call: MA.MethodCall)
  {
    MA.MethodCall("start", MA.List([MA.Long(handle), MA.Str(path)]))
  }

  const RecordCall := MA.MethodCall("record", MA.Null)
  const SaveCall := MA.MethodCall("save", MA.Null)
  const StopCall := MA.MethodCall("stop", MA.Null)
  const ResetCall := MA.MethodCall("reset_state", MA.Null)

  /**
   * start; record; save from a fresh process ends with the flag down and the phase query
   * answering "stopped"; the last two phases sent were "saving" then "stopped".
   */
  lemma StartRecordSaveEndsStopped(store: Preferences.Store, handle: int, path: string)
    ensures Session(BW.Launch(store), [StartCall(handle, path), RecordCall, SaveCall]).Success?
    ensures
      var t := Session(BW.Launch(store), [StartCall(handle, path), RecordCall, SaveCall]).value;
      && !t.initialized
      && QueryPhase(t) == BW.PhaseName(BW.Stopped)
      && t.sent == [BW.Invocation(BW.PathMethod, path),
                    BW.Invocation(BW.StateMethod, BW.PhaseName(BW.Initialized)),
                    BW.Invocation(BW.StateMethod, BW.PhaseName(BW.Recording)),
                    BW.Invocation(BW.StateMethod, BW.PhaseName(BW.Saving)),
                    BW.Invocation(BW.StateMethod, BW.PhaseName(BW.Stopped))]
  {
    var calls := [StartCall(handle, path), RecordCall, SaveCall];
    var s0 := BW.Launch(store);
    var x1 := MA.Call(s0, calls[0]);
    assert x1.Success? && x1.value.after.Success?;
    var s1 := x1.value.after.value;
    assert s1.initialized && s1.channelSet;
    var x2 := MA.Call(s1, calls[1]);
    assert x2.Success? && x2.value.after.Success?;
    var s2 := x2.value.after.value;
    assert s2.initialized && s2.channelSet;
    var x3 := MA.Call(s2, calls[2]);
    assert x3.Success? && x3.value.after.Success?;
    var s3 := x3.value.after.value;
    assert calls[1..] == [RecordCall, SaveCall];
    assert calls[1..][1..] == [SaveCall];
    assert Session(s2, [SaveCall]) == Success(s3);
    assert Session(s1, [RecordCall, SaveCall]) == Success(s3);
  }

  /**
   * A second start while a recording session runs throws `AlreadyStarted` in the service, after the
   * controller has already replied success; nothing changes.
   */
  lemma SecondStartRejected(s: BW.State, handle: int, path: string)
    requires s.initialized
    ensures MA.Call(s, StartCall(handle, path)).Success?
    ensures MA.Call(s, StartCall(handle, path)).value.reply == MA.Replied(None)
    ensures MA.Call(s, StartCall(handle, path)).value.after == Failure(BW.AlreadyStarted)
  {
  }

  /** After "reset_state" the phase query answers "stopped", whatever was stored. */
  lemma ResetThenQuery(s: BW.State)
    ensures MA.Call(s, ResetCall).Success? && MA.Call(s, ResetCall).value.after.Success?
    ensures QueryPhase(MA.Call(s, ResetCall).value.after.value) == BW.PhaseName(BW.Stopped)
    ensures MA.Call(s, ResetCall).value.after.value.store - {BW.RecordingStateKey}
      == s.store - {BW.RecordingStateKey}
  {
  }

  /** After stopping an initialized service, a freshly started process reads "stopped" from the store. */
  lemma RestartAfterStop(s: BW.State)
    requires Valid(s) && s.initialized
    ensures BW.Stop(s).Success?
    ensures QueryPhase(BW.Launch(BW.Stop(s).value.store)) == BW.PhaseName(BW.Stopped)
  {
  }

  /** Stopping twice is the same as stopping once. */
  lemma StopIdempotent(s: BW.State)
    requires BW.Stop(s).Success?
    ensures BW.Stop(BW.Stop(s).value) == BW.Stop(s)
  {
  }

  /** "record" from a fresh process throws: the channel was never assigned. */
  lemma RecordOnFreshProcessFails(store: Preferences.Store)
    ensures MA.Call(BW.Launch(store), RecordCall).value.after == Failure(BW.ChannelUninitialized)
  {
  }

  /**
   * "record" after a start/stop cycle is not a no-op: the channel is still assigned, so the
   * service sends and persists "recording" although the service is not initialized.
   */
  lemma RecordWhileStoppedPersists(store: Preferences.Store, handle: int, path: string)
    ensures Session(BW.Launch(store), [StartCall(handle, path), StopCall, RecordCall]).Success?
    ensures
      var t := Session(BW.Launch(store), [StartCall(handle, path), StopCall, RecordCall]).value;
      !t.initialized && QueryPhase(t) == BW.PhaseName(BW.Recording)
  {
    var calls := [StartCall(handle, path), StopCall, RecordCall];
    var s0 := BW.Launch(store);
    var x1 := MA.Call(s0, calls[0]);
    assert x1.Success? && x1.value.after.Success?;
    var s1 := x1.value.after.value;
    assert s1.initialized && s1.channelSet;
    var x2 := MA.Call(s1, calls[1]);
    assert x2.Success? && x2.value.after.Success?;
    var s2 := x2.value.after.value;
    assert !s2.initialized && s2.channelSet;
    var x3 := MA.Call(s2, calls[2]);
    assert x3.Success? && x3.value.after.Success?;
    var s3 := x3.value.after.value;
    assert calls[1..] == [StopCall, RecordCall];
    assert calls[1..][1..] == [RecordCall];
    assert Session(s2, [RecordCall]) == Success(s3);
    assert Session(s1, [StopCall, RecordCall]) == Success(s3);
  }

  /** "save" while stopped leaves "saving" in the store, because the inner stop returns early. */
  lemma SaveWhileStoppedLeavesSaving(s: BW.State)
    requires s.channelSet && !s.initialized
    ensures BW.Save(s).Success?
    ensures QueryPhase(BW.Save(s).value) == BW.PhaseName(BW.Saving)
    ensures !BW.Save(s).value.initialized
  {
  }
}
