# background_work: the recording lifecycle, in Dafny

This project models the recording-lifecycle state machine of the `background_work` Android app. The model has two parts.

- The background service `BackgroundWork` receives the actions `start`, `record`, `save` and `stop` as intents. Its companion object holds three process-wide globals: the `lateinit` engine `flutterEngine`, the `lateinit` method channel `channel` to the background isolate, and the `initialized` flag. The service model carries the channel and the flag; `flutterEngine` is modelled only in `EngineTeardown`. It sends every phase on that channel and persists it under the key `"state"` in the shared preferences.
- The foreground controller `MainActivity.onMethodCall` turns UI method calls into service intents. It answers the `"state"` query from the preferences, with `"stopped"` as the default, and clears the key on `"reset_state"`.

Everything is a pure function over an immutable state, `BackgroundWork.State(initialized, channelSet, store, sent, stopSelfCalled)`:

- `channelSet` says whether the `lateinit channel` has been assigned.
- `store` is the preferences map.
- `sent` is the log of `invokeMethod` calls.
- `stopSelfCalled` records that the service asked the OS to stop it.

A Kotlin exception becomes `Failure(error)`. In every throwing path the exception is raised before anything has been changed, so a failure carries no state.

Modules:
- `Wrappers`: `Option` and `Result`.
- `Preferences`: the key-value store.
- `BackgroundWork`: the service actions and their constants.
- `MainActivity`: `onMethodCall`, plus `Call`, which runs one controller call and then delivers the intent it dispatched.
- `Lifecycle`: the invariant of reachable states, what the service never touches, and end-to-end sequences.
- `EngineTeardown`: the engine-ownership finding below.

Behaviour of the code that one might not expect:
- `record` and `save` while the service is not initialized are not no-ops. After a start/stop cycle the channel is still assigned. So `record` persists `"recording"` (`Lifecycle.RecordWhileStoppedPersists`), and `save` leaves `"saving"` in the store, because the inner `stop` returns early (`Lifecycle.SaveWhileStoppedLeavesSaving`). In a fresh process both throw, because the channel was never assigned (`Lifecycle.RecordOnFreshProcessFails`).
- `start` is refused on the `initialized` flag alone, and the channel is never released.
- The controller replies `success(null)` before the service handles the intent. A rejected second `start` therefore still gets a success reply (`Lifecycle.SecondStartRejected`).
- The service silently ignores an unknown action. Only the controller answers `notImplemented`.
- A failing foreign engine start and a failing store write are not modelled: the engine calls are foreign, and `apply()` reports no failure.

## Model

| member | source | states |
|---|---|---|
| BackgroundWork.PhaseName | android/app/src/main/java/eu/long1/background_work/BackgroundWork.kt:215-218 | the four persisted phase names are distinct: each name parses back to its own phase |
| BackgroundWork.ParsePhase | android/app/src/main/java/eu/long1/background_work/BackgroundWork.kt:215-218 | exactly the four persisted phase names are accepted |
| BackgroundWork.ParsePhaseRoundTrip | android/app/src/main/java/eu/long1/background_work/BackgroundWork.kt:215-218 | a string parses to a phase only if that phase's persisted name is exactly that string |
| BackgroundWork.Launch | android/app/src/main/java/eu/long1/background_work/BackgroundWork.kt:221-223 | a new process starts not initialized, with no channel, nothing sent and the store as it was left on disk |
| BackgroundWork.LastReported | android/app/src/main/java/eu/long1/background_work/BackgroundWork.kt:98-99 | the phase last sent on the channel is the argument of the last "state" message, and it is absent exactly when no "state" message was sent |
| BackgroundWork.LastReportedAppend | android/app/src/main/java/eu/long1/background_work/BackgroundWork.kt:94-99 | a "path" message leaves the last reported phase alone; a "state" message replaces it |
| BackgroundWork.StartEngine | android/app/src/main/java/eu/long1/background_work/BackgroundWork.kt:93-95 | starting the engine assigns the channel, sends the path and raises the flag, and leaves the store alone |
| BackgroundWork.SaveRecordingState | android/app/src/main/java/eu/long1/background_work/BackgroundWork.kt:98-103 | it fails with ChannelUninitialized exactly when the channel was never assigned, and then the store is not written; otherwise it sends the phase, afterwards a read of the key returns that phase, and no other key or flag changes |
| BackgroundWork.Start | android/app/src/main/java/eu/long1/background_work/BackgroundWork.kt:33-46 | when already initialized it fails with AlreadyStarted; a missing path fails; otherwise initialized and channel set, "path" then "state: initialized" sent, store holds "initialized" |
| BackgroundWork.Record | android/app/src/main/java/eu/long1/background_work/BackgroundWork.kt:48-51 | whether or not initialized, record persists and sends "recording" and changes nothing else (flags, stopSelf, other keys); it fails, with ChannelUninitialized, only when the channel was never set |
| BackgroundWork.Stop | android/app/src/main/java/eu/long1/background_work/BackgroundWork.kt:59-72 | when not initialized only stopSelf is recorded; when initialized the store holds "stopped", the flag drops and the teardown cannot make it fail |
| BackgroundWork.Save | android/app/src/main/java/eu/long1/background_work/BackgroundWork.kt:53-57 | initialized: log ends "saving","stopped", store "stopped", flag down, stopSelf called; not initialized: store left at "saving", stopSelf called; other keys and the channel are untouched; it fails with ChannelUninitialized only when the channel was never set |
| BackgroundWork.OnStartCommand | android/app/src/main/java/eu/long1/background_work/BackgroundWork.kt:21-30 | "start", "stop", "save" and "record" run Start, Stop, Save and Record respectively, returning their state with START_STICKY or passing on their exception; a null intent, a null action or an unknown action changes nothing; only the four actions can throw |
| MainActivity.StartIntent | android/app/src/main/kotlin/eu/long1/background_work/MainActivity.kt:26-30 | the "start" arguments are accepted exactly when they are a list whose first item is a Long and whose second is a String; those become the callback and path of a "start" intent; otherwise the exception is the first one the casts and indexing raise, in source order: not a list, no first item, first not a Long, no second item, second not a String |
| MainActivity.ServiceIntent | android/app/src/main/kotlin/eu/long1/background_work/MainActivity.kt:35-36 | the intent built for a method carries that method's name as its action |
| MainActivity.OnMethodCall | android/app/src/main/kotlin/eu/long1/background_work/MainActivity.kt:23-64 | stop/save/record dispatch the same-named action; reset_state removes only the key; state answers the stored value or "stopped"; every recognised method but state replies success(null); any other name replies notImplemented and dispatches nothing; the only exception is the one the "start" argument casts raise |
| MainActivity.Call | android/app/src/main/kotlin/eu/long1/background_work/MainActivity.kt:31-32 | a controller exception is passed on unchanged; otherwise the reply is the controller's, whatever the service then does; a dispatched intent is delivered to OnStartCommand on the state with the controller's store, and the result is the state it produces or the exception it throws; a call that dispatches nothing only changes the store |
| Preferences.GetString | android/app/src/main/kotlin/eu/long1/background_work/MainActivity.kt:57-59 | a read returns the stored value, or the default when the key is absent |
| Preferences.PutString | android/app/src/main/java/eu/long1/background_work/BackgroundWork.kt:100-102 | a write sets one key and leaves every other key as it was |
| Preferences.Remove | android/app/src/main/kotlin/eu/long1/background_work/MainActivity.kt:53 | a remove drops one key and leaves every other key as it was |
| Lifecycle.LaunchValid | android/app/src/main/java/eu/long1/background_work/BackgroundWork.kt:221-223 | a fresh process satisfies the reachable-state invariant |
| Lifecycle.SaveRecordingStateKeeps | android/app/src/main/java/eu/long1/background_work/BackgroundWork.kt:98-103 | after every phase write the store agrees with the last phase sent, and only phase names have been sent |
| Lifecycle.StartPreservesValid | android/app/src/main/java/eu/long1/background_work/BackgroundWork.kt:33-46 | start keeps the invariant (initialized implies channel set, and so on) |
| Lifecycle.StopPreservesValid | android/app/src/main/java/eu/long1/background_work/BackgroundWork.kt:59-72 | stop keeps the invariant |
| Lifecycle.RecordPreservesValid | android/app/src/main/java/eu/long1/background_work/BackgroundWork.kt:48-51 | record keeps the invariant |
| Lifecycle.SavePreservesValid | android/app/src/main/java/eu/long1/background_work/BackgroundWork.kt:53-57 | save keeps the invariant |
| Lifecycle.StepPreservesValid | android/app/src/main/java/eu/long1/background_work/BackgroundWork.kt:21-30 | every delivered intent keeps the invariant |
| Lifecycle.StepFailures | android/app/src/main/java/eu/long1/background_work/BackgroundWork.kt:34-39 | in a reachable state an intent throws exactly for a second start, a start without a path, or record/save before any start, with the matching error; stop never throws |
| Lifecycle.StepFrame | android/app/src/main/java/eu/long1/background_work/BackgroundWork.kt:98-103 | an intent never touches other store keys, never unassigns the channel, and only appends to the channel log |
| Lifecycle.Run | android/app/src/main/java/eu/long1/background_work/BackgroundWork.kt:21-29 | over any sequence of intents, other store keys are untouched, the channel stays assigned and the log only grows |
| Lifecycle.RunPreservesValid | android/app/src/main/java/eu/long1/background_work/BackgroundWork.kt:93-95 | every state reached by delivering intents satisfies the invariant, in particular initialized implies the channel is set |
| Lifecycle.CallPreservesValid | android/app/src/main/kotlin/eu/long1/background_work/MainActivity.kt:23-64 | every controller call, including reset_state, keeps the invariant |
| Lifecycle.SessionPreservesValid | android/app/src/main/kotlin/eu/long1/background_work/MainActivity.kt:23-64 | every state reached by a sequence of controller calls satisfies the invariant |
| Lifecycle.QueryPhase | android/app/src/main/kotlin/eu/long1/background_work/MainActivity.kt:56-60 | the phase query answers the stored value, or "stopped" when nothing is stored |
| Lifecycle.RunningPhase | android/app/src/main/java/eu/long1/background_work/BackgroundWork.kt:41-50 | while initialized, the query answers "initialized" or "recording" (or the default once reset) |
| Lifecycle.StartRecordSaveEndsStopped | android/app/src/main/java/eu/long1/background_work/BackgroundWork.kt:33-72 | start, record, save from a fresh process leaves the flag down and the query answering "stopped", after sending path, initialized, recording, saving, stopped |
| Lifecycle.SecondStartRejected | android/app/src/main/java/eu/long1/background_work/BackgroundWork.kt:34-35 | a start while initialized throws AlreadyStarted in the service although the controller replied success(null) |
| Lifecycle.ResetThenQuery | android/app/src/main/kotlin/eu/long1/background_work/MainActivity.kt:52-60 | after reset_state the query answers "stopped" whatever was stored, and other keys are kept |
| Lifecycle.RestartAfterStop | android/app/src/main/java/eu/long1/background_work/BackgroundWork.kt:65-71 | after stopping an initialized service, a fresh process reading the store answers "stopped" |
| Lifecycle.StopIdempotent | android/app/src/main/java/eu/long1/background_work/BackgroundWork.kt:59-72 | a second stop changes nothing further |
| Lifecycle.RecordOnFreshProcessFails | android/app/src/main/java/eu/long1/background_work/BackgroundWork.kt:98-99 | record before any start throws ChannelUninitialized |
| Lifecycle.RecordWhileStoppedPersists | android/app/src/main/java/eu/long1/background_work/BackgroundWork.kt:48-50 | after start and stop, record leaves the flag down but the query answers "recording" |
| Lifecycle.SaveWhileStoppedLeavesSaving | android/app/src/main/java/eu/long1/background_work/BackgroundWork.kt:53-62 | save while not initialized leaves "saving" in the store |
| EngineTeardown.Destroy | android/app/src/main/java/eu/long1/background_work/BackgroundWork.kt:67-70 | destroying an unassigned engine throws into the empty catch and changes nothing; an assigned live engine is destroyed |
| EngineTeardown.StepAsWritten | android/app/src/main/java/eu/long1/background_work/BackgroundWork.kt:84 | as written, no command ever assigns the global engine |
| EngineTeardown.AsWrittenLeaksEngines | android/app/src/main/java/eu/long1/background_work/BackgroundWork.kt:67-70 | as written, n start/stop cycles leave n engines alive |
| EngineTeardown.OneCycleLeaks | android/app/src/main/java/eu/long1/background_work/BackgroundWork.kt:67-70 | one start/stop cycle from a fresh process leaves one engine alive while not initialized |
| EngineTeardown.CorrectedOwnsOneEngine | android/app/src/main/java/eu/long1/background_work/BackgroundWork.kt:221 | with the global assigned on start, one engine is alive while initialized and none otherwise |

## Left out

- Notification channel creation, notification building and posting, and `PendingIntent` construction (BackgroundWork.kt:105-205). These are UI rendering through Android APIs.
- Engine creation, callback lookup, app-bundle path resolution and `executeDartCallback` (BackgroundWork.kt:81-85). These are foreign calls; only their effect of assigning the channel and raising the flag is kept. The intent's `callback` extra is carried but feeds nothing else.
- `startForeground`, the process semantics of `stopSelf`, `START_STICKY` restarts and `onBind`. These are OS service lifecycle; `stopSelf` is a boolean flag and START_STICKY is the returned constant 1.
- The asynchrony of `SharedPreferences.apply()` and cross-process visibility. The store is an immediately updated map.
- The MethodChannel transport and `startService` delivery. A dispatch is a direct call of `OnStartCommand`. How Flutter turns an exception thrown in `onMethodCall` into an error reply is not modelled; `Call` reports it as a `CallError`.
- What an exception thrown by the service does to the process. `Call` and `Run` report it and keep the state before the action.
- Concurrency and multi-instance races. Android delivers `onStartCommand` calls one at a time.
- BackgroundWork.Stop: the engine teardown is not a parameter. Its exception is always swallowed and it has no effect on the modelled state. Engine ownership is modelled separately in `EngineTeardown`.

## Findings

| source | as written | input that shows it | evidently intended | confidence | as-written member | corrected member |
|---|---|---|---|---|---|---|
| android/app/src/main/java/eu/long1/background_work/BackgroundWork.kt:84 | `startEngine` keeps the new engine in a local `engine`, and the global `flutterEngine` (line 221) is never assigned. `stop` therefore calls `destroy()` on an unassigned `lateinit`, the exception is swallowed (lines 67-70), and the engine keeps running | start, then stop, from a fresh process: one engine is still alive while the service is stopped; n cycles leave n engines | `startEngine` assigns `flutterEngine = engine`, so that `stop` destroys the engine that `start` created | high, not executed | EngineTeardown.AsWrittenLeaksEngines | EngineTeardown.CorrectedOwnsOneEngine |

The engines are invisible to the store, the channel log and the flag. So the rest of the model is the same under the corrected definition and under the one as written.
