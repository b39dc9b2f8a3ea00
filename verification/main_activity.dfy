/**
 * The foreground controller (`MainActivity.onMethodCall`): it turns method calls from the
 * Flutter UI into service intents, answers the phase query straight from the shared store,
 * and can clear the persisted phase. `Call` composes one controller call with the delivery of
 * the intent it dispatches.
 */
module MainActivity {
  import opened Wrappers
  import Preferences
  import BW = BackgroundWork

  /**
   * A method-call argument as it arrives from the UI. `Int` and `Long` are kept apart because a
   * Kotlin `as Long` cast rejects a boxed `Integer`.
   */
  datatype Value = Null | Int(i: int) | Long(l: int) | Str(str: string) | List(items: seq<Value>)

  datatype MethodCall = MethodCall(name: string, arguments: Value)

  /** `result.success(value)` (`None` for `success(null)`) or `result.notImplemented()`. */
  datatype Reply = Replied(value: Option<string>) | NotImplemented

  /** The exceptions the argument casts and indexing of the "start" branch can throw. */
  datatype CallError =
    | ArgumentsNotList            // `call.arguments as List<Any>` fails
    | MissingArgument(index: nat) // `args[index]` is out of range
    | WrongArgumentType(index: nat) // `args[index] as Long` / `as String` fails

  /** What one call does: the reply, the intent passed to `startService` (if any), the new store. */
  datatype Outcome = Outcome(reply: Reply, dispatch: Option<BW.Intent>, store: Preferences.Store)

  /** The intent for one of the argument-free actions. */
  function ServiceIntent(action: string): (i: BW.Intent)
    ensures BW.ActionOf(Some(i)) == Some(action)
  {
    BW.Intent(Some(action), None, None)
  }

  /** The method names the controller recognises. */
  predicate IsKnownMethod(name: string)
  {
    name in {"start", "stop", "save", "record", "reset_state", "state"}
  }

  /** The "start" branch: cast the arguments, forward `args[0]` as callback and `args[1]` as path. */
  function StartIntent(arguments: Value): (r: Result<BW.Intent, CallError>)
    ensures r.Success? <==>
      && arguments.List? && |arguments.items| >= 2
      && arguments.items[0].Long? && arguments.items[1].Str?
    ensures r.Success? ==>
      r.value == BW.Intent(Some("start"), Some(arguments.items[0].l), Some(arguments.items[1].str))
    ensures !arguments.List? ==> r == Failure(ArgumentsNotList)
    ensures arguments.List? && |arguments.items| == 0 ==> r == Failure(MissingArgument(0))
    ensures arguments.List? && |arguments.items| >= 1 && !arguments.items[0].Long? ==>
      r == Failure(WrongArgumentType(0))
    ensures arguments.List? && |arguments.items| == 1 && arguments.items[0].Long? ==>
      r == Failure(MissingArgument(1))
    ensures arguments.List? && |arguments.items| >= 2 && arguments.items[0].Long? && !arguments.items[1].Str? ==>
      r == Failure(WrongArgumentType(1))
  {
    if !arguments.List? then Failure(ArgumentsNotList)
    else
      var args := arguments.items;
      if |args| < 1 then Failure(MissingArgument(0))
      else if !args[0].Long? then Failure(WrongArgumentType(0))
      else if |args| < 2 then Failure(MissingArgument(1))
      else if !args[1].Str? then Failure(WrongArgumentType(1))
      else Success(BW.Intent(Some("start"), Some(args[0].l), Some(args[1].str)))
  }

  /** `onMethodCall`. */
  function OnMethodCall(store: Preferences.Store, call: MethodCall): (r: Result<Outcome, CallError>)
    ensures r.Failure? ==> call.name == "start"
    ensures r.Failure? ==> StartIntent(call.arguments).Failure? && r.error == StartIntent(call.arguments).error
    ensures r.Success? && r.value.reply == NotImplemented <==> !IsKnownMethod(call.name)
    ensures !IsKnownMethod(call.name) ==> r.value.dispatch.None? && r.value.store == store
    ensures call.name in {"start", "stop", "save", "record", "reset_state"} && r.Success? ==>
      r.value.reply == Replied(None)
    ensures call.name in {"stop", "save", "record"} ==>
      r == Success(Outcome(Replied(None), Some(ServiceIntent(call.name)), store))
    ensures call.name == "start" ==>
      && (r.Success? <==> StartIntent(call.arguments).Success?)
      && (r.Success? ==> r.value == Outcome(Replied(None), Some(StartIntent(call.arguments).value), store))
    ensures call.name == "reset_state" ==>
      && r.Success? && r.value.dispatch.None?
      && r.value.store == Preferences.Remove(store, BW.RecordingStateKey)
    ensures call.name == "state" ==>
      && r.Success? && r.value.dispatch.None? && r.value.store == store
      && (BW.RecordingStateKey in store ==> r.value.reply == Replied(Some(store[BW.RecordingStateKey])))
      && (BW.RecordingStateKey !in store ==> r.value.reply == Replied(Some(BW.PhaseName(BW.Stopped))))
  {
    if call.name == "start" then
      var intent :- StartIntent(call.arguments);
      Success(Outcome(Replied(None), Some(intent), store))
    else if call.name == "stop" || call.name == "save" || call.name == "record" then
      Success(Outcome(Replied(None), Some(ServiceIntent(call.name)), store))
    else if call.name == "reset_state" then
      Success(Outcome(Replied(None), None, Preferences.Remove(store, BW.RecordingStateKey)))
    else if call.name == "state" then
      var state := Preferences.GetString(store, BW.RecordingStateKey, BW.PhaseName(BW.Stopped));
      Success(Outcome(Replied(Some(state)), None, store))
    else
      Success(Outcome(NotImplemented, None, store))
  }

  /**
   * One controller call followed by the delivery of the intent it dispatched, if any. The reply
   * is sent before the service runs, so a failing service action does not change it; `after` is
   * the state once the service has handled the intent, or the exception it threw.
   */
  datatype Exchange = Exchange(reply: Reply, after: Result<BW.State, BW.Error>)

  function Call(s: BW.State, call: MethodCall): (r: Result<Exchange, CallError>)
    ensures r.Failure? <==> OnMethodCall(s.store, call).Failure?
    ensures r.Failure? ==> r.error == OnMethodCall(s.store, call).error
    ensures r.Success? ==> r.value.reply == OnMethodCall(s.store, call).value.reply
    ensures r.Success? && OnMethodCall(s.store, call).value.dispatch.None? ==>
      r.value.after == Success(s.(store := OnMethodCall(s.store, call).value.store))
    ensures r.Success? && OnMethodCall(s.store, call).value.dispatch.Some? ==>
      var h := OnMethodCall(s.store, call).value;
      var t := BW.OnStartCommand(s.(store := h.store), h.dispatch);
      && (r.value.after.Success? <==> t.Success?)
      && (t.Success? ==> r.value.after.value == t.value.state)
      && (t.Failure? ==> r.value.after.error == t.error)
  {
    var handled :- OnMethodCall(s.store, call);
    var s1 := s.(store := handled.store);
    if handled.dispatch.None? then Success(Exchange(handled.reply, Success(s1)))
    else
      match BW.OnStartCommand(s1, handled.dispatch)
      case Success(h) => Success(Exchange(handled.reply, Success(h.state)))
      case Failure(e) => Success(Exchange(handled.reply, Failure(e)))
  }
}
