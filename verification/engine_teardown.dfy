/**
 * Ownership of the background engines across start/stop cycles.
 *
 * `startEngine` creates a `FlutterEngine` into a local variable and never assigns the global
 * `flutterEngine`; `stop` then calls `flutterEngine.destroy()`, which throws on the unassigned
 * `lateinit` and is swallowed. As written, every start leaves one more engine alive. The
 * corrected host assigns the global, so `stop` destroys the engine that `start` created.
 * Neither variant changes the store, the channel log or the `initialized` flag, which is why
 * the service model does not carry engines at all.
 */
module EngineTeardown {

  /** The `initialized` flag, whether `flutterEngine` is assigned, and how many engines are alive. */
  datatype Host = Host(initialized: bool, engineAssigned: bool, liveEngines: nat)

  /** The commands that create or destroy engines; `save` ends in `stop`. */
  datatype Command = Start | Stop

  const Fresh := Host(false, false, 0)

  /** `flutterEngine.destroy()` inside `try { } catch (_: Exception) { }`. */
  function Destroy(h: Host): (r: Host)
    ensures !h.engineAssigned ==> r == h
    ensures h.engineAssigned && h.liveEngines > 0 ==> r == h.(liveEngines := h.liveEngines - 1)
  {
    if h.engineAssigned && h.liveEngines > 0 then h.(liveEngines := h.liveEngines - 1)
    else h
  }

  /** The source as written: the new engine goes into a local, so the global is never assigned. */
  function StepAsWritten(h: Host, c: Command): (r: Host)
    ensures !h.engineAssigned ==> !r.engineAssigned
  {
    match c
    case Start => if h.initialized then h else h.(initialized := true, liveEngines := h.liveEngines + 1)
    case Stop => if !h.initialized then h else Destroy(h.(initialized := false))
  }

  /** The evident intent: `startEngine` also assigns the global `flutterEngine`. */
  function StepCorrected(h: Host, c: Command): (r: Host)
  {
    match c
    case Start =>
      if h.initialized then h
      else h.(initialized := true, engineAssigned := true, liveEngines := h.liveEngines + 1)
    case Stop => if !h.initialized then h else Destroy(h.(initialized := false))
  }

  function RunAsWritten(h: Host, cs: seq<Command>): (r: Host)
    decreases |cs|
  {
    if |cs| == 0 then h else RunAsWritten(StepAsWritten(h, cs[0]), cs[1..])
  }

  function RunCorrected(h: Host, cs: seq<Command>): (r: Host)
    decreases |cs|
  {
    if |cs| == 0 then h else RunCorrected(StepCorrected(h, cs[0]), cs[1..])
  }

  /** `n` start/stop cycles. */
  function Cycles(n: nat): (cs: seq<Command>)
    ensures |cs| == 2 * n
  {
    if n == 0 then [] else [Start, Stop] + Cycles(n - 1)
  }

  /** As written, a stop never destroys anything: each of `n` cycles leaks its engine. */
  lemma {:induction false} AsWrittenLeaksEngines(h: Host, n: nat)
    requires !h.initialized && !h.engineAssigned
    ensures RunAsWritten(h, Cycles(n)) == h.(liveEngines := h.liveEngines + n)
    decreases n
  {
    if n > 0 {
      var cs := Cycles(n);
      assert cs[0] == Start && cs[1..][0] == Stop && cs[1..][1..] == Cycles(n - 1);
      var h2 := StepAsWritten(StepAsWritten(h, Start), Stop);
      assert h2 == h.(liveEngines := h.liveEngines + 1);
      AsWrittenLeaksEngines(h2, n - 1);
    }
  }

  /** A concrete witness: one start/stop cycle from a fresh process leaves one engine alive. */
  lemma OneCycleLeaks()
    ensures RunAsWritten(Fresh, [Start, Stop]).liveEngines == 1
    ensures !RunAsWritten(Fresh, [Start, Stop]).initialized
  {
    AsWrittenLeaksEngines(Fresh, 1);
  }

  /** With the global assigned, exactly one engine is alive while initialized and none otherwise. */
  lemma {:induction false} CorrectedOwnsOneEngine(h: Host, cs: seq<Command>)
    requires h.liveEngines == (if h.initialized then 1 else 0)
    requires h.initialized ==> h.engineAssigned
    ensures RunCorrected(h, cs).liveEngines == (if RunCorrected(h, cs).initialized then 1 else 0)
    decreases |cs|
  {
    if |cs| > 0 {
      CorrectedOwnsOneEngine(StepCorrected(h, cs[0]), cs[1..]);
    }
  }
}
