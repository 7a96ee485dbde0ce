/** The process lifecycle of the gateway: the `shutdown` routine, the
    handlers that run it, and the two callbacks that end the process. */
module Lifecycle {
  import opened Wrappers

  /** Milliseconds before the forced-exit timer fires: 10000, ten seconds. */
  const ForcedExitMs: nat := 10000

  /** What the process does to the outside world, in the order it does it:
      `destroy()` on the room coordinator, `close()` on the HTTP listener,
      arming the forced-exit timer, and `process.exit(code)`. */
  datatype Effect = Destroy | CloseRequested | TimerArmed(ms: nat) | Exit(code: int)

  /** What can happen to the process: the two signals, an uncaught
      exception, an unhandled promise rejection, the listener's close
      callback and the forced-exit timer's callback. */
  datatype Stimulus =
    | Sigint | Sigterm | UncaughtException | UnhandledRejection
    | ServerClosed | ForcedTimeout
  {
    /** The stimuli whose handler calls `shutdown`. */
    predicate IsTrigger() {
      Sigint? || Sigterm? || UncaughtException?
    }
  }

  /** Everything the model observes of the process: the effects so far, the
      close callbacks and timers registered and not yet fired, and the exit
      code once the process has exited. */
  datatype ProcessState = ProcessState(
    trace: seq<Effect>,
    pendingCloses: nat,
    armedTimers: nat,
    exitCode: Option<int>)

  const Initial: ProcessState := ProcessState([], 0, 0, None)

  /** The effects of one `shutdown` call, in the order it makes them. */
  const ShutdownEffects: seq<Effect> := [Destroy, CloseRequested, TimerArmed(ForcedExitMs)]

  /** One `shutdown` call: there is no guard, so every call makes all three
      effects and registers one more close callback and one more timer. */
  function AfterShutdown(st: ProcessState): (r: ProcessState)
    ensures r.exitCode == st.exitCode
    ensures r.pendingCloses == st.pendingCloses + 1 && r.armedTimers == st.armedTimers + 1
    ensures |r.trace| == |st.trace| + 3 && r.trace[..|st.trace|] == st.trace
    ensures r.trace[|st.trace|] == Destroy
    ensures r.trace[|st.trace| + 1] == CloseRequested
    ensures r.trace[|st.trace| + 2] == TimerArmed(ForcedExitMs)
  {
    ProcessState(st.trace + ShutdownEffects, st.pendingCloses + 1, st.armedTimers + 1, st.exitCode)
  }

  /** The process's reaction to one stimulus. Once it has exited nothing
      more happens; a callback that was never registered cannot fire. From
      a running process, the close callback exits with 0 and the timer with
      1, each only once registered, and no other stimulus exits. */
  function Step(st: ProcessState, s: Stimulus): (r: ProcessState)
    ensures st.exitCode.Some? ==> r == st
    ensures st.exitCode.None? ==>
      (r.exitCode == Some(0) <==> s == ServerClosed && st.pendingCloses > 0)
    ensures st.exitCode.None? ==>
      (r.exitCode == Some(1) <==> s == ForcedTimeout && st.armedTimers > 0)
    ensures st.exitCode.None? ==>
      (r.exitCode.None? <==>
        !(s == ServerClosed && st.pendingCloses > 0) && !(s == ForcedTimeout && st.armedTimers > 0))
    ensures st.exitCode.None? && s.IsTrigger() ==> r == AfterShutdown(st)
    ensures s == UnhandledRejection ==> r == st
    ensures |st.trace| <= |r.trace| && r.trace[..|st.trace|] == st.trace
  {
    if st.exitCode.Some? then st
    else
      match s
      case Sigint => AfterShutdown(st)
      case Sigterm => AfterShutdown(st)
      case UncaughtException => AfterShutdown(st)
      case UnhandledRejection => st
      case ServerClosed =>
        if st.pendingCloses == 0 then st
        else st.(trace := st.trace + [Exit(0)], exitCode := Some(0))
      case ForcedTimeout =>
        if st.armedTimers == 0 then st
        else st.(trace := st.trace + [Exit(1)], exitCode := Some(1))
  }

  /** The state after a sequence of stimuli, one `Step` at a time. Effects
      are never undone, and an exit code, once set, stays. */
  function Run(st: ProcessState, ss: seq<Stimulus>): (r: ProcessState)
    ensures |st.trace| <= |r.trace| && r.trace[..|st.trace|] == st.trace
    ensures st.exitCode.Some? ==> r.exitCode == st.exitCode
    decreases |ss|
  {
    if ss == [] then st else Run(Step(st, ss[0]), ss[1..])
  }

  /** `n` shutdown blocks one after the other. */
  function Blocks(n: nat): (t: seq<Effect>)
    ensures |t| == 3 * n
  {
    if n == 0 then [] else Blocks(n - 1) + ShutdownEffects
  }

  /** How many times `e` occurs in `t`. */
  function Count(t: seq<Effect>, e: Effect): nat {
    if t == [] then 0 else Count(t[..|t| - 1], e) + (if t[|t| - 1] == e then 1 else 0)
  }

  /** How many stimuli in `ss` run `shutdown`. */
  function Triggers(ss: seq<Stimulus>): nat {
    if ss == [] then 0 else (if ss[0].IsTrigger() then 1 else 0) + Triggers(ss[1..])
  }

  /** The shape of every state the process can reach: one complete block per
      `shutdown` call, one close callback and one timer per block, and, once
      the process has exited, a single final `Exit` with code 0 or 1 that
      only a registered callback can have produced. */
  ghost predicate WellFormed(st: ProcessState) {
    && st.pendingCloses == st.armedTimers
    && (st.exitCode.None? ==> st.trace == Blocks(st.pendingCloses))
    && (st.exitCode.Some? ==>
          && st.pendingCloses >= 1
          && (st.exitCode.value == 0 || st.exitCode.value == 1)
          && st.trace == Blocks(st.pendingCloses) + [Exit(st.exitCode.value)])
  }

  lemma InitialWellFormed()
    ensures WellFormed(Initial)
  {
  }

  lemma StepWellFormed(st: ProcessState, s: Stimulus)
    requires WellFormed(st)
    ensures WellFormed(Step(st, s))
  {
  }

  lemma {:induction false} RunWellFormed(st: ProcessState, ss: seq<Stimulus>)
    requires WellFormed(st)
    ensures WellFormed(Run(st, ss))
    decreases |ss|
  {
    if ss != [] {
      StepWellFormed(st, ss[0]);
      RunWellFormed(Step(st, ss[0]), ss[1..]);
    }
  }

  /** Once the process has exited, no stimulus changes anything. */
  lemma {:induction false} ExitIsFinal(st: ProcessState, ss: seq<Stimulus>)
    requires st.exitCode.Some?
    ensures Run(st, ss) == st
    decreases |ss|
  {
    if ss != [] {
      ExitIsFinal(Step(st, ss[0]), ss[1..]);
    }
  }

  /** Unhandled rejections are only logged: any number of them leaves the
      process exactly as it was. */
  lemma {:induction false} RejectionsChangeNothing(st: ProcessState, ss: seq<Stimulus>)
    requires forall i :: 0 <= i < |ss| ==> ss[i] == UnhandledRejection
    ensures Run(st, ss) == st
    decreases |ss|
  {
    if ss != [] {
      RejectionsChangeNothing(Step(st, ss[0]), ss[1..]);
    }
  }

  /** From a running, well-formed state, stimuli that are not callbacks
      only add one complete shutdown block per trigger. */
  lemma {:induction false} RunWithoutCallbacks(st: ProcessState, ss: seq<Stimulus>)
    requires WellFormed(st) && st.exitCode.None?
    requires forall i :: 0 <= i < |ss| ==> !ss[i].ServerClosed? && !ss[i].ForcedTimeout?
    ensures var n := st.pendingCloses + Triggers(ss);
      Run(st, ss) == ProcessState(Blocks(n), n, n, None)
    decreases |ss|
  {
    if ss != [] {
      var next := Step(st, ss[0]);
      var k := if ss[0].IsTrigger() then 1 else 0;
      assert next == if ss[0].IsTrigger() then AfterShutdown(st) else st;
      assert next == ProcessState(Blocks(st.pendingCloses + k), st.pendingCloses + k,
                                  st.pendingCloses + k, None);
      assert Triggers(ss) == k + Triggers(ss[1..]);
      RunWithoutCallbacks(next, ss[1..]);
    }
  }

  lemma {:induction false} CountAppend(a: seq<Effect>, b: seq<Effect>, e: Effect)
    ensures Count(a + b, e) == Count(a, e) + Count(b, e)
    decreases |b|
  {
    if b == [] {
      assert a + b == a;
    } else {
      assert (a + b)[..|a + b| - 1] == a + b[..|b| - 1];
      CountAppend(a, b[..|b| - 1], e);
    }
  }

  lemma {:induction false} BlocksCount(n: nat)
    ensures Count(Blocks(n), Destroy) == n
    ensures Count(Blocks(n), CloseRequested) == n
    ensures Count(Blocks(n), TimerArmed(ForcedExitMs)) == n
  {
    if n > 0 {
      BlocksCount(n - 1);
      CountAppend(Blocks(n - 1), ShutdownEffects, Destroy);
      CountAppend(Blocks(n - 1), ShutdownEffects, CloseRequested);
      CountAppend(Blocks(n - 1), ShutdownEffects, TimerArmed(ForcedExitMs));
      ShutdownEffectsCount();
    }
  }

  lemma ShutdownEffectsCount()
    ensures Count(ShutdownEffects, Destroy) == 1
    ensures Count(ShutdownEffects, CloseRequested) == 1
    ensures Count(ShutdownEffects, TimerArmed(ForcedExitMs)) == 1
  {
    var one: seq<Effect> := [Destroy];
    var two: seq<Effect> := [Destroy, CloseRequested];
    assert one[..0] == [];
    assert two[..1] == one;
    assert ShutdownEffects[..2] == two;
    forall e: Effect
      ensures Count(ShutdownEffects, e) == Count(two, e) + (if e == TimerArmed(ForcedExitMs) then 1 else 0)
      ensures Count(two, e) == Count(one, e) + (if e == CloseRequested then 1 else 0)
      ensures Count(one, e) == (if e == Destroy then 1 else 0)
    {
    }
  }

  /** No idempotency guard: from a fresh process, `n` signals or uncaught
      exceptions before any callback fires mean `n` calls to `destroy()`,
      `n` close requests and `n` armed timers. */
  lemma TriggersRepeatShutdown(ss: seq<Stimulus>)
    requires forall i :: 0 <= i < |ss| ==> !ss[i].ServerClosed? && !ss[i].ForcedTimeout?
    ensures Count(Run(Initial, ss).trace, Destroy) == Triggers(ss)
    ensures Count(Run(Initial, ss).trace, CloseRequested) == Triggers(ss)
    ensures Count(Run(Initial, ss).trace, TimerArmed(ForcedExitMs)) == Triggers(ss)
    ensures Run(Initial, ss).exitCode.None?
  {
    InitialWellFormed();
    RunWithoutCallbacks(Initial, ss);
    var n := Triggers(ss);
    var final := Run(Initial, ss);
    assert final.trace == Blocks(n) && final.exitCode.None?;
    BlocksCount(n);
  }

  lemma {:induction false} BlocksAt(n: nat, i: nat)
    requires i < 3 * n
    ensures Blocks(n)[i] == ShutdownEffects[i % 3]
  {
    if i < 3 * (n - 1) {
      BlocksAt(n - 1, i);
    }
  }

  /** In every reachable state, each `destroy()` is immediately followed by
      the close request and the 10000 ms timer of the same `shutdown` call,
      and an `Exit` can only be the last effect. */
  lemma ShutdownOrder(st: ProcessState)
    requires WellFormed(st)
    ensures forall i :: 0 <= i < |st.trace| && st.trace[i] == Destroy ==>
      i + 2 < |st.trace| && st.trace[i + 1] == CloseRequested
      && st.trace[i + 2] == TimerArmed(ForcedExitMs)
    ensures forall i :: 0 <= i < |st.trace| && st.trace[i].Exit? ==>
      i == |st.trace| - 1 && st.exitCode == Some(st.trace[i].code)
  {
    var n := st.pendingCloses;
    forall i | 0 <= i < |st.trace| && st.trace[i] == Destroy
      ensures i + 2 < |st.trace| && st.trace[i + 1] == CloseRequested
      ensures st.trace[i + 2] == TimerArmed(ForcedExitMs)
    {
      assert i < 3 * n;
      BlocksAt(n, i);
      assert i % 3 == 0;
      BlocksAt(n, i + 1);
      BlocksAt(n, i + 2);
    }
    forall i | 0 <= i < |st.trace| && st.trace[i].Exit?
      ensures i == |st.trace| - 1 && st.exitCode == Some(st.trace[i].code)
    {
      if i < 3 * n {
        BlocksAt(n, i);
      }
    }
  }

  /** The process-wide state the handlers registered on `process` act on. */
  class Process {
    var trace: seq<Effect>
    var pendingCloses: nat
    var armedTimers: nat
    var exitCode: Option<int>

    function State(): ProcessState
      reads this
    {
      ProcessState(trace, pendingCloses, armedTimers, exitCode)
    }

    predicate Running()
      reads this
    {
      exitCode.None?
    }

    constructor ()
      ensures State() == Initial
    {
      trace := [];
      pendingCloses := 0;
      armedTimers := 0;
      exitCode := None;
    }

    /** `shutdown`: `destroy()` on the room coordinator, then `close()` on
        the listener with a callback that exits with 0, then a 10000 ms
        timer that exits with 1. */
    method Shutdown()
      modifies this
      ensures State() == AfterShutdown(old(State()))
      ensures trace == old(trace) + [Destroy, CloseRequested, TimerArmed(ForcedExitMs)]
    {
      trace := trace + [Destroy];
      trace := trace + [CloseRequested];
      pendingCloses := pendingCloses + 1;
      trace := trace + [TimerArmed(ForcedExitMs)];
      armedTimers := armedTimers + 1;
    }

    method OnSigint()
      requires Running()
      modifies this
      ensures State() == Step(old(State()), Sigint)
    {
      Shutdown();
    }

    method OnSigterm()
      requires Running()
      modifies this
      ensures State() == Step(old(State()), Sigterm)
    {
      Shutdown();
    }

    method OnUncaughtException()
      requires Running()
      modifies this
      ensures State() == Step(old(State()), UncaughtException)
    {
      Shutdown();
    }

    /** Only logs; nothing the model observes changes. */
    method OnUnhandledRejection()
      requires Running()
      modifies this
      ensures State() == old(State())
      ensures State() == Step(old(State()), UnhandledRejection)
    {
    }

    /** The listener's close callback: `process.exit(0)`. */
    method OnServerClosed()
      requires Running() && pendingCloses > 0
      modifies this
      ensures State() == Step(old(State()), ServerClosed)
      ensures exitCode == Some(0)
    {
      trace := trace + [Exit(0)];
      exitCode := Some(0);
    }

    /** The forced-exit timer's callback: `process.exit(1)`. */
    method OnForcedTimeout()
      requires Running() && armedTimers > 0
      modifies this
      ensures State() == Step(old(State()), ForcedTimeout)
      ensures exitCode == Some(1)
    {
      trace := trace + [Exit(1)];
      exitCode := Some(1);
    }
  }
}
