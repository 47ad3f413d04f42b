/** Every run of the protocol ends, and none is stuck while QEMU does not run. */
module LifecycleProgress {
  import opened Sequences
  import opened Signals
  import opened Lifecycle
  import opened LifecycleProofs

  // ----- Termination -----

  /** No run takes more steps than its first state allows: there is no endless run. */
  lemma {:induction false} RunsAreBounded(c: Config, s: State, steps: seq<Step>)
    requires Inv(c, s) && Exec(c, s, steps).Some?
    ensures |steps| + Measure(Exec(c, s, steps).value) <= Measure(s)
    decreases |steps|
  {
    if steps != [] {
      StepKeeps(c, s, steps[0]);
      RunsAreBounded(c, Apply(c, s, steps[0]).value, steps[1..]);
    }
  }

  // ----- Progress -----

  /** Run waits for QEMU, which still runs. */
  predicate AwaitsQemu(s: State) {
    s.run.Waiting? && s.qemu.Running?
  }

  /** A step that the program itself can take next, once it does not wait for a running QEMU. */
  function NextStep(c: Config, s: State): Step {
    match s.run
    case Idle => Spawn
    case Launched => Attach
    case Waiting => NextWaiting(c, s)
    case Reaping => Reap
    case Explicit(_, _) => CleanExplicit
    case Sweep(_, _) => CleanSwept
    case Stopping(_, _) => StopStep
    case Sending(_) => SendDone
    case Returned(_) => NextOfMain(s.main)
    case _ => Advance
  }

  function NextOfMain(main: MainPC): Step {
    match main
    case Select => TakeDone
    case Cancelling => Cancel
    case Awaiting => AwaitDone
    case _ => Join
  }

  function NextWaiting(c: Config, s: State): Step {
    if c.mode.Build? then
      if s.waiter.InWait? then WaiterReaps else if s.waiter.Delivering? then WaiterDelivers else TakeExit
    else if c.mode.Tagged? then
      if s.out.reader.Reading? then NextReading(true, s.out)
      else if s.err.reader.Reading? then NextReading(false, s.err) else ReadersDone
    else Reap
  }

  function NextReading(first: bool, st: Stream): Step {
    if st.buffered > 0 then ReaderReads(first, st.buffered) else ReaderEnds(first)
  }

  lemma WaitingMovesOn(c: Config, s: State)
    requires Inv(c, s) && !s.main.Finished? && s.run.Waiting? && !AwaitsQemu(s)
    ensures !IsWorld(NextStep(c, s)) && Apply(c, s, NextStep(c, s)).Some?
  {
  }

  lemma LeavingMovesOn(c: Config, s: State)
    requires Inv(c, s) && !s.main.Finished? && Leaving(s.run)
    ensures !IsWorld(NextStep(c, s)) && Apply(c, s, NextStep(c, s)).Some?
  {
    if s.run.Stopping? {
      StopCommandOnlyMoves(c, s);
    }
  }

  lemma StartingMovesOn(c: Config, s: State)
    requires Inv(c, s) && !s.main.Finished? && !Leaving(s.run) && !s.run.Waiting?
    ensures !IsWorld(NextStep(c, s)) && Apply(c, s, NextStep(c, s)).Some?
  {
  }

  /** No deadlock: the program can take a step in every reachable state, except that it may have to
      wait for a running QEMU. */
  lemma NoDeadlock(c: Config, start: State, steps: seq<Step>, s: State)
    requires Reaches(c, start, steps, s)
    requires forall step :: !IsWorld(step) ==> Apply(c, s, step).None?
    ensures s.main.Finished? || AwaitsQemu(s)
  {
    ReachedInv(c, start, steps, s);
    if !s.main.Finished? && !AwaitsQemu(s) {
      MovesOn(c, s);
    }
  }

  lemma MovesOn(c: Config, s: State)
    requires Inv(c, s) && !s.main.Finished? && !AwaitsQemu(s)
    ensures !IsWorld(NextStep(c, s)) && Apply(c, s, NextStep(c, s)).Some?
  {
    if s.run.Waiting? {
      WaitingMovesOn(c, s);
    } else if Leaving(s.run) {
      LeavingMovesOn(c, s);
    } else {
      StartingMovesOn(c, s);
    }
  }

  /** Once main was cancelled, no state waits for QEMU unless QEMU was already sent KILL. */
  lemma CancelReachesQemu(c: Config, start: State, steps: seq<Step>, s: State)
    requires Reaches(c, start, steps, s) && s.cancelled && !s.main.Finished?
    requires forall step :: !IsWorld(step) ==> Apply(c, s, step).None?
    ensures KILL in s.qemuSignals && !c.mode.Build?
  {
    NoDeadlock(c, start, steps, s);
    ReachedInv(c, start, steps, s);
    assert Apply(c, s, Watchdog).None?;
    assert Apply(c, s, TakeCancel).None?;
  }

  /** From every reachable state main can finish, with no help from outside but that QEMU stops. */
  lemma {:induction false} CanFinish(c: Config, s: State) returns (steps: seq<Step>)
    requires Inv(c, s)
    ensures Exec(c, s, steps).Some? && Exec(c, s, steps).value.main.Finished?
    ensures forall step :: step in steps && IsWorld(step) ==> step == QemuStops(false)
    decreases Measure(s)
  {
    if s.main.Finished? {
      steps := [];
    } else {
      var step := if AwaitsQemu(s) then QemuStops(false) else NextStep(c, s);
      if !AwaitsQemu(s) {
        MovesOn(c, s);
      }
      var next := Apply(c, s, step).value;
      StepKeeps(c, s, step);
      var rest := CanFinish(c, next);
      steps := [step] + rest;
      assert steps[1..] == rest;
    }
  }

  /** Nothing in the program holds the world back: signals come whenever main listens, the timer of a build
      rings whenever it is awaited, and a running QEMU can write what is left and stop at any time, though
      not successfully once it was killed. */
  lemma WorldIsFree(c: Config, s: State, first: bool, n: nat)
    requires !s.main.Finished?
    ensures s.signalsLeft > 0 && !s.main.Start? && !c.Sync() ==> Apply(c, s, SignalArrives).Some?
    ensures c.mode.Build? && s.run.Waiting? && !s.timer ==> Apply(c, s, TimerRings).Some?
    ensures s.qemu.Running? ==> Apply(c, s, QemuStops(false)).Some?
    ensures s.qemu.Running? && KILL !in s.qemuSignals ==> Apply(c, s, QemuStops(true)).Some?
    ensures s.qemu.Running? && c.Piped() && 0 < n <= Pick(s, first).toWrite ==> Apply(c, s, QemuWrites(first, n)).Some?
  {
  }

  /** Run can fail wherever the code returns an error before QEMU runs, and is then on its way out. */
  lemma RunCanFail(c: Config, s: State)
    requires !s.main.Finished? && (s.run.Checking? || s.run.Preparing? || s.run.Wiring?)
    ensures var s' := Apply(c, s, Fail); s'.Some? && Leaves(s'.value.run, Failure)
  {
  }
}
