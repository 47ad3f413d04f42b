/** Where the protocol falls short, and in exactly which modes it does. */
module LifecycleLimits {
  import opened Sequences
  import opened Signals
  import opened Lifecycle
  import opened LifecycleProofs
  import opened LifecycleProgress
  import opened LifecycleSafety

  ghost predicate Reachable(c: Config, s: State) {
    exists start, steps :: Reaches(c, start, steps, s)
  }

  lemma ReachableInv(c: Config, s: State)
    requires Reachable(c, s)
    ensures Inv(c, s)
  {
    var start, steps :| Reaches(c, start, steps, s);
    ReachedInv(c, start, steps, s);
  }

  lemma {:induction false} ExecAppend(c: Config, s: State, steps: seq<Step>, step: Step)
    requires Exec(c, s, steps).Some?
    ensures Exec(c, s, steps + [step]) == Apply(c, Exec(c, s, steps).value, step)
    decreases |steps|
  {
    if steps == [] {
      assert [step][1..] == [];
    } else {
      assert (steps + [step])[1..] == steps[1..] + [step];
      ExecAppend(c, Apply(c, s, steps[0]).value, steps[1..], step);
    }
  }

  lemma Then(c: Config, s: State, step: Step) returns (next: State)
    requires Reachable(c, s) && Apply(c, s, step).Some?
    ensures next == Apply(c, s, step).value && Reachable(c, next)
  {
    var start, steps :| Reaches(c, start, steps, s);
    ExecAppend(c, start, steps, step);
    next := Apply(c, s, step).value;
    assert Reaches(c, start, steps + [step], next);
  }

  /** Run was started, QEMU is going to write `bytes` on its standard output, and at most one signal comes. */
  lemma Started(c: Config, bytes: nat) returns (s: State)
    ensures Reachable(c, s) && s.run.Checking? && s.main == (if c.Sync() then Joining else Select)
    ensures Fresh(s.out) && Fresh(s.err) && s.out.toWrite == bytes && s.signalsLeft == 1 && !s.signal && s.done.None?
    ensures s.qemu.NotStarted? && s.qemuSignals == [] && !s.cancelled && !s.timer && s.exit.None? && !s.pipesClosed
  {
    var silent := Stream(0, 0, 0, 0, Unattached);
    s := State(Start, Idle, NoWaiter, None, None, false, 1, false, false, NoTpm, false, NotStarted, false, false, [], false,
               silent.(toWrite := bytes), silent);
    assert Reaches(c, s, [], s);
    s := Then(c, s, Spawn);
  }

  /** Run is about to start QEMU. */
  lemma Wired(c: Config, bytes: nat) returns (s: State)
    ensures Reachable(c, s) && s.run.Wiring? && s.main == (if c.Sync() then Joining else Select)
    ensures Fresh(s.out) && Fresh(s.err) && s.out.toWrite == bytes && s.done.None?
    ensures s.qemu.NotStarted? && s.qemuSignals == [] && !s.cancelled && !s.timer && s.exit.None? && !s.pipesClosed
  {
    s := Started(c, bytes);
    s := Then(c, s, Advance);
    s := Then(c, s, Advance);
    s := Then(c, s, Advance);
  }

  /** Run waits for a QEMU that it started. */
  lemma Launching(c: Config, bytes: nat) returns (s: State)
    ensures Reachable(c, s) && AwaitsQemu(s) && s.main == (if c.Sync() then Joining else Select)
    ensures s.out.toWrite == bytes && s.out.buffered == 0 && s.out.lost == 0 && s.err.buffered == 0
    ensures c.Piped() ==> s.out.reader.Reading? && s.err.reader.Reading?
    ensures s.qemuSignals == [] && !s.timer && s.exit.None? && !s.pipesClosed
    ensures c.mode.Build? ==> s.waiter.InWait?
  {
    s := Wired(c, bytes);
    s := Then(c, s, Advance);
    s := Then(c, s, Attach);
  }

  lemma LeavingStep(c: Config, s: State)
    requires Inv(c, s) && Leaving(s.run) && !s.run.Returned? && !s.main.Finished?
    ensures Apply(c, s, NextStep(c, s)).Some?
    ensures var next := Apply(c, s, NextStep(c, s)).value;
      (Leaves(next.run, s.run.o) && next.qemu == s.qemu && next.out == s.out && next.main == s.main)
  {
    LeavingMovesOn(c, s);
    if s.run.Stopping? {
      StopCommandOnlyMoves(c, s);
    }
  }

  lemma LastStep(c: Config, s: State)
    requires Inv(c, s) && s.run.Returned? && !s.main.Finished?
    ensures Apply(c, s, NextStep(c, s)).Some?
    ensures var next := Apply(c, s, NextStep(c, s)).value;
      (&& next.run == s.run && next.qemu == s.qemu && next.out == s.out
       && (next.main.Finished? ==> next.main.signalled == s.main.Awaiting?)
       && (!next.main.Finished? ==> s.main.Cancelling? && next.main.Awaiting?))
  {
    LeavingMovesOn(c, s);
  }

  /** Once Run is on its way out, main can finish without anything happening to QEMU. */
  lemma {:induction false} Finish(c: Config, s: State) returns (last: State)
    requires Reachable(c, s) && Leaving(s.run) && !s.main.Finished?
    ensures Reachable(c, last) && last.main.Finished? && last.run.Returned?
    ensures last.run.o == s.run.o && last.qemu == s.qemu && last.out == s.out
    ensures last.main.signalled == (s.main.Awaiting? || s.main.Cancelling?)
    decreases Measure(s)
  {
    ReachableInv(c, s);
    if s.run.Returned? {
      LastStep(c, s);
    } else {
      LeavingStep(c, s);
    }
    StepKeeps(c, s, NextStep(c, s));
    last := Then(c, s, NextStep(c, s));
    if last.main.Finished? {
      ReachableInv(c, last);
    } else {
      last := Finish(c, last);
    }
  }

  // ----- Build mode leaves QEMU running -----

  lemma BuildLeavesQemuRunning(c: Config) returns (s: State)
    requires c.mode.Build?
    ensures Reachable(c, s) && s.main.Finished? && s.qemu.Running?
  {
    s := Launching(c, 0);
    s := Then(c, s, TimerRings);
    s := Then(c, s, TakeTimeout);
    s := Finish(c, s);
  }

  /** main can finish while QEMU still runs in build mode, and in no other. */
  lemma QemuCanOutliveMain(c: Config)
    ensures (exists s :: Reachable(c, s) && s.main.Finished? && s.qemu.Running?) <==> c.mode.Build?
  {
    if c.mode.Build? {
      var s := BuildLeavesQemuRunning(c);
    }
    forall s | Reachable(c, s) && s.main.Finished? && s.qemu.Running? ensures c.mode.Build? {
      var start, steps :| Reaches(c, start, steps, s);
      QemuAtTheEnd(c, start, steps, s);
    }
  }

  // ----- Build mode loses output -----

  /** QEMU wrote a byte that nobody has read yet. */
  lemma Written(c: Config) returns (s: State)
    requires c.mode.Build?
    ensures Reachable(c, s) && AwaitsQemu(s) && s.main.Select? && s.out.buffered == 1
    ensures s.qemuSignals == [] && s.waiter.InWait? && s.exit.None?
  {
    s := Launching(c, 1);
    s := Then(c, s, QemuWrites(true, 1));
  }

  /** QEMU has exited as well. */
  lemma WrittenAndGone(c: Config) returns (s: State)
    requires c.mode.Build?
    ensures Reachable(c, s) && s.run.Waiting? && s.main.Select? && s.qemu == Exited(true) && s.out.buffered == 1
    ensures s.waiter.InWait? && s.exit.None?
  {
    s := Written(c);
    s := Then(c, s, QemuStops(true));
  }

  lemma BuildLosesOutput(c: Config) returns (s: State)
    requires c.mode.Build?
    ensures Reachable(c, s) && s.main.Finished? && s.out.lost > 0
  {
    s := WrittenAndGone(c);
    s := Then(c, s, WaiterReaps);
    s := Then(c, s, WaiterDelivers);
    s := Then(c, s, TakeExit);
    s := Finish(c, s);
  }

  /** Output that QEMU wrote on either stream can be lost in build mode, which waits for QEMU and not for the readers,
      and in no other. */
  lemma OutputCanBeLost(c: Config)
    ensures (exists s :: Reachable(c, s) && s.main.Finished? && s.out.lost + s.err.lost > 0) <==> c.mode.Build?
  {
    if c.mode.Build? {
      var s := BuildLosesOutput(c);
    }
    forall s | Reachable(c, s) && s.main.Finished? && s.out.lost + s.err.lost > 0 ensures c.mode.Build? {
      ReachableInv(c, s);
    }
  }

  // ----- Exit codes -----

  /** QEMU failed, and nobody has looked yet. */
  lemma Failed(c: Config) returns (s: State)
    requires c.mode.Tagged?
    ensures Reachable(c, s) && s.run.Waiting? && s.main.Select? && s.qemu == Exited(false)
    ensures s.out.reader.Reading? && s.err.reader.Reading? && s.out.buffered == 0 && s.err.buffered == 0
  {
    s := Launching(c, 0);
    s := Then(c, s, QemuStops(false));
  }

  /** Both readers have come to the end as well. */
  lemma FailedAndRead(c: Config) returns (s: State)
    requires c.mode.Tagged?
    ensures Reachable(c, s) && s.run.Waiting? && s.main.Select? && s.qemu == Exited(false)
    ensures s.out.reader.Ended? && s.err.reader.Ended?
  {
    s := Failed(c);
    s := Then(c, s, ReaderEnds(true));
    s := Then(c, s, ReaderEnds(false));
  }

  lemma TaggedIgnoresStatus(c: Config) returns (s: State)
    requires c.mode.Tagged?
    ensures Reachable(c, s) && s.main.Finished? && !s.main.signalled && s.main.code == 0 && s.qemu == Exited(false)
  {
    s := FailedAndRead(c);
    s := Then(c, s, ReadersDone);
    s := Then(c, s, Reap);
    s := Finish(c, s);
    ReachableInv(c, s);
  }

  /** With no signal, success can be reported for a QEMU that failed in tagged mode, and in no other. */
  lemma FailureCanPassForSuccess(c: Config)
    ensures (exists s :: Reachable(c, s) && s.main.Finished? && !s.main.signalled && s.main.code == 0 && s.qemu == Exited(false))
      <==> c.mode.Tagged?
  {
    if c.mode.Tagged? {
      var s := TaggedIgnoresStatus(c);
    }
    forall s | Reachable(c, s) && s.main.Finished? && !s.main.signalled && s.main.code == 0 && s.qemu == Exited(false)
      ensures c.mode.Tagged?
    {
      var start, steps :| Reaches(c, start, steps, s);
      ExitCodeMeaning(c, start, steps, s);
    }
  }

  lemma SignalHidesFailure(c: Config) returns (s: State)
    requires !c.Sync()
    ensures Reachable(c, s) && s.main.Finished? && s.main.code == 0 && Leaves(s.run, Failure)
  {
    s := Started(c, 0);
    s := Then(c, s, SignalArrives);
    s := Then(c, s, TakeSignal);
    s := Then(c, s, Fail);
    s := Finish(c, s);
    ReachableInv(c, s);
  }

  /** A signal can make a failed Run exit with code zero exactly where main waits for signals. */
  lemma SignalCanHideFailure(c: Config)
    ensures (exists s :: Reachable(c, s) && s.main.Finished? && s.main.code == 0 && Leaves(s.run, Failure)) <==> !c.Sync()
  {
    if !c.Sync() {
      var s := SignalHidesFailure(c);
    }
    forall s | Reachable(c, s) && s.main.Finished? && s.main.code == 0 && Leaves(s.run, Failure) ensures !c.Sync() {
      ReachableInv(c, s);
    }
  }
}
