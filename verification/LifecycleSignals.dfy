/** Who signals QEMU, and why: in every run, only a cancellation or the build timer. */
module LifecycleSignals {
  import opened Sequences
  import opened Signals
  import opened Lifecycle
  import opened LifecycleProofs

  /** A cancellation comes from a signal to main, of which there were `budget`. */
  ghost predicate CancelInv(c: Config, s: State, budget: nat) {
    && s.signalsLeft + (if s.signal then 1 else 0) + (if TookSignal(s.main) then 1 else 0) <= budget
    && (s.signalsLeft < budget ==> !c.Sync() && (s.signal || TookSignal(s.main)))
    && (s.main.Finished? ==> (s.main.signalled <==> s.cancelled))
    && (s.cancelled ==> TookSignal(s.main))
    && (s.main.Start? ==> s.signalsLeft == budget)
  }

  /** main has taken a signal from its channel. */
  predicate TookSignal(main: MainPC) {
    main.Cancelling? || main.Awaiting? || (main.Finished? && main.signalled)
  }

  /** QEMU was signalled for a reason, and at most once for each; and what was killed has not succeeded. */
  ghost predicate SignalInv(c: Config, s: State) {
    && (s.timer ==> c.mode.Build? && !s.qemu.NotStarted?)
    && (KILL in s.qemuSignals ==> s.cancelled)
    && (TERM in s.qemuSignals ==> c.mode.Build? && Leaves(s.run, Failure) && (s.cancelled || s.timer))
    && (s.qemu == Exited(true) ==> KILL !in s.qemuSignals)
    && AtMostOnce(s.qemuSignals)
  }

  predicate AtMostOnce(signals: seq<Signal>) {
    || |signals| <= 1
    || (|signals| == 2 && signals[0] != signals[1])
  }

  ghost predicate Quiet(c: Config, s: State, budget: nat) {
    CancelInv(c, s, budget) && SignalInv(c, s)
  }

  lemma MainStepIsQuiet(c: Config, s: State, step: Step, budget: nat)
    requires Inv(c, s) && Quiet(c, s, budget) && IsMainStep(step) && Apply(c, s, step).Some?
    ensures Quiet(c, Apply(c, s, step).value, budget)
  {
  }

  /** The pid file is not that of QEMU. */
  lemma CleaningIsQuiet(c: Config, s: State, step: Step, budget: nat)
    requires Inv(c, s) && Quiet(c, s, budget) && Apply(c, s, step).Some?
    requires step.CleanExplicit? || step.CleanSwept?
    ensures Quiet(c, Apply(c, s, step).value, budget)
  {
  }

  /** A registered command was reaped before, so CleanupAll signals none. */
  lemma StoppingIsQuiet(c: Config, s: State, step: Step, budget: nat)
    requires Inv(c, s) && Quiet(c, s, budget) && Apply(c, s, step).Some?
    requires step.StopStep?
    ensures Quiet(c, Apply(c, s, step).value, budget)
  {
  }

  lemma WaitingEnds(c: Config, s: State, step: Step, budget: nat)
    requires Inv(c, s) && Quiet(c, s, budget) && Apply(c, s, step).Some?
    requires step.TakeExit? || step.ReadersDone? || step.Reap?
    ensures Quiet(c, Apply(c, s, step).value, budget)
  {
  }

  /** The two steps of build mode that tell QEMU to terminate. */
  lemma DisturbedBuild(c: Config, s: State, step: Step, budget: nat)
    requires Inv(c, s) && Quiet(c, s, budget) && Apply(c, s, step).Some?
    requires step.TakeTimeout? || step.TakeCancel?
    ensures Quiet(c, Apply(c, s, step).value, budget)
  {
  }

  lemma RunFailing(c: Config, s: State, step: Step, budget: nat)
    requires Inv(c, s) && Quiet(c, s, budget) && Apply(c, s, step).Some?
    requires step.Fail?
    ensures Quiet(c, Apply(c, s, step).value, budget)
  {
  }

  lemma RunAdvancing(c: Config, s: State, step: Step, budget: nat)
    requires Inv(c, s) && Quiet(c, s, budget) && Apply(c, s, step).Some?
    requires step.Advance? || step.Attach? || step.SendDone?
    ensures Quiet(c, Apply(c, s, step).value, budget)
  {
  }

  lemma WatchdogIsQuiet(c: Config, s: State, budget: nat)
    requires Inv(c, s) && Quiet(c, s, budget) && WatchdogKills(s).Some?
    ensures Quiet(c, WatchdogKills(s).value, budget)
  {
  }

  /** The waiter, QEMU and the rest of the world signal nobody. */
  lemma OtherStepIsQuiet(c: Config, s: State, step: Step, budget: nat)
    requires Inv(c, s) && Quiet(c, s, budget) && Apply(c, s, step).Some?
    requires !IsMainStep(step) && !IsRunStep(step) && !step.Watchdog? && !IsOutput(step)
    ensures Quiet(c, Apply(c, s, step).value, budget)
  {
  }

  predicate IsOutput(step: Step) {
    step.ReaderReads? || step.ReaderEnds? || step.QemuWrites?
  }

  lemma OutputIsQuiet(c: Config, s: State, step: Step, first: bool, budget: nat)
    requires Quiet(c, s, budget) && Move(c, s, step, first).Some?
    ensures Quiet(c, Move(c, s, step, first).value, budget)
  {
  }

  lemma RunStepIsQuiet(c: Config, s: State, step: Step, budget: nat)
    requires Inv(c, s) && Quiet(c, s, budget) && IsRunStep(step) && Apply(c, s, step).Some?
    ensures Quiet(c, Apply(c, s, step).value, budget)
  {
    match step
    case CleanExplicit | CleanSwept => CleaningIsQuiet(c, s, step, budget);
    case StopStep => StoppingIsQuiet(c, s, step, budget);
    case TakeExit | ReadersDone | Reap => WaitingEnds(c, s, step, budget);
    case TakeTimeout | TakeCancel => DisturbedBuild(c, s, step, budget);
    case Fail => RunFailing(c, s, step, budget);
    case _ => RunAdvancing(c, s, step, budget);
  }

  lemma StepIsQuiet(c: Config, s: State, step: Step, budget: nat)
    requires Inv(c, s) && Quiet(c, s, budget) && Apply(c, s, step).Some?
    ensures Quiet(c, Apply(c, s, step).value, budget)
  {
    if IsMainStep(step) {
      MainStepIsQuiet(c, s, step, budget);
    } else if IsRunStep(step) {
      RunStepIsQuiet(c, s, step, budget);
    } else if step.Watchdog? {
      WatchdogIsQuiet(c, s, budget);
    } else if IsOutput(step) {
      OutputIsQuiet(c, s, step, step.first, budget);
    } else {
      OtherStepIsQuiet(c, s, step, budget);
    }
  }

  lemma {:induction false} StaysQuiet(c: Config, s: State, steps: seq<Step>, budget: nat)
    requires Inv(c, s) && Quiet(c, s, budget) && Exec(c, s, steps).Some?
    ensures Quiet(c, Exec(c, s, steps).value, budget)
    decreases |steps|
  {
    if steps != [] {
      StepKeeps(c, s, steps[0]);
      StepIsQuiet(c, s, steps[0], budget);
      StaysQuiet(c, Apply(c, s, steps[0]).value, steps[1..], budget);
    }
  }

  /** QEMU is killed only after a cancellation, and told to terminate only in build mode, after a
      cancellation or when the timer rang; each at most once. Undisturbed, it gets no signal at all. */
  lemma QemuIsLeftAlone(c: Config, start: State, steps: seq<Step>, s: State)
    requires Reaches(c, start, steps, s)
    ensures KILL in s.qemuSignals ==> s.cancelled
    ensures TERM in s.qemuSignals ==> c.mode.Build? && (s.cancelled || s.timer)
    ensures !s.cancelled && !s.timer ==> s.qemuSignals == []
    ensures |s.qemuSignals| <= 2 && (|s.qemuSignals| == 2 ==> s.qemuSignals[0] != s.qemuSignals[1])
  {
    InitInv(c, start);
    StaysQuiet(c, start, steps, start.signalsLeft);
    if s.qemuSignals != [] {
      assert s.qemuSignals[0] in s.qemuSignals && (s.qemuSignals[0] == TERM || s.qemuSignals[0] == KILL);
    }
  }

  /** main cancels only after it took a signal of its own, and ends as signalled exactly if it cancelled. A
      signal that came is in the channel until main takes it. A foreground run gets none. */
  lemma CancelNeedsASignal(c: Config, start: State, steps: seq<Step>, s: State)
    requires Reaches(c, start, steps, s)
    ensures s.cancelled ==> s.signalsLeft < start.signalsLeft && !c.Sync()
    ensures s.signalsLeft < start.signalsLeft && !s.signal ==> TookSignal(s.main)
    ensures s.signal && TookSignal(s.main) ==> s.signalsLeft + 2 <= start.signalsLeft
    ensures s.main.Finished? ==> (s.main.signalled <==> s.cancelled)
    ensures s.main.Start? ==> s.signalsLeft == start.signalsLeft
    ensures s.timer ==> c.mode.Build? && !s.qemu.NotStarted?
  {
    InitInv(c, start);
    StaysQuiet(c, start, steps, start.signalsLeft);
  }

  /** A QEMU that was killed does not count as successful. */
  lemma KilledIsNoSuccess(c: Config, start: State, steps: seq<Step>, s: State)
    requires Reaches(c, start, steps, s) && KILL in s.qemuSignals
    ensures s.qemu != Exited(true)
    ensures !c.mode.Tagged? ==> !Leaves(s.run, Success)
  {
    InitInv(c, start);
    StaysQuiet(c, start, steps, start.signalsLeft);
    ReachedInv(c, start, steps, s);
  }

  /** What CleanupAll would do to a command that still runs: TERM, then KILL, and wait until it has stopped. No
      run comes to this, since registered commands are reaped before. */
  lemma CleanupStopsACommand(c: Config, s: State)
    requires s.run.Stopping? && !s.reaped
    ensures var next := StopCommand(c, s);
      && (s.run.stop.Terminate? ==> next.Some? && next.value.qemuSignals == s.qemuSignals + [TERM] && next.value.run == Stopping(Check, s.run.o))
      && (s.run.stop.Check? ==> next.Some? && next.value.qemuSignals == s.qemuSignals + [KILL] && next.value.run == Stopping(Wait, s.run.o))
      && (s.run.stop.Wait? ==> (next.Some? <==> s.qemu.Exited?))
      && (s.run.stop.Wait? && next.Some? ==> next.value.reaped && next.value.run == End(c, s.run.o))
  {
  }
}
