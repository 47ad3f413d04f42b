/** What every run of the protocol guarantees. */
module LifecycleSafety {
  import opened Sequences
  import opened Signals
  import opened Lifecycle
  import opened LifecycleProofs

  /** main finishes only after Run has returned. The exit code is that of Run's outcome, except that a
      run ended by a signal exits with code zero whatever Run returned. */
  lemma MainFinishesAfterRun(c: Config, start: State, steps: seq<Step>, s: State)
    requires Reaches(c, start, steps, s) && s.main.Finished?
    ensures s.run.Returned? && s.done.None?
    ensures s.main.code == if s.main.signalled || s.run.o.Success? then 0 else 1
  {
    ReachedInv(c, start, steps, s);
  }

  /** A goroutine that has a result can always send it at once. */
  lemma SendersNeverBlock(c: Config, start: State, steps: seq<Step>, s: State)
    requires Reaches(c, start, steps, s)
    ensures s.run.Sending? ==> RunSends(s).Some?
    ensures s.waiter.Delivering? ==> WaiterDeliver(s).Some?
  {
    ReachedInv(c, start, steps, s);
  }

  // ----- The TPM emulator -----

  lemma {:induction false} SwtpmStays(c: Config, s: State, steps: seq<Step>)
    requires Inv(c, s) && s.tpm.Swtpm? && Exec(c, s, steps).Some?
    ensures Exec(c, s, steps).value.tpm.Swtpm?
    decreases |steps|
  {
    if steps != [] {
      StepKeeps(c, s, steps[0]);
      SwtpmStays(c, Apply(c, s, steps[0]).value, steps[1..]);
    }
  }

  /** At no point has the process named in the pid file got more than one TERM and then one KILL. */
  lemma NeverMoreThanTermThenKill(c: Config, start: State, steps: seq<Step>, s: State)
    requires Reaches(c, start, steps, s) && s.tpm.Swtpm?
    ensures s.tpm.signals <= [TERM, KILL]
  {
    ReachedInv(c, start, steps, s);
  }

  /** With cleanup, whichever way a run ends: if the emulator was up at some point, then at the end
      its pid file is gone and it got TERM and KILL once each, in this order. */
  lemma SwtpmIsCleanedOnce(c: Config, start: State, before: seq<Step>, middle: State, after: seq<Step>, s: State)
    requires c.cleanup && Reaches(c, start, before, middle) && middle.tpm.Swtpm?
    requires Exec(c, middle, after) == Some(s) && s.main.Finished?
    ensures s.tpm == Swtpm(false, [TERM, KILL])
  {
    ReachedInv(c, start, before, middle);
    SwtpmStays(c, middle, after);
    ExecKeeps(c, middle, after);
  }

  /** Without cleanup, a started emulator is signalled and its pid file removed exactly on the exits
      that clean up themselves. On all others it is left alone. */
  lemma NoCleanupLeavesSwtpm(c: Config, start: State, steps: seq<Step>, s: State)
    requires !c.cleanup && Reaches(c, start, steps, s) && s.main.Finished? && s.tpm.Swtpm?
    ensures s.run.Returned?
    ensures s.tpm == if SelfCleaning(c, s.run.o, s.qemu) then Swtpm(false, [TERM, KILL]) else Swtpm(true, [])
  {
    ReachedInv(c, start, steps, s);
  }

  // ----- QEMU -----

  /** A registered command was waited for before the deferred cleanup starts, so the cleanup neither
      signals it nor waits for it. */
  lemma CleanupFindsCommandsReaped(c: Config, start: State, steps: seq<Step>, s: State)
    requires Reaches(c, start, steps, s)
    ensures (s.run.Sweep? || s.run.Stopping?) && s.cmdRegistered ==> s.reaped
    ensures s.run.Stopping? ==> StopCommand(c, s).Some? && StopCommand(c, s).value == s.(run := StopCommand(c, s).value.run)
  {
    ReachedInv(c, start, steps, s);
    if s.run.Stopping? {
      StopCommandOnlyMoves(c, s);
    }
  }

  /** Once main has finished, a run mode has reaped the QEMU it started. Build mode has too when it
      reports success; when it does not, QEMU was at least told to terminate. */
  lemma QemuAtTheEnd(c: Config, start: State, steps: seq<Step>, s: State)
    requires Reaches(c, start, steps, s) && s.main.Finished? && !s.qemu.NotStarted?
    ensures !c.mode.Build? || Leaves(s.run, Success) ==> s.reaped && s.qemu.Exited?
    ensures c.mode.Build? && !s.reaped ==> TERM in s.qemuSignals
  {
    ReachedInv(c, start, steps, s);
  }

  /** The exit code of a run that no signal ended. Build mode succeeds only if QEMU exited with status
      zero and was reaped; the direct modes exactly then; tagged mode exactly if QEMU was started,
      whatever its status. */
  lemma ExitCodeMeaning(c: Config, start: State, steps: seq<Step>, s: State)
    requires Reaches(c, start, steps, s) && s.main.Finished? && !s.main.signalled
    ensures c.mode.Build? && s.main.code == 0 ==> s.reaped && s.qemu == Exited(true)
    ensures !c.Piped() ==> (s.main.code == 0 <==> s.qemu == Exited(true))
    ensures c.mode.Tagged? ==> (s.main.code == 0 <==> !s.qemu.NotStarted?)
  {
    ReachedInv(c, start, steps, s);
  }

  // ----- The output of QEMU -----

  /** Every byte of an output stream is still to be written, in the pipe, shown, or lost. */
  lemma {:induction false} BytesAreConserved(c: Config, s: State, steps: seq<Step>)
    requires Inv(c, s) && Exec(c, s, steps).Some?
    ensures var s' := Exec(c, s, steps).value; Total(s'.out) == Total(s.out) && Total(s'.err) == Total(s.err)
    decreases |steps|
  {
    if steps != [] {
      StepKeeps(c, s, steps[0]);
      BytesAreConserved(c, Apply(c, s, steps[0]).value, steps[1..]);
    }
  }

  /** Nothing is shown before a reader is attached, and in the modes without pipes nothing goes through one. */
  lemma ReadersShow(c: Config, start: State, steps: seq<Step>, s: State, first: bool)
    requires Reaches(c, start, steps, s)
    ensures Pick(s, first).reader.Unattached? ==> Pick(s, first).shown == 0
    ensures !c.Piped() ==> Fresh(Pick(s, first))
  {
    ReachedInv(c, start, steps, s);
  }

  /** Tagged mode has shown every byte that QEMU wrote by the time main finishes. */
  lemma TaggedShowsEverything(c: Config, start: State, steps: seq<Step>, s: State)
    requires c.mode.Tagged? && Reaches(c, start, steps, s) && s.main.Finished?
    ensures s.out.shown == start.out.toWrite - s.out.toWrite
    ensures s.err.shown == start.err.toWrite - s.err.toWrite
  {
    ReachedInv(c, start, steps, s);
    InitInv(c, start);
    BytesAreConserved(c, start, steps);
  }
}
