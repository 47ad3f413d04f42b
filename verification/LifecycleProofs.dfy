/** What holds in every interleaving of the run protocol. */
module LifecycleProofs {
  import opened Sequences
  import opened Signals
  import opened Lifecycle

  // ----- The invariant, one concern at a time -----

  /** main, the done channel and the Run goroutine. */
  ghost predicate MainInv(c: Config, s: State) {
    && (s.main.Start? <==> s.run.Idle?)
    && (c.Sync() ==> (s.main.Start? || s.main.Joining? || s.main.Finished?) && !s.run.Sending? && s.done.None? && !s.cancelled)
    && (!c.Sync() ==> !s.main.Joining?)
    && (s.main.Finished? && s.main.signalled ==> !c.Sync())
    && (s.main.Finished? ==> s.run.Returned? && s.done.None?)
    && (!c.Sync() && s.run.Returned? && !s.main.Finished? ==> s.done == Some(s.run.o))
    && (s.done.Some? ==> s.run.Returned?)
    && (s.cancelled ==> s.main.Awaiting? || s.main.Finished?)
    && (s.main.Awaiting? ==> s.cancelled)
    && (s.main.Finished? ==> s.main.code == if s.main.signalled then 0 else Code(s.run.o))
  }

  /** Run has not reached the TPM emulator. */
  predicate BeforeTpm(run: RunPC) {
    run.Idle? || run.Checking? || run.Preparing?
  }

  predicate Cleaning(run: RunPC, clean: Clean) {
    (run.Explicit? || run.Sweep?) && run.clean == clean
  }

  /** CleanupAll is past the pid files, or Run has returned. */
  predicate PastSweep(run: RunPC) {
    run.Stopping? || run.Sending? || run.Returned?
  }

  function SentSoFar(run: RunPC): seq<Signal> {
    if Cleaning(run, SendKill) then [TERM] else if Cleaning(run, RemoveFile) then [TERM, KILL] else []
  }

  /** The TPM emulator, once started. */
  ghost predicate SwtpmInv(c: Config, run: RunPC, tpm: Tpm, registered: bool)
    requires tpm.Swtpm?
  {
    && !BeforeTpm(run)
    && (run.TpmUp? <==> !registered)
    && (tpm.pidFile ==> tpm.signals == SentSoFar(run))
    && (!tpm.pidFile ==> tpm.signals == [TERM, KILL] && !Cleaning(run, SendTerm) && !Cleaning(run, SendKill))
    && (!tpm.pidFile ==> run.Explicit? || run.Sweep? || PastSweep(run))
    && (PastSweep(run) && c.cleanup ==> !tpm.pidFile)
  }

  /** The TPM emulator and its pid file. */
  ghost predicate TpmInv(c: Config, run: RunPC, tpm: Tpm, registered: bool) {
    && (registered ==> tpm.Swtpm?)
    && (tpm.NoTpm? ==> BeforeTpm(run) || PastSweep(run))
    && (tpm.Swtpm? ==> SwtpmInv(c, run, tpm, registered))
  }

  predicate AfterLaunch(run: RunPC) {
    !BeforeTpm(run) && !run.TpmUp? && !run.Wiring?
  }

  predicate Leaving(run: RunPC) {
    run.Explicit? || run.Sweep? || PastSweep(run)
  }

  /** QEMU, its reaping, and the waiter of build mode. */
  ghost predicate QemuInv(c: Config, s: State) {
    && (s.reaped ==> s.qemu.Exited?)
    && (!AfterLaunch(s.run) ==> s.qemu.NotStarted?)
    && (s.run.Launched? || s.run.Waiting? || s.run.Reaping? ==> !s.qemu.NotStarted?)
    && (s.run.Reaping? ==> c.mode.Tagged?)
    && (!s.waiter.NoWaiter? ==> c.mode.Build? && !s.qemu.NotStarted?)
    && (c.mode.Build? && s.run.Waiting? ==> !s.waiter.NoWaiter?)
    && (c.mode.Build? && s.reaped ==> s.waiter.Delivering? || s.waiter.Delivered?)
    && (s.waiter.InWait? ==> !s.reaped)
    && (s.waiter.Delivering? ==> s.reaped && s.qemu == Exited(s.waiter.ok) && s.exit.None?)
    && (s.exit.Some? ==> s.waiter.Delivered? && s.reaped && s.qemu == Exited(s.exit.value))
    && (s.cmdRegistered ==> !c.mode.Build? && !s.qemu.NotStarted?)
    && (s.run.Waiting? ==> s.cmdRegistered == !c.mode.Build?)
    && (s.run.Reaping? ==> s.cmdRegistered)
    && (s.run.Launched? ==> !s.cmdRegistered && s.waiter.NoWaiter? && !s.reaped)
    && (!c.mode.Build? && (s.run.Waiting? || s.run.Reaping?) ==> !s.reaped)
    && (s.cmdRegistered && Leaving(s.run) ==> s.reaped)
    && (!s.qemu.NotStarted? && Leaving(s.run) && !c.mode.Build? ==> s.cmdRegistered)
    && (s.run.Stopping? ==> s.cmdRegistered)
    && (s.qemu.NotStarted? ==> s.qemuSignals == [])
    && (s.waiter.Delivered? && s.run.Waiting? ==> s.exit.Some?)
  }

  predicate Leaves(run: RunPC, o: Outcome) {
    (run.Explicit? || run.Sweep? || run.Stopping? || run.Sending? || run.Returned?) && run.o == o
  }

  /** What an outcome says about QEMU. */
  ghost predicate OutcomeInv(c: Config, s: State) {
    && (Leaves(s.run, Success) ==> s.reaped && (!c.mode.Tagged? ==> s.qemu == Exited(true)))
    && (c.mode.Tagged? && Leaves(s.run, Failure) ==> s.qemu.NotStarted?)
    && (!c.Piped() && Leaves(s.run, Failure) ==> s.qemu.NotStarted? || s.qemu == Exited(false))
    && (c.mode.Build? && Leaves(s.run, Failure) && !s.qemu.NotStarted? && !s.reaped ==> TERM in s.qemuSignals)
  }

  /** One output stream: bytes are conserved, and only closing the pipe early loses any. */
  ghost predicate StreamInv(c: Config, s: State, st: Stream) {
    && (!s.pipesClosed ==> st.lost == 0)
    && (st.reader.Unattached? ==> st.shown == 0)
    && (s.qemu.NotStarted? ==> Fresh(st))
    && (s.run.Launched? ==> st.reader.Unattached?)
    && (!s.qemu.NotStarted? && !s.run.Launched? && c.Piped() ==> !st.reader.Unattached?)
    && (c.mode.Tagged? && st.reader.Ended? ==> st.buffered == 0 && st.lost == 0 && s.qemu.Exited?)
    && (c.mode.Tagged? && (s.run.Reaping? || (Leaving(s.run) && !s.qemu.NotStarted?)) ==> st.reader.Ended?)
    && (s.pipesClosed ==> s.reaped && c.Piped())
    && (!c.Piped() ==> Fresh(st))
  }

  /** The exits on which the code cleans up without being asked to: a build that succeeded, and a
      direct run whose QEMU did not start. */
  predicate SelfCleaning(c: Config, o: Outcome, qemu: Qemu) {
    if c.mode.Build? then o.Success? else !c.mode.Tagged? && qemu.NotStarted?
  }

  /** Without cleanup, the pid file is cleaned by a mode itself, or not at all. */
  ghost predicate BareInv(c: Config, run: RunPC, tpm: Tpm, qemu: Qemu) {
    && (run.Explicit? ==> SelfCleaning(c, run.o, qemu))
    && (!c.cleanup ==> !run.Sweep? && !run.Stopping?)
    && (!c.cleanup && tpm.Swtpm? && (run.Sending? || run.Returned?) ==> tpm.pidFile == !SelfCleaning(c, run.o, qemu))
  }

  ghost predicate Inv(c: Config, s: State) {
    && MainInv(c, s) && TpmInv(c, s.run, s.tpm, s.pidRegistered) && QemuInv(c, s) && OutcomeInv(c, s)
    && StreamInv(c, s, s.out) && StreamInv(c, s, s.err)
    && BareInv(c, s.run, s.tpm, s.qemu)
  }

  // ----- What every step changes -----

  function RunRank(run: RunPC): nat {
    match run
    case Idle => 20
    case Checking => 19
    case Preparing => 18
    case TpmUp => 17
    case Wiring => 16
    case Launched => 15
    case Waiting => 14
    case Reaping => 13
    case Explicit(clean, _) => 9 + CleanRank(clean)
    case Sweep(clean, _) => 5 + CleanRank(clean)
    case Stopping(stop, _) => if stop.Terminate? then 4 else if stop.Check? then 3 else 2
    case Sending(_) => 1
    case Returned(_) => 0
  }

  function CleanRank(clean: Clean): nat {
    match clean
    case ReadFile => 3
    case SendTerm => 2
    case SendKill => 1
    case RemoveFile => 0
  }

  function MainRank(main: MainPC): nat {
    match main
    case Start => 4
    case Select => 3
    case Cancelling => 2
    case Awaiting => 1
    case Joining => 1
    case Finished(_, _) => 0
  }

  function WaiterRank(waiter: Waiter): nat {
    match waiter
    case NoWaiter => 3
    case InWait => 2
    case Delivering(_) => 1
    case Delivered => 0
  }

  function StreamRank(st: Stream): nat {
    2 * st.toWrite + st.buffered + if st.reader.Unattached? then 2 else if st.reader.Reading? then 1 else 0
  }

  /** How many steps a run can still take. */
  function Measure(s: State): nat {
    RunRank(s.run) + MainRank(s.main) + WaiterRank(s.waiter) + s.signalsLeft
    + (if s.timer then 0 else 1) + (if s.qemu.Exited? then 0 else if s.qemu.Running? then 1 else 2)
    + (if KILL in s.qemuSignals then 0 else 1) + StreamRank(s.out) + StreamRank(s.err)
  }

  function Total(st: Stream): nat {
    st.toWrite + st.buffered + st.shown + st.lost
  }

  /** A step brings the run nearer to its end, conserves the output of QEMU and keeps the emulator. */
  ghost predicate Moves(s: State, s': State) {
    && Measure(s') < Measure(s)
    && Total(s'.out) == Total(s.out) && Total(s'.err) == Total(s.err)
    && (s.tpm.Swtpm? ==> s'.tpm.Swtpm?)
  }

  lemma InitInv(c: Config, s: State)
    requires Init(s)
    ensures Inv(c, s)
  {
  }

  lemma MainSpawnsKeeps(c: Config, s: State)
    requires Inv(c, s) && !s.main.Finished? && MainSpawns(c, s).Some?
    ensures Inv(c, MainSpawns(c, s).value) && Moves(s, MainSpawns(c, s).value)
  {
  }

  lemma MainTakesDoneKeeps(c: Config, s: State)
    requires Inv(c, s) && !s.main.Finished? && MainTakesDone(s).Some?
    ensures Inv(c, MainTakesDone(s).value) && Moves(s, MainTakesDone(s).value)
  {
  }

  lemma MainTakesSignalKeeps(c: Config, s: State)
    requires Inv(c, s) && !s.main.Finished? && MainTakesSignal(s).Some?
    ensures Inv(c, MainTakesSignal(s).value) && Moves(s, MainTakesSignal(s).value)
  {
  }

  lemma MainCancelsKeeps(c: Config, s: State)
    requires Inv(c, s) && !s.main.Finished? && MainCancels(s).Some?
    ensures Inv(c, MainCancels(s).value) && Moves(s, MainCancels(s).value)
  {
  }

  lemma MainAwaitsKeeps(c: Config, s: State)
    requires Inv(c, s) && !s.main.Finished? && MainAwaits(s).Some?
    ensures Inv(c, MainAwaits(s).value) && Moves(s, MainAwaits(s).value)
  {
  }

  lemma MainJoinsKeeps(c: Config, s: State)
    requires Inv(c, s) && !s.main.Finished? && MainJoins(s).Some?
    ensures Inv(c, MainJoins(s).value) && Moves(s, MainJoins(s).value)
  {
  }

  lemma CheckFailsKeeps(c: Config, s: State)
    requires Inv(c, s) && !s.main.Finished? && s.run.Checking? && RunFails(c, s).Some?
    ensures Inv(c, RunFails(c, s).value) && Moves(s, RunFails(c, s).value)
  {
  }

  lemma SetupFailsKeeps(c: Config, s: State)
    requires Inv(c, s) && !s.main.Finished? && s.run.Preparing? && RunFails(c, s).Some?
    ensures Inv(c, RunFails(c, s).value) && Moves(s, RunFails(c, s).value)
  {
  }

  lemma WiringFailsKeeps(c: Config, s: State)
    requires Inv(c, s) && !s.main.Finished? && s.run.Wiring? && RunFails(c, s).Some?
    ensures Inv(c, RunFails(c, s).value) && Moves(s, RunFails(c, s).value)
  {
  }

  lemma RunChecksKeeps(c: Config, s: State)
    requires Inv(c, s) && !s.main.Finished? && (s.run.Checking? || s.run.Preparing?)
    ensures Inv(c, RunAdvances(s).value) && Moves(s, RunAdvances(s).value)
  {
  }

  lemma RunWiresKeeps(c: Config, s: State)
    requires Inv(c, s) && !s.main.Finished? && (s.run.TpmUp? || s.run.Wiring?)
    ensures Inv(c, RunAdvances(s).value) && Moves(s, RunAdvances(s).value)
  {
  }

  lemma BuildAttachesKeeps(c: Config, s: State)
    requires Inv(c, s) && !s.main.Finished? && c.mode.Build? && RunAttaches(c, s).Some?
    ensures Inv(c, RunAttaches(c, s).value) && Moves(s, RunAttaches(c, s).value)
  {
  }

  lemma TaggedAttachesKeeps(c: Config, s: State)
    requires Inv(c, s) && !s.main.Finished? && c.mode.Tagged? && RunAttaches(c, s).Some?
    ensures Inv(c, RunAttaches(c, s).value) && Moves(s, RunAttaches(c, s).value)
  {
  }

  lemma DirectAttachesKeeps(c: Config, s: State)
    requires Inv(c, s) && !s.main.Finished? && !c.Piped() && RunAttaches(c, s).Some?
    ensures Inv(c, RunAttaches(c, s).value) && Moves(s, RunAttaches(c, s).value)
  {
  }

  lemma RunTakesExitKeeps(c: Config, s: State)
    requires Inv(c, s) && !s.main.Finished? && RunTakesExit(c, s).Some?
    ensures Inv(c, RunTakesExit(c, s).value) && Moves(s, RunTakesExit(c, s).value)
  {
  }

  lemma RunTakesTimeoutKeeps(c: Config, s: State)
    requires Inv(c, s) && !s.main.Finished? && RunTakesTimeout(c, s).Some?
    ensures Inv(c, RunTakesTimeout(c, s).value) && Moves(s, RunTakesTimeout(c, s).value)
  {
  }

  lemma RunTakesCancelKeeps(c: Config, s: State)
    requires Inv(c, s) && !s.main.Finished? && RunTakesCancel(c, s).Some?
    ensures Inv(c, RunTakesCancel(c, s).value) && Moves(s, RunTakesCancel(c, s).value)
  {
  }

  lemma RunHasReadAllKeeps(c: Config, s: State)
    requires Inv(c, s) && !s.main.Finished? && RunHasReadAll(c, s).Some?
    ensures Inv(c, RunHasReadAll(c, s).value) && Moves(s, RunHasReadAll(c, s).value)
  {
  }

  lemma TaggedReapsKeeps(c: Config, s: State)
    requires Inv(c, s) && !s.main.Finished? && s.run.Reaping? && RunReaps(c, s).Some?
    ensures Inv(c, RunReaps(c, s).value) && Moves(s, RunReaps(c, s).value)
  {
  }

  lemma DirectReapsKeeps(c: Config, s: State)
    requires Inv(c, s) && !s.main.Finished? && !s.run.Reaping? && RunReaps(c, s).Some?
    ensures Inv(c, RunReaps(c, s).value) && Moves(s, RunReaps(c, s).value)
  {
  }

  /** A step of cleanupPIDFile ends with the file gone and both signals sent, or takes the next one. */
  lemma CleanOnceKeeps(c: Config, run: RunPC, tpm: Tpm, registered: bool)
    requires (run.Explicit? || run.Sweep?) && TpmInv(c, run, tpm, registered)
    ensures var (tpm', next) := CleanOnce(tpm, run.clean);
      && (next.Some? && run.Explicit? ==> TpmInv(c, Explicit(next.value, run.o), tpm', registered))
      && (next.Some? && run.Sweep? ==> TpmInv(c, Sweep(next.value, run.o), tpm', registered))
      && (next.None? ==> registered && tpm' == Swtpm(false, [TERM, KILL]))
  {
  }

  /** While Run is on its way out, moving it on touches neither QEMU nor what is known about it. */
  lemma LeavingKeepsQemu(c: Config, s: State, run: RunPC, tpm: Tpm)
    requires Inv(c, s) && Leaving(s.run) && Leaves(run, s.run.o) && (run.Stopping? ==> s.cmdRegistered)
    ensures var s' := s.(run := run, tpm := tpm); QemuInv(c, s') && OutcomeInv(c, s')
  {
  }

  lemma LeavingKeepsStreams(c: Config, s: State, run: RunPC, tpm: Tpm)
    requires Inv(c, s) && Leaving(s.run) && Leaves(run, s.run.o)
    ensures var s' := s.(run := run, tpm := tpm); StreamInv(c, s', s'.out) && StreamInv(c, s', s'.err)
  {
  }

  lemma LeavingKeepsMain(c: Config, s: State, run: RunPC, tpm: Tpm)
    requires Inv(c, s) && Leaving(s.run) && !s.run.Returned? && !s.main.Finished? && Leaves(run, s.run.o)
    requires (run.Returned? ==> c.Sync()) && (run.Sending? ==> !c.Sync())
    ensures MainInv(c, s.(run := run, tpm := tpm))
  {
  }

  lemma ModeCleansKeeps(c: Config, s: State)
    requires Inv(c, s) && !s.main.Finished? && ModeCleans(c, s).Some?
    ensures Inv(c, ModeCleans(c, s).value) && Moves(s, ModeCleans(c, s).value)
  {
    var s' := ModeCleans(c, s).value;
    CleanOnceKeeps(c, s.run, s.tpm, s.pidRegistered);
    LeavingKeepsQemu(c, s, s'.run, s'.tpm);
    LeavingKeepsStreams(c, s, s'.run, s'.tpm);
    LeavingKeepsMain(c, s, s'.run, s'.tpm);
  }

  lemma SweepCleansKeeps(c: Config, s: State)
    requires Inv(c, s) && !s.main.Finished? && SweepCleans(c, s).Some?
    ensures Inv(c, SweepCleans(c, s).value) && Moves(s, SweepCleans(c, s).value)
  {
    var s' := SweepCleans(c, s).value;
    CleanOnceKeeps(c, s.run, s.tpm, s.pidRegistered);
    LeavingKeepsQemu(c, s, s'.run, s'.tpm);
    LeavingKeepsStreams(c, s, s'.run, s'.tpm);
    LeavingKeepsMain(c, s, s'.run, s'.tpm);
  }

  /** The registered command was reaped before, so the loop over commands signals and reaps nothing. */
  lemma StopCommandOnlyMoves(c: Config, s: State)
    requires Inv(c, s) && s.run.Stopping?
    ensures StopCommand(c, s).Some?
    ensures var run := if s.run.stop.Terminate? then Stopping(Check, s.run.o)
                       else if s.run.stop.Check? then Stopping(Wait, s.run.o) else End(c, s.run.o);
      StopCommand(c, s).value == s.(run := run)
  {
  }

  lemma StopCommandKeeps(c: Config, s: State)
    requires Inv(c, s) && !s.main.Finished? && StopCommand(c, s).Some?
    ensures Inv(c, StopCommand(c, s).value) && Moves(s, StopCommand(c, s).value)
  {
    StopCommandOnlyMoves(c, s);
    var run := StopCommand(c, s).value.run;
    LeavingKeepsQemu(c, s, run, s.tpm);
    LeavingKeepsStreams(c, s, run, s.tpm);
    LeavingKeepsMain(c, s, run, s.tpm);
  }

  lemma RunSendsKeeps(c: Config, s: State)
    requires Inv(c, s) && !s.main.Finished? && RunSends(s).Some?
    ensures Inv(c, RunSends(s).value) && Moves(s, RunSends(s).value)
  {
  }

  lemma WaiterReapKeeps(c: Config, s: State)
    requires Inv(c, s) && !s.main.Finished? && WaiterReap(c, s).Some?
    ensures Inv(c, WaiterReap(c, s).value) && Moves(s, WaiterReap(c, s).value)
  {
  }

  lemma WaiterDeliverKeeps(c: Config, s: State)
    requires Inv(c, s) && !s.main.Finished? && WaiterDeliver(s).Some?
    ensures Inv(c, WaiterDeliver(s).value) && Moves(s, WaiterDeliver(s).value)
  {
  }

  lemma WatchdogKillsKeeps(c: Config, s: State)
    requires Inv(c, s) && !s.main.Finished? && WatchdogKills(s).Some?
    ensures Inv(c, WatchdogKills(s).value) && Moves(s, WatchdogKills(s).value)
  {
  }

  lemma SignalComesKeeps(c: Config, s: State)
    requires Inv(c, s) && !s.main.Finished? && SignalComes(c, s).Some?
    ensures Inv(c, SignalComes(c, s).value) && Moves(s, SignalComes(c, s).value)
  {
  }

  lemma TimerFiresKeeps(c: Config, s: State)
    requires Inv(c, s) && !s.main.Finished? && TimerFires(c, s).Some?
    ensures Inv(c, TimerFires(c, s).value) && Moves(s, TimerFires(c, s).value)
  {
  }

  lemma QemuExitsKeeps(c: Config, s: State, ok: bool)
    requires Inv(c, s) && !s.main.Finished? && QemuExits(s, ok).Some?
    ensures Inv(c, QemuExits(s, ok).value) && Moves(s, QemuExits(s, ok).value)
  {
  }

  lemma StreamMovesKeeps(c: Config, s: State, step: Step, first: bool)
    requires Inv(c, s) && StreamMoves(c, s, step, Pick(s, first)).Some?
    ensures StreamInv(c, s, StreamMoves(c, s, step, Pick(s, first)).value)
  {
  }

  lemma PutKeeps(c: Config, s: State, first: bool, st: Stream)
    requires Inv(c, s) && StreamInv(c, s, st)
    ensures Inv(c, Put(s, first, st))
  {
  }

  // ----- Every state of every run -----

  predicate IsMainStep(step: Step) {
    step.Spawn? || step.TakeDone? || step.TakeSignal? || step.Cancel? || step.AwaitDone? || step.Join?
  }

  predicate IsRunStep(step: Step) {
    || step.Fail? || step.Advance? || step.Attach? || step.TakeExit? || step.TakeTimeout? || step.TakeCancel?
    || step.ReadersDone? || step.Reap? || step.CleanExplicit? || step.CleanSwept? || step.StopStep? || step.SendDone?
  }

  lemma MainStepKeeps(c: Config, s: State, step: Step)
    requires Inv(c, s) && IsMainStep(step) && Apply(c, s, step).Some?
    ensures Inv(c, Apply(c, s, step).value) && Moves(s, Apply(c, s, step).value)
  {
    match step
    case Spawn => MainSpawnsKeeps(c, s);
    case TakeDone => MainTakesDoneKeeps(c, s);
    case TakeSignal => MainTakesSignalKeeps(c, s);
    case Cancel => MainCancelsKeeps(c, s);
    case AwaitDone => MainAwaitsKeeps(c, s);
    case Join => MainJoinsKeeps(c, s);
  }

  lemma RunStepKeeps(c: Config, s: State, step: Step)
    requires Inv(c, s) && IsRunStep(step) && Apply(c, s, step).Some?
    ensures Inv(c, Apply(c, s, step).value) && Moves(s, Apply(c, s, step).value)
  {
    match step
    case Fail => if s.run.Checking? { CheckFailsKeeps(c, s); } else if s.run.Wiring? { WiringFailsKeeps(c, s); } else { SetupFailsKeeps(c, s); }
    case Advance => if s.run.Checking? || s.run.Preparing? { RunChecksKeeps(c, s); } else { RunWiresKeeps(c, s); }
    case Attach => if c.mode.Build? { BuildAttachesKeeps(c, s); } else if c.mode.Tagged? { TaggedAttachesKeeps(c, s); } else { DirectAttachesKeeps(c, s); }
    case TakeExit => RunTakesExitKeeps(c, s);
    case TakeTimeout => RunTakesTimeoutKeeps(c, s);
    case TakeCancel => RunTakesCancelKeeps(c, s);
    case ReadersDone => RunHasReadAllKeeps(c, s);
    case Reap => if s.run.Reaping? { TaggedReapsKeeps(c, s); } else { DirectReapsKeeps(c, s); }
    case CleanExplicit => ModeCleansKeeps(c, s);
    case CleanSwept => SweepCleansKeeps(c, s);
    case StopStep => StopCommandKeeps(c, s);
    case SendDone => RunSendsKeeps(c, s);
  }

  lemma OtherStepKeeps(c: Config, s: State, step: Step)
    requires Inv(c, s) && !IsMainStep(step) && !IsRunStep(step) && Apply(c, s, step).Some?
    ensures Inv(c, Apply(c, s, step).value) && Moves(s, Apply(c, s, step).value)
  {
    match step
    case WaiterReaps => WaiterReapKeeps(c, s);
    case WaiterDelivers => WaiterDeliverKeeps(c, s);
    case Watchdog => WatchdogKillsKeeps(c, s);
    case SignalArrives => SignalComesKeeps(c, s);
    case TimerRings => TimerFiresKeeps(c, s);
    case QemuStops(ok) => QemuExitsKeeps(c, s, ok);
    case ReaderReads(first, _) => MoveKeeps(c, s, step, first);
    case ReaderEnds(first) => MoveKeeps(c, s, step, first);
    case QemuWrites(first, _) => MoveKeeps(c, s, step, first);
  }

  lemma StepKeeps(c: Config, s: State, step: Step)
    requires Inv(c, s) && Apply(c, s, step).Some?
    ensures Inv(c, Apply(c, s, step).value) && Moves(s, Apply(c, s, step).value)
  {
    if IsMainStep(step) {
      MainStepKeeps(c, s, step);
    } else if IsRunStep(step) {
      RunStepKeeps(c, s, step);
    } else {
      OtherStepKeeps(c, s, step);
    }
  }

  lemma MoveKeeps(c: Config, s: State, step: Step, first: bool)
    requires Inv(c, s) && Move(c, s, step, first).Some?
    ensures Inv(c, Move(c, s, step, first).value) && Moves(s, Move(c, s, step, first).value)
  {
    StreamMovesKeeps(c, s, step, first);
    PutKeeps(c, s, first, StreamMoves(c, s, step, Pick(s, first)).value);
  }

  lemma {:induction false} ExecKeeps(c: Config, s: State, steps: seq<Step>)
    requires Inv(c, s) && Exec(c, s, steps).Some?
    ensures Inv(c, Exec(c, s, steps).value)
    decreases |steps|
  {
    if steps != [] {
      StepKeeps(c, s, steps[0]);
      ExecKeeps(c, Apply(c, s, steps[0]).value, steps[1..]);
    }
  }

  lemma ReachedInv(c: Config, start: State, steps: seq<Step>, s: State)
    requires Reaches(c, start, steps, s)
    ensures Inv(c, s)
  {
    InitInv(c, start);
    ExecKeeps(c, start, steps);
  }
}
