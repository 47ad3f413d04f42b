/** The run protocol as interleaved steps: main (vmtest/cmd/main.go), the Run goroutine, the QEMU
    waiter goroutine and the cleanup (runner/runner.go, runner/process_manager.go), QEMU, its two
    output readers, the context watchdog of exec.CommandContext, signals and the build timer. */
module Lifecycle {
  import opened Sequences
  import opened Signals

  /** Build; run with tagged output; run in the foreground, which main calls synchronously; and run
      with any other output mode, where main starts a goroutine and Run takes its direct branch. */
  datatype Mode = Build | Tagged | Direct | Other

  datatype Config = Config(mode: Mode, cleanup: bool) {
    predicate Sync() { mode.Direct? }
    predicate Piped() { mode.Build? || mode.Tagged? }
  }

  datatype Outcome = Success | Failure

  /** The steps of cleanupPIDFile. */
  datatype Clean = ReadFile | SendTerm | SendKill | RemoveFile

  /** The steps of CleanupAll for one command. */
  datatype Stop = Terminate | Check | Wait

  datatype RunPC =
    | Idle                              // not called yet
    | Checking                          // before the cleanup is deferred
    | Preparing                         // tap, firmware, disk, TPM state
    | TpmUp                             // swtpm runs, its pid file is not registered
    | Wiring                            // pid file registered; arguments and pipes
    | Launched                          // QEMU runs; registration, readers, waiter to come
    | Waiting                           // select, streamer.Wait, or Wait on QEMU
    | Reaping                           // tagged: Wait after the readers
    | Explicit(clean: Clean, o: Outcome)  // cleanupPIDFile called by a mode
    | Sweep(clean: Clean, o: Outcome)     // CleanupAll: the pid file
    | Stopping(stop: Stop, o: Outcome)    // CleanupAll: the command
    | Sending(o: Outcome)               // done <- err
    | Returned(o: Outcome)

  datatype MainPC = Start | Select | Cancelling | Awaiting | Joining | Finished(code: nat, signalled: bool)

  datatype Waiter = NoWaiter | InWait | Delivering(ok: bool) | Delivered

  datatype Qemu = NotStarted | Running | Exited(ok: bool)

  datatype Tpm = NoTpm | Swtpm(pidFile: bool, signals: seq<Signal>)

  datatype Reader = Unattached | Reading | Ended

  /** One output stream of QEMU, by bytes. */
  datatype Stream = Stream(toWrite: nat, buffered: nat, shown: nat, lost: nat, reader: Reader)

  datatype State = State(
    main: MainPC, run: RunPC, waiter: Waiter,
    done: Option<Outcome>, exit: Option<bool>, signal: bool, signalsLeft: nat,
    cancelled: bool, timer: bool,
    tpm: Tpm, pidRegistered: bool,
    qemu: Qemu, reaped: bool, cmdRegistered: bool, qemuSignals: seq<Signal>, pipesClosed: bool,
    out: Stream, err: Stream)

  datatype Step =
    | Spawn | TakeDone | TakeSignal | Cancel | AwaitDone | Join
    | Fail | Advance | Attach
    | TakeExit | TakeTimeout | TakeCancel | ReadersDone | Reap
    | CleanExplicit | CleanSwept | StopStep | SendDone
    | WaiterReaps | WaiterDelivers | Watchdog
    | ReaderReads(first: bool, n: nat) | ReaderEnds(first: bool)
    | SignalArrives | TimerRings | QemuWrites(first: bool, n: nat) | QemuStops(ok: bool)

  /** Steps that the outside world takes; all others are the program's. */
  predicate IsWorld(step: Step) {
    step.SignalArrives? || step.TimerRings? || step.QemuWrites? || step.QemuStops?
  }

  // ----- Leaving Run -----

  function End(c: Config, o: Outcome): RunPC {
    if c.Sync() then Returned(o) else Sending(o)
  }

  function AfterSweep(c: Config, s: State, o: Outcome): RunPC {
    if s.cmdRegistered then Stopping(Terminate, o) else End(c, o)
  }

  /** A return after the cleanup was deferred. */
  function Unwind(c: Config, s: State, o: Outcome): RunPC {
    if !c.cleanup then End(c, o)
    else if s.pidRegistered then Sweep(ReadFile, o)
    else AfterSweep(c, s, o)
  }

  /** A signal to QEMU after those of before; an error, and no signal, once it was waited for. */
  function SignalQemu(s: State, sig: Signal): (s': State)
    ensures s.qemuSignals <= s'.qemuSignals && (s.reaped ==> s' == s)
  {
    if s.reaped then s else s.(qemuSignals := s.qemuSignals + [sig])
  }

  function CloseStream(st: Stream): Stream {
    st.(lost := st.lost + st.buffered, buffered := 0)
  }

  /** `cmd.Wait` returns: QEMU is reaped, and the read ends of its pipes are closed. */
  function Reaped(c: Config, s: State): State {
    if c.Piped() then s.(reaped := true, pipesClosed := true, out := CloseStream(s.out), err := CloseStream(s.err))
    else s.(reaped := true)
  }

  /** One step of cleanupPIDFile: its effect, and the next step or None at its return. */
  function CleanOnce(tpm: Tpm, clean: Clean): (Tpm, Option<Clean>) {
    match clean
    case ReadFile => (tpm, Some(if tpm.Swtpm? && tpm.pidFile then SendTerm else RemoveFile))
    case SendTerm => (if tpm.Swtpm? then tpm.(signals := tpm.signals + [TERM]) else tpm, Some(SendKill))
    case SendKill => (if tpm.Swtpm? then tpm.(signals := tpm.signals + [KILL]) else tpm, Some(RemoveFile))
    case RemoveFile => (if tpm.Swtpm? then tpm.(pidFile := false) else tpm, None)
  }

  function Pick(s: State, first: bool): Stream {
    if first then s.out else s.err
  }

  function Put(s: State, first: bool, st: Stream): State {
    if first then s.(out := st) else s.(err := st)
  }

  function Code(o: Outcome): nat {
    if o.Success? then 0 else 1
  }

  // ----- The steps, None where a step is not enabled -----

  function MainSpawns(c: Config, s: State): Option<State> {
    if s.main.Start? then Some(s.(main := if c.Sync() then Joining else Select, run := Checking)) else None
  }

  function MainTakesDone(s: State): Option<State> {
    if s.main.Select? && s.done.Some? then Some(s.(main := Finished(Code(s.done.value), false), done := None)) else None
  }

  function MainTakesSignal(s: State): Option<State> {
    if s.main.Select? && s.signal then Some(s.(main := Cancelling, signal := false)) else None
  }

  function MainCancels(s: State): Option<State> {
    if s.main.Cancelling? then Some(s.(main := Awaiting, cancelled := true)) else None
  }

  function MainAwaits(s: State): Option<State> {
    if s.main.Awaiting? && s.done.Some? then Some(s.(main := Finished(0, true), done := None)) else None
  }

  function MainJoins(s: State): Option<State> {
    if s.main.Joining? && s.run.Returned? then Some(s.(main := Finished(Code(s.run.o), false))) else None
  }

  /** An error return from a check, from preparation, or from wiring up and starting QEMU. A failed
      start in a direct branch cleans the pid file first. */
  function RunFails(c: Config, s: State): Option<State> {
    if s.run.Checking? then Some(s.(run := End(c, Failure)))
    else if s.run.Preparing? then Some(s.(run := Unwind(c, s, Failure)))
    else if s.run.Wiring? then Some(s.(run := if c.Piped() then Unwind(c, s, Failure) else Explicit(ReadFile, Failure)))
    else None
  }

  function RunAdvances(s: State): Option<State> {
    if s.run.Checking? then Some(s.(run := Preparing))
    else if s.run.Preparing? then Some(s.(run := TpmUp, tpm := Swtpm(true, [])))
    else if s.run.TpmUp? then Some(s.(run := Wiring, pidRegistered := true))
    else if s.run.Wiring? then Some(s.(run := Launched, qemu := Running))
    else None
  }

  /** Build mode starts the waiter; the run modes register the command. */
  function RunAttaches(c: Config, s: State): Option<State> {
    if !s.run.Launched? then None
    else
      var s' := s.(run := Waiting, cmdRegistered := !c.mode.Build?, waiter := if c.mode.Build? then InWait else NoWaiter);
      Some(if c.Piped() then s'.(out := s.out.(reader := Reading), err := s.err.(reader := Reading)) else s')
  }

  function RunTakesExit(c: Config, s: State): Option<State> {
    if c.mode.Build? && s.run.Waiting? && s.exit.Some? then
      Some(s.(exit := None, run := if s.exit.value then Explicit(ReadFile, Success) else Unwind(c, s, Failure)))
    else None
  }

  function RunTakesTimeout(c: Config, s: State): Option<State> {
    if c.mode.Build? && s.run.Waiting? && s.timer then Some(SignalQemu(s, TERM).(run := Unwind(c, s, Failure))) else None
  }

  function RunTakesCancel(c: Config, s: State): Option<State> {
    if c.mode.Build? && s.run.Waiting? && s.cancelled then Some(SignalQemu(s, TERM).(run := Unwind(c, s, Failure))) else None
  }

  function RunHasReadAll(c: Config, s: State): Option<State> {
    if c.mode.Tagged? && s.run.Waiting? && s.out.reader.Ended? && s.err.reader.Ended? then Some(s.(run := Reaping)) else None
  }

  /** Tagged mode ignores the exit status; the direct branch reports it. */
  function RunReaps(c: Config, s: State): Option<State> {
    if !s.qemu.Exited? then None
    else if c.mode.Tagged? && s.run.Reaping? then Some(Reaped(c, s).(run := Unwind(c, s, Success)))
    else if !c.Piped() && s.run.Waiting? then Some(Reaped(c, s).(run := Unwind(c, s, if s.qemu.ok then Success else Failure)))
    else None
  }

  /** One step of cleanupPIDFile when a mode calls it. */
  function ModeCleans(c: Config, s: State): Option<State> {
    if !s.run.Explicit? then None
    else
      var (tpm, next) := CleanOnce(s.tpm, s.run.clean);
      Some(s.(tpm := tpm, run := if next.Some? then Explicit(next.value, s.run.o) else Unwind(c, s, s.run.o)))
  }

  /** One step of cleanupPIDFile when CleanupAll calls it. */
  function SweepCleans(c: Config, s: State): Option<State> {
    if !s.run.Sweep? then None
    else
      var (tpm, next) := CleanOnce(s.tpm, s.run.clean);
      Some(s.(tpm := tpm, run := if next.Some? then Sweep(next.value, s.run.o) else AfterSweep(c, s, s.run.o)))
  }

  /** One step of CleanupAll's loop over commands. */
  function StopCommand(c: Config, s: State): Option<State> {
    if !s.run.Stopping? then None
    else
      match s.run.stop
      case Terminate => Some(SignalQemu(s, TERM).(run := Stopping(Check, s.run.o)))
      case Check => Some((if s.reaped then s else SignalQemu(s, KILL)).(run := Stopping(Wait, s.run.o)))
      case Wait =>
        if s.reaped then Some(s.(run := End(c, s.run.o)))
        else if s.qemu.Exited? then Some(Reaped(c, s).(run := End(c, s.run.o)))
        else None
  }

  function RunSends(s: State): Option<State> {
    if s.run.Sending? && s.done.None? then Some(s.(done := Some(s.run.o), run := Returned(s.run.o))) else None
  }

  function WaiterReap(c: Config, s: State): Option<State> {
    if s.waiter.InWait? && s.qemu.Exited? then Some(Reaped(c, s).(waiter := Delivering(s.qemu.ok))) else None
  }

  function WaiterDeliver(s: State): Option<State> {
    if s.waiter.Delivering? && s.exit.None? then Some(s.(exit := Some(s.waiter.ok), waiter := Delivered)) else None
  }

  function ReadBytes(st: Stream, n: nat): Option<Stream> {
    if st.reader.Reading? && 0 < n <= st.buffered then Some(st.(buffered := st.buffered - n, shown := st.shown + n)) else None
  }

  /** End of file, or an error once the read end was closed. */
  function EndReading(s: State, st: Stream): Option<Stream> {
    if st.reader.Reading? && (s.pipesClosed || (st.buffered == 0 && s.qemu.Exited?)) then Some(st.(reader := Ended)) else None
  }

  function WriteBytes(c: Config, s: State, st: Stream, n: nat): Option<Stream> {
    if c.Piped() && s.qemu.Running? && 0 < n <= st.toWrite then
      Some(st.(toWrite := st.toWrite - n, buffered := st.buffered + n))
    else None
  }

  /** The streams change only here, and when the pipes are closed. */
  function StreamMoves(c: Config, s: State, step: Step, st: Stream): Option<Stream> {
    match step
    case ReaderReads(_, n) => ReadBytes(st, n)
    case ReaderEnds(_) => EndReading(s, st)
    case QemuWrites(_, n) => WriteBytes(c, s, st, n)
    case _ => None
  }

  function WatchdogKills(s: State): Option<State> {
    if s.cancelled && s.qemu.Running? && KILL !in s.qemuSignals then Some(SignalQemu(s, KILL)) else None
  }

  /** The channel holds one signal; main is only notified in its goroutine branch. */
  function SignalComes(c: Config, s: State): Option<State> {
    if s.signalsLeft > 0 && !s.main.Start? && !c.Sync() then Some(s.(signalsLeft := s.signalsLeft - 1, signal := true)) else None
  }

  function TimerFires(c: Config, s: State): Option<State> {
    if c.mode.Build? && s.run.Waiting? && !s.timer then Some(s.(timer := true)) else None
  }

  function QemuExits(s: State, ok: bool): Option<State> {
    if s.qemu.Running? && (ok ==> KILL !in s.qemuSignals) then Some(s.(qemu := Exited(ok))) else None
  }

  /** The effect of one step, None where it is not enabled. Nothing moves once main has finished. */
  function Apply(c: Config, s: State, step: Step): Option<State> {
    if s.main.Finished? then None
    else
      match step
      case Spawn => MainSpawns(c, s)
      case TakeDone => MainTakesDone(s)
      case TakeSignal => MainTakesSignal(s)
      case Cancel => MainCancels(s)
      case AwaitDone => MainAwaits(s)
      case Join => MainJoins(s)
      case Fail => RunFails(c, s)
      case Advance => RunAdvances(s)
      case Attach => RunAttaches(c, s)
      case TakeExit => RunTakesExit(c, s)
      case TakeTimeout => RunTakesTimeout(c, s)
      case TakeCancel => RunTakesCancel(c, s)
      case ReadersDone => RunHasReadAll(c, s)
      case Reap => RunReaps(c, s)
      case CleanExplicit => ModeCleans(c, s)
      case CleanSwept => SweepCleans(c, s)
      case StopStep => StopCommand(c, s)
      case SendDone => RunSends(s)
      case WaiterReaps => WaiterReap(c, s)
      case WaiterDelivers => WaiterDeliver(s)
      case Watchdog => WatchdogKills(s)
      case SignalArrives => SignalComes(c, s)
      case TimerRings => TimerFires(c, s)
      case QemuStops(ok) => QemuExits(s, ok)
      case ReaderReads(first, _) => Move(c, s, step, first)
      case ReaderEnds(first) => Move(c, s, step, first)
      case QemuWrites(first, _) => Move(c, s, step, first)
  }

  function Move(c: Config, s: State, step: Step, first: bool): Option<State> {
    var st := StreamMoves(c, s, step, Pick(s, first));
    if st.None? then None else Some(Put(s, first, st.value))
  }

  predicate Fresh(st: Stream) {
    st.buffered == 0 && st.shown == 0 && st.lost == 0 && st.reader.Unattached?
  }

  predicate Init(s: State) {
    && s.main.Start? && s.run.Idle? && s.waiter.NoWaiter?
    && s.done.None? && s.exit.None? && !s.signal && !s.cancelled && !s.timer
    && s.tpm.NoTpm? && !s.pidRegistered
    && s.qemu.NotStarted? && !s.reaped && !s.cmdRegistered && s.qemuSignals == [] && !s.pipesClosed
    && Fresh(s.out) && Fresh(s.err)
  }

  /** The state after a run of steps, None if one of them is not enabled. */
  function Exec(c: Config, s: State, steps: seq<Step>): Option<State>
    decreases |steps|
  {
    if steps == [] then Some(s)
    else
      var next := Apply(c, s, steps[0]);
      if next.None? then None else Exec(c, next.value, steps[1..])
  }

  /** The state `s` is reached by these steps from some initial state. */
  ghost predicate Reaches(c: Config, start: State, steps: seq<Step>, s: State) {
    Init(start) && Exec(c, start, steps) == Some(s)
  }
}
