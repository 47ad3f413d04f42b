/** The process manager of runner/process_manager.go: what cleanup does to registered pid files and
    commands, for every history of registrations. */
module ProcessManagement {
  import opened Sequences
  import opened Signals
  import opened Numbers

  /** What happened to one operating system process, in order. */
  datatype Event = Sent(signal: Signal) | Reaped

  /** An exec.Cmd: `started` is Process != nil, `waited` is ProcessState != nil. */
  class Cmd {
    var started: bool
    var waited: bool
    var events: seq<Event>

    constructor ()
      ensures Valid() && !started && !waited && events == []
    {
      started, waited, events := false, false, [];
    }

    ghost predicate Valid()
      reads this
    {
      && (waited ==> started)
      && (waited <==> Reaped in events)
      && Orderly(events)
    }

    /** `Process.Signal` and `Process.Kill`: an error, and no signal, once the process was waited for. */
    method Send(signal: Signal)
      requires Valid() && started
      modifies this
      ensures Valid() && started && waited == old(waited)
      ensures events == if old(waited) then old(events) else old(events) + [Sent(signal)]
    {
      if !waited {
        events := events + [Sent(signal)];
        OrderlyStep(old(events), Sent(signal));
      }
    }

    /** `cmd.Wait`: an error when it was called before. */
    method Wait()
      requires Valid() && started
      modifies this
      ensures Valid() && started && waited
      ensures events == if old(waited) then old(events) else old(events) + [Reaped]
    {
      if !waited {
        waited, events := true, events + [Reaped];
        OrderlyStep(old(events), Reaped);
      }
    }

    /** A pause of 500 ms, in which the watchdog of a cancelled context may kill the process and another
        goroutine may wait for it. */
    method Sleep()
      requires Valid() && started
      modifies this
      ensures Valid() && started
      ensures old(waited) ==> waited && events == old(events)
      ensures !old(waited) ==> exists killed :: events == old(events) + Meanwhile(killed, waited)
    {
      if !waited {
        var killedElsewhere: bool, reapedElsewhere: bool := *, *;
        if killedElsewhere {
          Send(KILL);
        }
        if reapedElsewhere {
          Wait();
        }
        assert events == old(events) + Meanwhile(killedElsewhere, waited);
      }
    }
  }

  /** What others do to a process in a pause. */
  function Meanwhile(killed: bool, reaped: bool): seq<Event> {
    (if killed then [Sent(KILL)] else []) + (if reaped then [Reaped] else [])
  }

  /** What a running process gets from its cleanup: TERM, and after the pause KILL unless it was reaped
      in it; it is reaped exactly once. */
  function Stopping(killed: bool, reaped: bool): seq<Event> {
    [Sent(TERM)] + Meanwhile(killed, reaped) + (if reaped then [] else [Sent(KILL), Reaped])
  }

  /** Nothing follows the reaping of a process. */
  ghost predicate Orderly(events: seq<Event>) {
    forall i :: 0 <= i < |events| - 1 ==> events[i] != Reaped
  }

  lemma OrderlyStep(events: seq<Event>, e: Event)
    requires Orderly(events) && Reaped !in events
    ensures Orderly(events + [e])
  {
  }

  /** Cleanup of one command: a running process is stopped, whatever it was sent before, and anything
      else is left alone. */
  twostate predicate Stopped(c: Cmd)
    reads c
  {
    && c.started == old(c.started)
    && (if old(c.started && !c.waited) then
          c.waited && exists killed, reaped :: c.events == old(c.events) + Stopping(killed, reaped)
        else c.waited == old(c.waited) && c.events == old(c.events))
  }

  /** The files and processes that pid files name. */
  class World {
    var files: map<string, string>
    var log: seq<(int, Signal)>

    constructor (files: map<string, string>)
      ensures this.files == files && log == []
    {
      this.files, log := files, [];
    }
  }

  /** The pid a readable pid file holds. */
  function PidIn(files: map<string, string>, path: string): Option<int> {
    if path in files then Atoi(TrimSpace(files[path])) else None
  }

  function PidSignals(files: map<string, string>, path: string): seq<(int, Signal)> {
    var pid := PidIn(files, path);
    if pid.Some? then [(pid.value, TERM), (pid.value, KILL)] else []
  }

  /** The signals of cleaning a list of pid files, each file gone after its turn. */
  function AllSignals(files: map<string, string>, paths: seq<string>): seq<(int, Signal)>
    decreases |paths|
  {
    if paths == [] then [] else PidSignals(files, paths[0]) + AllSignals(files - {paths[0]}, paths[1..])
  }

  function Names(paths: seq<string>): set<string> {
    set p | p in paths
  }

  lemma NamesAppend(paths: seq<string>, p: string)
    ensures Names(paths + [p]) == Names(paths) + {p}
  {
  }

  lemma RemoveBoth(files: map<string, string>, names: set<string>, p: string)
    ensures files - names - {p} == files - (names + {p})
  {
  }

  /** One more pid file: what it held after the ones before were removed. */
  lemma {:induction false} SignalsAppend(files: map<string, string>, paths: seq<string>, p: string)
    ensures AllSignals(files, paths + [p]) == AllSignals(files, paths) + PidSignals(files - Names(paths), p)
    decreases |paths|
  {
    if paths == [] {
      assert [] + [p] == [p] && [p][1..] == [];
      assert files - Names([]) == files;
    } else {
      var rest := files - {paths[0]};
      assert (paths + [p])[1..] == paths[1..] + [p];
      SignalsAppend(rest, paths[1..], p);
      assert Names(paths) == {paths[0]} + Names(paths[1..]);
      assert rest - Names(paths[1..]) == files - Names(paths);
      Assoc(PidSignals(files, paths[0]), AllSignals(rest, paths[1..]), PidSignals(files - Names(paths), p));
    }
  }

  class ProcessManager {
    var processes: seq<Cmd>
    var pidFiles: seq<string>
    var cancelled: bool
    const os: World

    constructor (os: World)
      ensures this.os == os && processes == [] && pidFiles == [] && !cancelled
    {
      this.os := os;
      processes, pidFiles, cancelled := [], [], false;
    }

    method AddProcess(cmd: Cmd)
      modifies this`processes
      ensures processes == old(processes) + [cmd]
    {
      processes := processes + [cmd];
    }

    method AddPIDFile(pidFile: string)
      modifies this`pidFiles
      ensures pidFiles == old(pidFiles) + [pidFile]
    {
      pidFiles := pidFiles + [pidFile];
    }

    method CleanupPIDFile(pidFile: string)
      modifies os
      ensures os.files == old(os.files) - {pidFile}
      ensures os.log == old(os.log) + PidSignals(old(os.files), pidFile)
    {
      if pidFile in os.files {
        var pid := Atoi(TrimSpace(os.files[pidFile]));
        if pid.Some? {
          os.log := os.log + [(pid.value, TERM)];
          os.log := os.log + [(pid.value, KILL)];
        }
      }
      os.files := os.files - {pidFile};
    }

    method StopProcess(cmd: Cmd)
      requires cmd.Valid()
      modifies cmd
      ensures cmd.Valid() && Stopped(cmd)
    {
      if cmd.started {
        ghost var running, first := !cmd.waited, cmd.events;
        cmd.Send(TERM);
        cmd.Sleep();
        ghost var reaped := cmd.waited;
        if !cmd.waited {
          cmd.Send(KILL);
        }
        cmd.Wait();
        if running {
          ghost var killed :| cmd.events == first + [Sent(TERM)] + Meanwhile(killed, reaped) + (if reaped then [] else [Sent(KILL), Reaped]);
          assert cmd.events == first + Stopping(killed, reaped);
        }
      }
    }

    /** The first loop of CleanupAll. */
    method CleanPIDFiles()
      modifies os
      ensures os.files == old(os.files) - Names(pidFiles)
      ensures os.log == old(os.log) + AllSignals(old(os.files), pidFiles)
    {
      var i := 0;
      while i < |pidFiles|
        invariant 0 <= i <= |pidFiles|
        invariant os.files == old(os.files) - Names(pidFiles[..i])
        invariant os.log == old(os.log) + AllSignals(old(os.files), pidFiles[..i])
      {
        assert pidFiles[..i + 1] == pidFiles[..i] + [pidFiles[i]];
        NamesAppend(pidFiles[..i], pidFiles[i]);
        SignalsAppend(old(os.files), pidFiles[..i], pidFiles[i]);
        Assoc(old(os.log), AllSignals(old(os.files), pidFiles[..i]), PidSignals(os.files, pidFiles[i]));
        RemoveBoth(old(os.files), Names(pidFiles[..i]), pidFiles[i]);
        CleanupPIDFile(pidFiles[i]);
        i := i + 1;
      }
      assert pidFiles[..|pidFiles|] == pidFiles;
    }

    /** The second loop of CleanupAll. */
    method StopProcesses()
      requires forall c :: c in processes ==> c.Valid()
      modifies processes
      ensures forall c :: c in processes ==> c.Valid() && Stopped(c)
    {
      var i := 0;
      while i < |processes|
        invariant 0 <= i <= |processes|
        invariant forall c :: c in processes ==> c.Valid()
        invariant forall c :: c in processes[..i] ==> Stopped(c)
        invariant forall c :: c in processes && c !in processes[..i] ==> unchanged(c)
      {
        var c := processes[i];
        assert processes[..i + 1] == processes[..i] + [c];
        ghost var started, waited, events := c.started, c.waited, c.events;
        StopProcess(c);
        assert c.started == started && ((!started || waited) ==> c.waited == waited && c.events == events);
        assert Stopped(c);
        i := i + 1;
      }
      assert processes[..|processes|] == processes;
    }

    /** For every history of registrations, duplicates included. */
    method CleanupAll()
      requires forall c :: c in processes ==> c.Valid()
      modifies this`cancelled, os, processes
      ensures cancelled
      ensures os.files == old(os.files) - Names(pidFiles)
      ensures os.log == old(os.log) + AllSignals(old(os.files), pidFiles)
      ensures forall c :: c in processes ==> c.Valid() && Stopped(c)
    {
      cancelled := true;
      CleanPIDFiles();
      StopProcesses();
    }
  }

  // ----- What a pid file says -----

  /** A pid file that holds a pid and any space around it, such as the final newline, brings TERM and
      then KILL to that process. */
  lemma PidFileIsRead(files: map<string, string>, path: string, pid: int)
    requires path in files && Pads(files[path], Decimal(pid)) && InInt64(pid)
    ensures PidSignals(files, path) == [(pid, TERM), (pid, KILL)]
  {
    PaddedNumber(files[path], pid);
  }

  /** One that is missing, or holds anything but space, digits and signs, brings no signal. */
  lemma OtherFilesAreNot(files: map<string, string>, path: string, c: char)
    requires path in files ==> c in files[path] && !AllSpace([c]) && !('0' <= c <= '9') && c != '-' && c != '+'
    ensures PidSignals(files, path) == []
  {
    if path in files {
      JunkIsNoNumber(files[path], c);
    }
  }

  // ----- What the signals of a cleanup amount to -----

  /** A file that is gone, or not listed, brings no signal. */
  lemma {:induction false} SignalsComeFromFiles(files: map<string, string>, paths: seq<string>, pid: int)
    requires forall p :: p in paths ==> PidIn(files, p) != Some(pid)
    ensures (pid, TERM) !in AllSignals(files, paths) && (pid, KILL) !in AllSignals(files, paths)
    decreases |paths|
  {
    if paths != [] {
      assert paths[0] in paths;
      forall p | p in paths[1..] ensures PidIn(files - {paths[0]}, p) != Some(pid) {
        assert p in paths;
      }
      SignalsComeFromFiles(files - {paths[0]}, paths[1..], pid);
    }
  }

  /** Positions of a signal in a log. */
  function Count(log: seq<(int, Signal)>, e: (int, Signal)): nat {
    if log == [] then 0 else (if log[0] == e then 1 else 0) + Count(log[1..], e)
  }

  lemma {:induction false} CountAppend(a: seq<(int, Signal)>, b: seq<(int, Signal)>, e: (int, Signal))
    ensures Count(a + b, e) == Count(a, e) + Count(b, e)
  {
    if a == [] {
      assert a + b == b;
    } else {
      assert (a + b)[1..] == a[1..] + b;
      CountAppend(a[1..], b, e);
    }
  }

  lemma {:induction false} CountNone(log: seq<(int, Signal)>, e: (int, Signal))
    requires e !in log
    ensures Count(log, e) == 0
  {
    if log != [] {
      CountNone(log[1..], e);
    }
  }

  /** However often a pid file is registered, the process it names gets TERM and KILL exactly once,
      unless another listed file names the same process. */
  lemma {:induction false} EachPidOnce(files: map<string, string>, paths: seq<string>, path: string, pid: int)
    requires path in paths && PidIn(files, path) == Some(pid)
    requires forall p :: p in paths && p != path ==> PidIn(files, p) != Some(pid)
    ensures Count(AllSignals(files, paths), (pid, TERM)) == 1 && Count(AllSignals(files, paths), (pid, KILL)) == 1
    decreases |paths|
  {
    var head, rest := PidSignals(files, paths[0]), AllSignals(files - {paths[0]}, paths[1..]);
    CountAppend(head, rest, (pid, TERM));
    CountAppend(head, rest, (pid, KILL));
    assert forall p :: p in paths[1..] ==> p in paths;
    if paths[0] == path {
      assert head[1..] == [(pid, KILL)] && head[1..][1..] == [];
      forall p | p in paths[1..] ensures PidIn(files - {path}, p) != Some(pid) {
      }
      SignalsComeFromFiles(files - {path}, paths[1..], pid);
      CountNone(rest, (pid, TERM));
      CountNone(rest, (pid, KILL));
    } else {
      assert paths[0] in paths;
      CountNone(head, (pid, TERM));
      CountNone(head, (pid, KILL));
      EachPidOnce(files - {paths[0]}, paths[1..], path, pid);
    }
  }

  /** A second cleanup signals nobody. */
  lemma {:induction false} CleanupTwiceIsQuiet(files: map<string, string>, paths: seq<string>)
    requires forall p :: p in paths ==> p !in files
    ensures AllSignals(files, paths) == []
    decreases |paths|
  {
    if paths != [] {
      assert paths[0] in paths && forall p :: p in paths[1..] ==> p in paths;
      CleanupTwiceIsQuiet(files - {paths[0]}, paths[1..]);
    }
  }
}
