/** orchestrator/main.go: ensuring the jobs in a tmux session, the foreground command, and teardown. */
module Orchestrator {
  import opened Sequences
  import opened Jobs

  function Ids(jobs: seq<Job>): (ids: seq<string>)
    ensures |ids| == |jobs|
  {
    if jobs == [] then [] else [jobs[0].id] + Ids(jobs[1..])
  }

  /** The jobs whose windows are not there yet. */
  function Missing(windows: seq<string>, jobs: seq<Job>): seq<Job> {
    if jobs == [] then []
    else (if jobs[0].id in windows then [] else [jobs[0]]) + Missing(windows, jobs[1..])
  }

  /** How tmux and the commands behave: which windows tmux opens, and which commands keep their window
      open for longer than the pause after its creation. */
  datatype Tmux = Tmux(opens: Job -> bool, stays: Job -> bool) {
    predicate Keeps(job: Job) {
      opens(job) && stays(job)
    }
  }

  /** The jobs whose window opens and stays. */
  function Staying(tmux: Tmux, jobs: seq<Job>): seq<Job> {
    if jobs == [] then []
    else (if tmux.Keeps(jobs[0]) then [jobs[0]] else []) + Staying(tmux, jobs[1..])
  }

  /** The list without the first occurrence of a name. */
  function Removed(windows: seq<string>, name: string): seq<string> {
    if windows == [] then []
    else if windows[0] == name then windows[1..]
    else [windows[0]] + Removed(windows[1..], name)
  }

  function AllRemoved(windows: seq<string>, names: seq<string>): seq<string>
    decreases |names|
  {
    if names == [] then windows else AllRemoved(Removed(windows, names[0]), names[1..])
  }

  function Without(windows: seq<string>, names: seq<string>): seq<string> {
    if windows == [] then []
    else (if windows[0] in names then [] else [windows[0]]) + Without(windows[1..], names)
  }

  /** A tmux session as the orchestrator sees it. */
  class TmuxSession {
    const tmux: Tmux
    var alive: bool
    var windows: seq<string>

    constructor (tmux: Tmux, windows: seq<string>)
      ensures this.tmux == tmux && this.windows == windows && Valid()
    {
      this.tmux, this.windows, alive := tmux, windows, windows != [];
    }

    /** tmux ends a session with its last window. */
    ghost predicate Valid() reads this {
      alive == (windows != [])
    }

    method HasWindow(name: string) returns (found: bool)
      ensures found <==> name in windows
    {
      found := false;
      for i := 0 to |windows|
        invariant !found && name !in windows[..i]
      {
        assert windows[..i + 1] == windows[..i] + [windows[i]];
        if windows[i] == name {
          return true;
        }
      }
      assert windows[..|windows|] == windows;
    }

    method Create(job: Job) returns (ok: bool)
      requires Valid() && !alive
      modifies this
      ensures Valid() && ok == tmux.Keeps(job) && windows == (if ok then [job.id] else [])
    {
      if !tmux.opens(job) {
        return false;
      }
      if tmux.stays(job) {
        windows := [job.id];
        alive := true;
      }
      ok := HasWindow(job.id);
    }

    /** An error is reported when tmux does not open the window, and when no window of the name is left,
        which is not quite when the new one has gone. */
    method CreateWindow(job: Job) returns (ok: bool)
      requires Valid() && alive
      modifies this
      ensures Valid() && alive && windows == old(windows) + if tmux.Keeps(job) then [job.id] else []
      ensures ok <==> tmux.opens(job) && (tmux.stays(job) || job.id in old(windows))
    {
      if !tmux.opens(job) {
        assert windows + [] == windows;
        return false;
      }
      if tmux.stays(job) {
        windows := windows + [job.id];
      }
      ok := HasWindow(job.id);
    }

    method KillWindow(name: string)
      requires Valid()
      modifies this
      ensures Valid() && windows == Removed(old(windows), name)
    {
      windows := Removed(windows, name);
      alive := windows != [];
    }

    /** The branch for a session that exists: only what its first listing lacks is created. */
    method EnsureInSession(jobs: seq<Job>)
      requires Valid() && alive
      modifies this
      ensures Valid() && alive && windows == old(windows) + Ids(Staying(tmux, Missing(old(windows), jobs)))
    {
      ghost var before := windows;
      var existing := windows;
      ghost var all := Ids(Staying(tmux, Missing(existing, jobs)));
      for i := 0 to |jobs|
        invariant Valid() && alive
        invariant windows + Ids(Staying(tmux, Missing(existing, jobs[i..]))) == before + all
      {
        ghost var was := windows;
        EnsureStep(tmux, existing, jobs, i);
        if jobs[i].id !in existing {
          var ok := CreateWindow(jobs[i]);
        }
        Assoc(was, Created(tmux, existing, jobs[i]), Ids(Staying(tmux, Missing(existing, jobs[i + 1..]))));
      }
      assert windows + [] == windows;
    }

    /** The branch without a session: the first job creates it, the others are created unchecked. */
    method EnsureNewSession(jobs: seq<Job>) returns (ok: bool)
      requires Valid() && !alive && jobs != []
      modifies this
      ensures Valid() && ok == tmux.Keeps(jobs[0])
      ensures windows == if ok then Ids(Staying(tmux, jobs)) else []
    {
      ok := Create(jobs[0]);
      if !ok {
        return;
      }
      StayingStep(tmux, jobs[0], jobs[1..]);
      assert jobs == [jobs[0]] + jobs[1..];
      for i := 1 to |jobs|
        invariant Valid() && alive
        invariant windows + Ids(Staying(tmux, jobs[i..])) == Ids(Staying(tmux, jobs))
      {
        ghost var was := windows;
        StayingStep(tmux, jobs[i], jobs[i + 1..]);
        assert jobs[i..] == [jobs[i]] + jobs[i + 1..];
        var created := CreateWindow(jobs[i]);
        Assoc(was, if tmux.Keeps(jobs[i]) then [jobs[i].id] else [], Ids(Staying(tmux, jobs[i + 1..])));
      }
      assert windows + [] == windows;
    }

    /** The ensure phase. Only a session that could not be created stops the program. */
    method Ensure(jobs: seq<Job>) returns (ok: bool)
      requires Valid()
      modifies this
      ensures Valid() && ok == (old(alive) || jobs == [] || tmux.Keeps(jobs[0]))
      ensures windows == if ok then old(windows) + Ids(Staying(tmux, Missing(old(windows), jobs))) else []
    {
      ok := true;
      if !alive && |jobs| > 0 {
        MissingAll(jobs);
        ok := EnsureNewSession(jobs);
        assert [] + windows == windows;
      } else if alive {
        EnsureInSession(jobs);
      }
    }

    method Teardown(jobs: seq<Job>)
      requires Valid()
      modifies this
      ensures Valid() && windows == AllRemoved(old(windows), Ids(jobs))
    {
      for i := 0 to |jobs|
        invariant Valid()
        invariant AllRemoved(windows, Ids(jobs[i..])) == AllRemoved(old(windows), Ids(jobs))
      {
        assert jobs[i..][1..] == jobs[i + 1..] && Ids(jobs[i..])[1..] == Ids(jobs[i + 1..]);
        KillWindow(jobs[i].id);
      }
    }
  }

  function Created(tmux: Tmux, windows: seq<string>, job: Job): seq<string> {
    if job.id !in windows && tmux.Keeps(job) then [job.id] else []
  }

  lemma StayingStep(tmux: Tmux, job: Job, jobs: seq<Job>)
    ensures Ids(Staying(tmux, [job] + jobs)) == (if tmux.Keeps(job) then [job.id] else []) + Ids(Staying(tmux, jobs))
  {
    assert ([job] + jobs)[1..] == jobs;
    var rest := Staying(tmux, jobs);
    if tmux.Keeps(job) {
      assert ([job] + rest)[1..] == rest;
    } else {
      assert [] + rest == rest;
    }
  }

  lemma EnsureStep(tmux: Tmux, windows: seq<string>, jobs: seq<Job>, i: nat)
    requires i < |jobs|
    ensures Ids(Staying(tmux, Missing(windows, jobs[i..])))
      == Created(tmux, windows, jobs[i]) + Ids(Staying(tmux, Missing(windows, jobs[i + 1..])))
  {
    assert jobs[i..][1..] == jobs[i + 1..];
    var rest := Missing(windows, jobs[i + 1..]);
    if jobs[i].id in windows {
      assert [] + rest == rest;
    } else {
      StayingStep(tmux, jobs[i], rest);
    }
  }

  lemma {:induction false} MissingAll(jobs: seq<Job>)
    ensures Missing([], jobs) == jobs
  {
    if jobs != [] {
      MissingAll(jobs[1..]);
      assert [jobs[0]] + jobs[1..] == jobs;
    }
  }

  // ----- The foreground command -----

  /** The window that `--run` names: the last part of a path if some job has that name. */
  function RunWindow(run: string, jobs: seq<Job>): string {
    if '/' in run && LastPart(run) in Ids(jobs) then LastPart(run) else run
  }

  function Filtered(jobs: seq<Job>, name: string): seq<Job> {
    if jobs == [] then []
    else (if jobs[0].id != name then [jobs[0]] else []) + Filtered(jobs[1..], name)
  }

  method FindRunWindow(run: string, jobs: seq<Job>) returns (runWindowName: string)
    ensures runWindowName == RunWindow(run, jobs)
  {
    runWindowName := run;
    if '/' in run {
      var possibleName := LastPart(run);
      for i := 0 to |jobs|
        invariant possibleName in Ids(jobs) <==> possibleName in Ids(jobs[i..])
      {
        assert jobs[i..][1..] == jobs[i + 1..];
        if jobs[i].id == possibleName {
          assert Ids(jobs[i..])[0] == possibleName;
          return possibleName;
        }
      }
    }
  }

  lemma {:induction false} FilteredStep(jobs: seq<Job>, job: Job, name: string)
    ensures Filtered(jobs + [job], name) == Filtered(jobs, name) + if job.id != name then [job] else []
  {
    if jobs == [] {
      assert [] + [job] == [job] && [job][1..] == [];
    } else {
      assert (jobs + [job])[1..] == jobs[1..] + [job];
      FilteredStep(jobs[1..], job, name);
    }
  }

  method FilterJobs(jobs: seq<Job>, run: string) returns (r: seq<Job>)
    ensures r == Filtered(jobs, RunWindow(run, jobs))
  {
    var runWindowName := FindRunWindow(run, jobs);
    var filtered: seq<Job> := [];
    for i := 0 to |jobs|
      invariant filtered == Filtered(jobs[..i], runWindowName)
    {
      FilteredStep(jobs[..i], jobs[i], runWindowName);
      assert jobs[..i + 1] == jobs[..i] + [jobs[i]];
      if jobs[i].id != runWindowName {
        filtered := filtered + [jobs[i]];
      }
    }
    assert jobs[..|jobs|] == jobs;
    FilteredShorter(jobs, runWindowName);
    r := if |filtered| < |jobs| then filtered else jobs;
  }

  /** Filtering that drops nothing changes nothing. */
  lemma {:induction false} FilteredShorter(jobs: seq<Job>, name: string)
    ensures |Filtered(jobs, name)| <= |jobs|
    ensures |Filtered(jobs, name)| == |jobs| ==> Filtered(jobs, name) == jobs
  {
    if jobs != [] {
      FilteredShorter(jobs[1..], name);
      assert jobs == [jobs[0]] + jobs[1..];
    }
  }

  /** The command that runs in the foreground, None if it does not resolve. */
  function RunCommand(run: string, allJobs: map<string, string>, resolve: string -> Option<string>): Option<string> {
    var path := if '/' !in run && run in allJobs then allJobs[run] else run;
    if path != "" && path[0] == '/' then Some(path) else resolve(path)
  }

  datatype Outcome = Failed | Attached | Detached | Ran(command: string)

  /** main, once the session name is known. Attaching to the session is left to tmux. */
  method Orchestrate(session: TmuxSession, dependencies: string, primary: string, run: string, attach: bool,
                     resolve: string -> Option<string>) returns (outcome: Outcome)
    requires session.Valid()
    modifies session
    ensures session.Valid()
    ensures var paths := Paths(dependencies) + [primary];
      var all := JobsOf(paths, resolve);
      (&& (primary == "" || all.None? ==> outcome == Failed && session.windows == old(session.windows))
       && (primary != "" && all.Some? ==>
           Final(session.tmux, old(session.windows), all.value, ByName(paths), run, attach, resolve) == (outcome, session.windows)))
  {
    var all, allJobs := ReadJobs(dependencies, primary, resolve);
    if all.None? {
      return Failed;
    }
    var jobs := all.value;
    if run != "" {
      jobs := FilterJobs(jobs, run);
    }
    var ok := session.Ensure(jobs);
    if !ok {
      return Failed;
    }
    if run != "" {
      var command := RunCommand(run, allJobs, resolve);
      if command.None? {
        return Failed;
      }
      session.Teardown(jobs);
      return Ran(command.value);
    }
    return if attach then Attached else Detached;
  }

  /** The outcome and the windows at the end. */
  function Final(tmux: Tmux, windows: seq<string>, all: seq<Job>, allJobs: map<string, string>,
                 run: string, attach: bool, resolve: string -> Option<string>): (Outcome, seq<string>)
  {
    var jobs := if run != "" then Filtered(all, RunWindow(run, all)) else all;
    var ensured := windows + Ids(Staying(tmux, Missing(windows, jobs)));
    if windows == [] && jobs != [] && !tmux.Keeps(jobs[0]) then (Failed, [])
    else if run == "" then (if attach then Attached else Detached, ensured)
    else
      var command := RunCommand(run, allJobs, resolve);
      if command.None? then (Failed, ensured) else (Ran(command.value), AllRemoved(ensured, Ids(jobs)))
  }
}
