/** What ensuring, running and tearing down amount to. */
module OrchestratorProofs {
  import opened Sequences
  import opened Jobs
  import opened Orchestrator

  // ----- Lists of names -----

  lemma {:induction false} MissingIds(windows: seq<string>, jobs: seq<Job>, id: string)
    ensures id in Ids(Missing(windows, jobs)) <==> id in Ids(jobs) && id !in windows
  {
    if jobs != [] {
      MissingIds(windows, jobs[1..], id);
      var rest := Missing(windows, jobs[1..]);
      if jobs[0].id in windows {
        assert Missing(windows, jobs) == rest;
      } else {
        assert Missing(windows, jobs)[1..] == rest;
      }
    }
  }

  lemma {:induction false} StayingIds(tmux: Tmux, jobs: seq<Job>, id: string)
    ensures id in Ids(Staying(tmux, jobs)) ==> id in Ids(jobs)
  {
    if jobs != [] {
      StayingIds(tmux, jobs[1..], id);
      StayingStep(tmux, jobs[0], jobs[1..]);
      assert jobs == [jobs[0]] + jobs[1..];
    }
  }

  lemma {:induction false} AllStay(tmux: Tmux, jobs: seq<Job>)
    requires forall j :: j in jobs ==> tmux.Keeps(j)
    ensures Staying(tmux, jobs) == jobs
  {
    if jobs != [] {
      AllStay(tmux, jobs[1..]);
      assert jobs == [jobs[0]] + jobs[1..];
    }
  }

  lemma {:induction false} DistinctMissing(windows: seq<string>, jobs: seq<Job>)
    requires Distinct(Ids(jobs))
    ensures Distinct(Ids(Missing(windows, jobs)))
  {
    if jobs != [] {
      DistinctTail(jobs);
      DistinctMissing(windows, jobs[1..]);
      var rest := Missing(windows, jobs[1..]);
      if jobs[0].id in windows {
        assert Missing(windows, jobs) == rest;
      } else {
        assert Missing(windows, jobs)[1..] == rest;
        MissingIds(windows, jobs[1..], jobs[0].id);
        DistinctPrepend(jobs[0].id, Ids(rest));
      }
    }
  }

  lemma DistinctTail(jobs: seq<Job>)
    requires jobs != [] && Distinct(Ids(jobs))
    ensures jobs[0].id !in Ids(jobs[1..]) && Distinct(Ids(jobs[1..]))
  {
    assert Ids(jobs) == [jobs[0].id] + Ids(jobs[1..]);
    DistinctPrepend(jobs[0].id, Ids(jobs[1..]));
  }

  lemma {:induction false} DistinctStaying(tmux: Tmux, jobs: seq<Job>)
    requires Distinct(Ids(jobs))
    ensures Distinct(Ids(Staying(tmux, jobs)))
  {
    if jobs != [] {
      DistinctTail(jobs);
      DistinctStaying(tmux, jobs[1..]);
      StayingStep(tmux, jobs[0], jobs[1..]);
      assert jobs == [jobs[0]] + jobs[1..];
      if tmux.Keeps(jobs[0]) {
        StayingIds(tmux, jobs[1..], jobs[0].id);
        DistinctPrepend(jobs[0].id, Ids(Staying(tmux, jobs[1..])));
      }
    }
  }

  /** Two lists of distinct names that share none. */
  lemma DistinctAppend(a: seq<string>, b: seq<string>)
    requires Distinct(a) && forall x :: x in a ==> x !in b
    ensures Distinct(a + b) <==> Distinct(b)
  {
    if Distinct(b) {
      forall i, j | 0 <= i < j < |a + b| ensures (a + b)[i] != (a + b)[j] {
        if i < |a| <= j {
          assert a[i] in a && b[j - |a|] in b;
        }
      }
    } else {
      var i, j :| 0 <= i < j < |b| && b[i] == b[j];
      assert (a + b)[|a| + i] == (a + b)[|a| + j];
    }
  }

  // ----- The ensure phase -----

  function Ensured(windows: seq<string>, jobs: seq<Job>): seq<string> {
    windows + Ids(Missing(windows, jobs))
  }

  /** When every command stays up, the ensure phase keeps the windows that were there, in place, and
      afterwards the windows are those and the jobs'. Ensuring again creates nothing. */
  lemma EnsureMeetsTheJobs(tmux: Tmux, windows: seq<string>, jobs: seq<Job>)
    requires forall j :: j in jobs ==> tmux.Keeps(j)
    ensures windows + Ids(Staying(tmux, Missing(windows, jobs))) == Ensured(windows, jobs)
    ensures windows <= Ensured(windows, jobs)
    ensures forall w :: w in Ensured(windows, jobs) <==> w in windows || w in Ids(jobs)
    ensures Missing(Ensured(windows, jobs), jobs) == []
  {
    forall j | j in Missing(windows, jobs) ensures tmux.Keeps(j) {
      MissingAreJobs(windows, jobs, j);
    }
    AllStay(tmux, Missing(windows, jobs));
    forall w ensures w in Ensured(windows, jobs) <==> w in windows || w in Ids(jobs) {
      MissingIds(windows, jobs, w);
    }
    NoneMissing(Ensured(windows, jobs), jobs);
  }

  lemma {:induction false} MissingAreJobs(windows: seq<string>, jobs: seq<Job>, j: Job)
    requires j in Missing(windows, jobs)
    ensures j in jobs
  {
    if j != jobs[0] {
      MissingAreJobs(windows, jobs[1..], j);
    }
  }

  lemma {:induction false} NoneMissing(windows: seq<string>, jobs: seq<Job>)
    requires forall id :: id in Ids(jobs) ==> id in windows
    ensures Missing(windows, jobs) == []
  {
    if jobs != [] {
      assert Ids(jobs)[0] == jobs[0].id && Ids(jobs)[1..] == Ids(jobs[1..]);
      NoneMissing(windows, jobs[1..]);
    }
  }

  /** Whichever windows stay, no name comes to exist twice exactly when no missing job that stays is
      listed twice; distinct jobs are enough. */
  lemma EnsureCreatesOnce(tmux: Tmux, windows: seq<string>, jobs: seq<Job>)
    requires Distinct(windows)
    ensures var created := Ids(Staying(tmux, Missing(windows, jobs)));
      && (Distinct(windows + created) <==> Distinct(created))
      && (Distinct(Ids(jobs)) ==> Distinct(windows + created))
  {
    var created := Ids(Staying(tmux, Missing(windows, jobs)));
    forall x | x in windows ensures x !in created {
      StayingIds(tmux, Missing(windows, jobs), x);
      MissingIds(windows, jobs, x);
    }
    DistinctAppend(windows, created);
    if Distinct(Ids(jobs)) {
      DistinctMissing(windows, jobs);
      DistinctStaying(tmux, Missing(windows, jobs));
    }
  }

  // ----- Teardown -----

  lemma {:induction false} RemovedIsWithout(windows: seq<string>, name: string)
    requires Distinct(windows)
    ensures Removed(windows, name) == Without(windows, [name]) && Distinct(Removed(windows, name))
    ensures forall w :: w in Removed(windows, name) ==> w in windows
  {
    if windows != [] {
      assert windows == [windows[0]] + windows[1..];
      DistinctPrepend(windows[0], windows[1..]);
      if windows[0] == name {
        WithoutAbsent(windows[1..], [name]);
      } else {
        RemovedIsWithout(windows[1..], name);
        DistinctPrepend(windows[0], Removed(windows[1..], name));
      }
    }
  }

  lemma {:induction false} WithoutAbsent(windows: seq<string>, names: seq<string>)
    requires forall n :: n in names ==> n !in windows
    ensures Without(windows, names) == windows
  {
    if windows != [] {
      assert windows == [windows[0]] + windows[1..];
      WithoutAbsent(windows[1..], names);
    }
  }

  lemma {:induction false} WithoutTwice(windows: seq<string>, name: string, names: seq<string>)
    ensures Without(Without(windows, [name]), names) == Without(windows, [name] + names)
  {
    if windows != [] {
      WithoutTwice(windows[1..], name, names);
      var w, rest := windows[0], Without(windows[1..], [name]);
      assert w in [name] + names <==> w == name || w in names;
      if w == name {
        assert Without(windows, [name]) == rest;
      } else {
        assert Without(windows, [name])[1..] == rest;
      }
    }
  }

  /** Killing the named windows one by one leaves those that are not named. */
  lemma {:induction false} KillingIsFiltering(windows: seq<string>, names: seq<string>)
    requires Distinct(windows)
    ensures AllRemoved(windows, names) == Without(windows, names)
    decreases |names|
  {
    if names == [] {
      WithoutAbsent(windows, names);
    } else {
      RemovedIsWithout(windows, names[0]);
      KillingIsFiltering(Removed(windows, names[0]), names[1..]);
      WithoutTwice(windows, names[0], names[1..]);
      assert names == [names[0]] + names[1..];
    }
  }

  lemma {:induction false} WithoutAppend(a: seq<string>, b: seq<string>, names: seq<string>)
    ensures Without(a + b, names) == Without(a, names) + Without(b, names)
  {
    if a == [] {
      assert a + b == b;
    } else {
      assert (a + b)[1..] == a[1..] + b;
      WithoutAppend(a[1..], b, names);
    }
  }

  lemma {:induction false} WithoutAll(windows: seq<string>, names: seq<string>)
    requires forall w :: w in windows ==> w in names
    ensures Without(windows, names) == []
  {
    if windows != [] {
      WithoutAll(windows[1..], names);
    }
  }

  lemma {:induction false} WithoutShorter(windows: seq<string>, names: seq<string>)
    ensures |Without(windows, names)| <= |windows|
    ensures Without(windows, names) == windows ==> forall n :: n in names ==> n !in windows
  {
    if windows != [] {
      WithoutShorter(windows[1..], names);
      if windows[0] !in names && Without(windows, names) == windows {
        assert Without(windows, names)[1..] == Without(windows[1..], names);
      }
    }
  }

  /** Ensuring and then tearing down leaves the windows of before that no job is named after, even if
      some commands did not stay up. So a window that was there before is closed as well if a job has
      its name; only if none has are the windows as they were. */
  lemma TeardownUndoesEnsure(tmux: Tmux, windows: seq<string>, jobs: seq<Job>)
    requires Distinct(windows) && Distinct(Ids(jobs))
    ensures AllRemoved(windows + Ids(Staying(tmux, Missing(windows, jobs))), Ids(jobs)) == Without(windows, Ids(jobs))
    ensures Without(windows, Ids(jobs)) == windows <==> forall id :: id in Ids(jobs) ==> id !in windows
  {
    var created := Ids(Staying(tmux, Missing(windows, jobs)));
    DistinctMissing(windows, jobs);
    DistinctStaying(tmux, Missing(windows, jobs));
    forall id | id in created ensures id in Ids(jobs) && id !in windows {
      StayingIds(tmux, Missing(windows, jobs), id);
      MissingIds(windows, jobs, id);
    }
    DistinctAppend(windows, created);
    KillingIsFiltering(windows + created, Ids(jobs));
    WithoutAppend(windows, created, Ids(jobs));
    WithoutAll(created, Ids(jobs));
    WithoutShorter(windows, Ids(jobs));
    if forall id :: id in Ids(jobs) ==> id !in windows {
      WithoutAbsent(windows, Ids(jobs));
    }
  }

  // ----- The foreground command -----

  lemma {:induction false} FilteredIds(jobs: seq<Job>, name: string, id: string)
    ensures id in Ids(Filtered(jobs, name)) <==> id in Ids(jobs) && id != name
  {
    if jobs != [] {
      FilteredIds(jobs[1..], name, id);
      var rest := Filtered(jobs[1..], name);
      if jobs[0].id == name {
        assert Filtered(jobs, name) == rest;
      } else {
        assert Filtered(jobs, name)[1..] == rest;
      }
    }
  }

  lemma {:induction false} DistinctFiltered(jobs: seq<Job>, name: string)
    requires Distinct(Ids(jobs))
    ensures Distinct(Ids(Filtered(jobs, name)))
  {
    if jobs != [] {
      DistinctTail(jobs);
      DistinctFiltered(jobs[1..], name);
      var rest := Filtered(jobs[1..], name);
      if jobs[0].id == name {
        assert Filtered(jobs, name) == rest;
      } else {
        assert Filtered(jobs, name)[1..] == rest;
        FilteredIds(jobs[1..], name, jobs[0].id);
        DistinctPrepend(jobs[0].id, Ids(rest));
      }
    }
  }

  lemma {:induction false} JobsOfAt(paths: seq<string>, resolve: string -> Option<string>, i: nat)
    requires i < |paths| && JobsOf(paths, resolve).Some?
    ensures |JobsOf(paths, resolve).value| == |paths|
    ensures JobsOf(paths, resolve).value[i].id == LastPart(paths[i])
    ensures resolve(paths[i]) == Some(JobsOf(paths, resolve).value[i].command)
  {
    if |paths| > 1 {
      JobsOfAt(Front(paths), resolve, if i < |paths| - 1 then i else 0);
    }
  }

  lemma {:induction false} IdsOfJobs(paths: seq<string>, resolve: string -> Option<string>)
    requires JobsOf(paths, resolve).Some?
    ensures Ids(JobsOf(paths, resolve).value) == Names(paths)
  {
    if paths != [] {
      IdsOfJobs(Front(paths), resolve);
      var front := JobsOf(Front(paths), resolve).value;
      IdsAppend(front, Last(JobsOf(paths, resolve).value));
      assert Names(paths) == Names(Front(paths)) + [LastPart(Last(paths))];
    }
  }

  lemma {:induction false} IdsAppend(jobs: seq<Job>, job: Job)
    ensures Ids(jobs + [job]) == Ids(jobs) + [job.id]
  {
    if jobs != [] {
      IdsAppend(jobs[1..], job);
      assert (jobs + [job])[1..] == jobs[1..] + [job];
    }
  }

  /** `--run` with the name of a job: the foreground command is that job's own, and that job is the
      one which is not ensured. Resolving an absolute path gives it back. */
  lemma RunByName(paths: seq<string>, resolve: string -> Option<string>, i: nat)
    requires i < |paths| && JobsOf(paths, resolve).Some? && Distinct(Names(paths))
    requires forall p :: p != "" && p[0] == '/' ==> resolve(p) == Some(p)
    ensures var jobs, run := JobsOf(paths, resolve).value, LastPart(paths[i]);
      (&& i < |jobs| && RunCommand(run, ByName(paths), resolve) == Some(jobs[i].command)
       && RunWindow(run, jobs) == run && Distinct(Ids(jobs))
       && forall id :: id in Ids(Filtered(jobs, run)) <==> id in Ids(jobs) && id != run)
  {
    var jobs, run := JobsOf(paths, resolve).value, LastPart(paths[i]);
    JobsOfAt(paths, resolve, i);
    IdsOfJobs(paths, resolve);
    ByNameFinds(paths);
    LastPartIsPlain(paths[i]);
    forall id ensures id in Ids(Filtered(jobs, run)) <==> id in Ids(jobs) && id != run {
      FilteredIds(jobs, run, id);
    }
  }

  /** `--run` with a path whose last part is the name of a job: that job is not ensured, and the
      foreground command is what the path itself resolves to. With the job's own path, as qemu_vm
      passes it, this is again the job's own command. */
  lemma RunByPath(paths: seq<string>, resolve: string -> Option<string>, run: string, i: nat)
    requires i < |paths| && JobsOf(paths, resolve).Some? && '/' in run && LastPart(run) == LastPart(paths[i])
    requires forall p :: p != "" && p[0] == '/' ==> resolve(p) == Some(p)
    ensures var jobs := JobsOf(paths, resolve).value;
      (&& RunWindow(run, jobs) == LastPart(paths[i])
       && RunCommand(run, ByName(paths), resolve) == resolve(run)
       && i < |jobs| && (run == paths[i] ==> resolve(run) == Some(jobs[i].command))
       && LastPart(run) !in Ids(Filtered(jobs, LastPart(run))))
  {
    var jobs := JobsOf(paths, resolve).value;
    JobsOfAt(paths, resolve, i);
    IdsOfJobs(paths, resolve);
    assert Names(paths)[i] in Names(paths);
    FilteredIds(jobs, LastPart(run), LastPart(run));
  }

  /** The first job keeps a new session up. */
  predicate StartsSession(tmux: Tmux, jobs: seq<Job>) {
    jobs == [] || tmux.Keeps(jobs[0])
  }

  /** An absolute path runs as it is, and a name or path that neither is a job's nor resolves ends the
      program after the ensure phase, with all its windows left. */
  lemma RunOther(tmux: Tmux, windows: seq<string>, jobs: seq<Job>, allJobs: map<string, string>, run: string,
                 attach: bool, resolve: string -> Option<string>)
    requires run != "" && (windows != [] || StartsSession(tmux, Filtered(jobs, RunWindow(run, jobs))))
    ensures var (outcome, after) := Final(tmux, windows, jobs, allJobs, run, attach, resolve);
      && (run[0] == '/' ==> outcome == Ran(run))
      && (run[0] != '/' && ('/' in run || run !in allJobs) && resolve(run).Some? ==> outcome == Ran(resolve(run).value))
      && (run[0] != '/' && ('/' in run || run !in allJobs) && resolve(run).None? ==>
          outcome == Failed && after == windows + Ids(Staying(tmux, Missing(windows, Filtered(jobs, RunWindow(run, jobs))))))
  {
  }

  /** A session that cannot be created ends the program at once. */
  lemma NoSession(tmux: Tmux, jobs: seq<Job>, allJobs: map<string, string>, run: string, attach: bool,
                  resolve: string -> Option<string>)
    requires run == "" && jobs != [] && !tmux.Keeps(jobs[0])
    ensures Final(tmux, [], jobs, allJobs, run, attach, resolve) == (Failed, [])
  {
  }

  /** Without `--run` every job is ensured and the windows stay; the program attaches or not as asked. */
  lemma WithoutRun(tmux: Tmux, windows: seq<string>, jobs: seq<Job>, allJobs: map<string, string>, attach: bool,
                   resolve: string -> Option<string>)
    requires windows != [] || StartsSession(tmux, jobs)
    ensures var (outcome, after) := Final(tmux, windows, jobs, allJobs, "", attach, resolve);
      && after == windows + Ids(Staying(tmux, Missing(windows, jobs)))
      && (attach ==> outcome == Attached) && (!attach ==> outcome == Detached)
  {
  }

  /** `--run` with a job's name, from start to end: the job's command runs, and what is left are the
      windows of before that no other job is named after. */
  lemma RunLeavesOthers(tmux: Tmux, windows: seq<string>, paths: seq<string>, resolve: string -> Option<string>,
                        i: nat, attach: bool)
    requires i < |paths| && JobsOf(paths, resolve).Some? && Distinct(Names(paths)) && Distinct(windows)
    requires forall p :: p != "" && p[0] == '/' ==> resolve(p) == Some(p)
    requires LastPart(paths[i]) != ""
    requires windows != [] || StartsSession(tmux, Filtered(JobsOf(paths, resolve).value, LastPart(paths[i])))
    ensures var jobs, run := JobsOf(paths, resolve).value, LastPart(paths[i]);
      (&& |jobs| == |paths|
       && Final(tmux, windows, jobs, ByName(paths), run, attach, resolve)
          == (Ran(jobs[i].command), Without(windows, Ids(Filtered(jobs, run)))))
  {
    var jobs, run := JobsOf(paths, resolve).value, LastPart(paths[i]);
    JobsOfAt(paths, resolve, i);
    RunByName(paths, resolve, i);
    DistinctFiltered(jobs, run);
    TeardownUndoesEnsure(tmux, windows, Filtered(jobs, run));
  }
}
