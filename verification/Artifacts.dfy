/** The artifacts of runner/runner.go: disk, firmware variables and TPM state, made by build mode and
    kept by run mode. */
module Artifacts {
  import opened Sequences

  /** What a file holds, as far as the runner tells files apart. */
  datatype Content = Given(data: string) | Blank(size: string) | FreshTpm(serial: nat) | Guest(data: string)

  datatype File = File(content: Content, mtime: nat)

  type Files = map<string, File>

  /** `workDir` is absolute; empty paths are paths not set. */
  datatype Config = Config(workDir: string, ovmfVars: string, iso: string, diskSize: string, pristine: string)

  /** Which tools fail. A tool that fails leaves no file behind. */
  datatype Faults = Faults(qemuImg: bool, swtpmSetup: bool)

  function TpmDir(c: Config): string { c.workDir + "/tpm" }
  function DiskPath(c: Config): string { c.workDir + "/disk.img" }
  function VarsPath(c: Config): string { c.workDir + "/vars.fd" }
  function StateFile(dir: string): string { dir + "/tpm2-00.permall" }

  function Size(c: Config): string {
    if c.diskSize == "" then "50G" else c.diskSize
  }

  /** runner/utils.go. */
  predicate IsNewer(files: Files, src: string, dst: string) {
    src in files && (dst !in files || files[src].mtime > files[dst].mtime)
  }

  /** The three artifacts are there. */
  predicate Ready(c: Config, files: Files) {
    DiskPath(c) in files && VarsPath(c) in files && StateFile(TpmDir(c)) in files
  }

  // ----- What the setups do -----

  /** The TPM state that a build starts from: the pristine one, made on first use, or a new one. */
  function TpmSetup(c: Config, files: Files, now: nat, serial: nat): Files {
    if c.pristine == "" then files[StateFile(TpmDir(c)) := File(FreshTpm(serial), now)]
    else
      var made := if StateFile(c.pristine) in files then files else files[StateFile(c.pristine) := File(FreshTpm(serial), now)];
      made[StateFile(TpmDir(c)) := File(made[StateFile(c.pristine)].content, now)]
  }

  predicate TpmSetupWorks(c: Config, files: Files, faults: Faults) {
    !faults.swtpmSetup || (c.pristine != "" && StateFile(c.pristine) in files)
  }

  /** Variables from the template, then a blank disk. */
  function DiskSetup(c: Config, files: Files, now: nat): Files
    requires c.ovmfVars in files
  {
    files[VarsPath(c) := File(files[c.ovmfVars].content, now)][DiskPath(c) := File(Blank(Size(c)), now)]
  }

  /** A disk is made if there is none to copy, and copied if it is missing or older. */
  function PrepareDisk(c: Config, files: Files, now: nat, diskPath: string, faults: Faults): Files {
    var dst := DiskPath(c);
    if diskPath in files && (dst !in files || IsNewer(files, diskPath, dst)) then
      files[dst := File(files[diskPath].content, now)]
    else if diskPath !in files && dst !in files && !faults.qemuImg then files[dst := File(Blank(Size(c)), now)]
    else files
  }

  class Runner {
    const c: Config
    var files: Files
    var now: nat

    constructor (c: Config, files: Files, now: nat)
      ensures this.c == c && this.files == files && this.now == now
    {
      this.c, this.files, this.now := c, files, now;
    }

    method CopyFile(src: string, dst: string) returns (ok: bool)
      modifies `files
      ensures ok <==> src in old(files)
      ensures files == if ok then old(files)[dst := File(old(files)[src].content, now)] else old(files)
    {
      ok := src in files;
      if ok {
        files := files[dst := File(files[src].content, now)];
      }
    }

    method CreateImage(path: string, size: string, faults: Faults) returns (ok: bool)
      modifies `files
      ensures ok <==> !faults.qemuImg
      ensures files == if ok then old(files)[path := File(Blank(size), now)] else old(files)
    {
      ok := !faults.qemuImg;
      if ok {
        files := files[path := File(Blank(size), now)];
      }
    }

    method InitializeTPMState(dir: string, serial: nat, faults: Faults) returns (ok: bool)
      modifies `files
      ensures ok <==> !faults.swtpmSetup
      ensures files == if ok then old(files)[StateFile(dir) := File(FreshTpm(serial), now)] else old(files)
    {
      ok := !faults.swtpmSetup;
      if ok {
        files := files[StateFile(dir) := File(FreshTpm(serial), now)];
      }
    }

    method SetupTPMState(serial: nat, faults: Faults) returns (ok: bool)
      modifies `files
      ensures ok <==> TpmSetupWorks(c, old(files), faults)
      ensures files == if ok then TpmSetup(c, old(files), now, serial) else old(files)
    {
      if c.pristine != "" {
        if StateFile(c.pristine) !in files {
          ok := InitializeTPMState(c.pristine, serial, faults);
          if !ok {
            return;
          }
        }
        ok := CopyFile(StateFile(c.pristine), StateFile(TpmDir(c)));
      } else {
        ok := InitializeTPMState(TpmDir(c), serial, faults);
      }
    }

    /** runBuildMode up to the start of the TPM emulator. A build that fails half-way may have replaced
        the variables and the disk, and nothing else. */
    method SetupBuild(serial: nat, faults: Faults) returns (ok: bool)
      modifies `files
      ensures BuildSetup(c, old(files), now, serial, faults) == (files, ok)
    {
      ok := CopyFile(c.ovmfVars, VarsPath(c));
      if !ok {
        return;
      }
      if c.iso != "" && c.iso !in files {
        return false;
      }
      ok := CreateImage(DiskPath(c), Size(c), faults);
      if !ok {
        return;
      }
      ok := SetupTPMState(serial, faults);
    }

    /** setupRunArtifacts, for any source disk. */
    method SetupRunArtifacts(diskPath: string, faults: Faults) returns (ok: bool)
      modifies `files
      ensures files == PrepareDisk(c, old(files), now, diskPath, faults)
      ensures ok <==> Ready(c, files)
    {
      PathsDiffer(c);
      var dst := DiskPath(c);
      if diskPath !in files {
        if dst !in files {
          ok := CreateImage(dst, Size(c), faults);
          if !ok {
            return;
          }
        }
      } else if dst !in files || IsNewer(files, diskPath, dst) {
        ok := CopyFile(diskPath, dst);
        if !ok {
          return;
        }
      }
      if VarsPath(c) !in files {
        return false;
      }
      if StateFile(TpmDir(c)) !in files {
        return false;
      }
      return true;
    }

    /** runRunMode up to the start of the TPM emulator. */
    method SetupRun(faults: Faults) returns (ok: bool)
      modifies `files
      ensures RunSetup(c, old(files), now, faults) == (files, ok)
    {
      if VarsPath(c) !in files {
        return false;
      }
      PathsDiffer(c);
      // The source disk is the destination, and no file is newer than itself: nothing is ever copied.
      ok := SetupRunArtifacts(DiskPath(c), faults);
    }
  }

  lemma PathsDiffer(c: Config)
    ensures DiskPath(c) != VarsPath(c) && DiskPath(c) != StateFile(TpmDir(c)) && VarsPath(c) != StateFile(TpmDir(c))
    ensures DiskPath(c) != StateFile(c.pristine) && VarsPath(c) != StateFile(c.pristine)
  {
    assert Last(DiskPath(c)) == 'g' && Last(VarsPath(c)) == 'd';
    assert Last(StateFile(TpmDir(c))) == 'l' && Last(StateFile(c.pristine)) == 'l';
  }

  // ----- Histories -----

  /** Files and success of a build's setup. */
  function BuildSetup(c: Config, files: Files, now: nat, serial: nat, faults: Faults): (Files, bool) {
    if c.ovmfVars !in files then (files, false)
    else
      var vars := files[VarsPath(c) := File(files[c.ovmfVars].content, now)];
      var both := DiskSetup(c, files, now);
      if (c.iso != "" && c.iso !in vars) || faults.qemuImg then (vars, false)
      else if TpmSetupWorks(c, both, faults) then (TpmSetup(c, both, now, serial), true)
      else (both, false)
  }

  /** Files and success of a run's setup. */
  function RunSetup(c: Config, files: Files, now: nat, faults: Faults): (Files, bool) {
    if VarsPath(c) !in files then (files, false)
    else if DiskPath(c) in files then (files, StateFile(TpmDir(c)) in files)
    else if faults.qemuImg then (files, false)
    else (files[DiskPath(c) := File(Blank(Size(c)), now)], StateFile(TpmDir(c)) in files)
  }

  /** What happens to the artifacts of one work directory: a build, a run, and the guest of either
      writing to its disk, its variables or its TPM state. */
  datatype Event =
    | Build(serial: nat, faults: Faults)
    | Run(faults: Faults)
    | Write(path: string, data: string)

  predicate IsArtifact(c: Config, path: string) {
    path == DiskPath(c) || path == VarsPath(c) || path == StateFile(TpmDir(c))
  }

  function After(c: Config, files: Files, now: nat, e: Event): Files {
    match e
    case Build(serial, faults) => BuildSetup(c, files, now, serial, faults).0
    case Run(faults) => RunSetup(c, files, now, faults).0
    case Write(path, data) =>
      if IsArtifact(c, path) && path in files then files[path := File(Guest(data), now)] else files
  }

  predicate Succeeds(c: Config, files: Files, now: nat, e: Event) {
    match e
    case Build(serial, faults) => BuildSetup(c, files, now, serial, faults).1
    case Run(faults) => RunSetup(c, files, now, faults).1
    case Write(_, _) => true
  }

  /** The files after a history, one tick of the clock per event. */
  function AfterAll(c: Config, files: Files, now: nat, history: seq<Event>): Files
    decreases |history|
  {
    if history == [] then files else AfterAll(c, After(c, files, now, history[0]), now + 1, history[1..])
  }

  // ----- Properties -----

  lemma BuildLeavesReady(c: Config, files: Files, now: nat, serial: nat, faults: Faults)
    requires Succeeds(c, files, now, Build(serial, faults))
    ensures Ready(c, After(c, files, now, Build(serial, faults)))
  {
    PathsDiffer(c);
  }

  lemma FilesStay(c: Config, files: Files, now: nat, e: Event)
    ensures forall path :: path in files ==> path in After(c, files, now, e)
  {
  }

  lemma {:induction false} ReadyStays(c: Config, files: Files, now: nat, history: seq<Event>)
    requires Ready(c, files)
    ensures Ready(c, AfterAll(c, files, now, history))
    decreases |history|
  {
    if history != [] {
      FilesStay(c, files, now, history[0]);
      ReadyStays(c, After(c, files, now, history[0]), now + 1, history[1..]);
    }
  }

  /** After a successful build and anything that follows it, failed builds included, every run's setup
      succeeds, even if every tool fails, and it changes no file at all. */
  lemma RunsSucceedAfterBuild(c: Config, files: Files, now: nat, serial: nat, faults: Faults, history: seq<Event>,
                              later: nat, runFaults: Faults)
    requires Succeeds(c, files, now, Build(serial, faults))
    ensures var settled := AfterAll(c, After(c, files, now, Build(serial, faults)), now + 1, history);
      Succeeds(c, settled, later, Run(runFaults)) && After(c, settled, later, Run(runFaults)) == settled
  {
    BuildLeavesReady(c, files, now, serial, faults);
    ReadyStays(c, After(c, files, now, Build(serial, faults)), now + 1, history);
  }

  /** Exactly when a run's setup succeeds: with the variables and the TPM state of a build. A missing
      disk does not stop it. It is made anew, blank, unless the tool fails. */
  lemma RunSucceedsIff(c: Config, files: Files, now: nat, faults: Faults)
    ensures Succeeds(c, files, now, Run(faults))
      <==> VarsPath(c) in files && StateFile(TpmDir(c)) in files && (DiskPath(c) in files || !faults.qemuImg)
    ensures Succeeds(c, files, now, Run(faults)) && DiskPath(c) !in files ==>
      After(c, files, now, Run(faults)) == files[DiskPath(c) := File(Blank(Size(c)), now)]
  {
  }

  /** The blank disk of a build, and of a run that finds none: of the configured size, 50G if none is. */
  lemma BlankDisk(c: Config, files: Files, now: nat, e: Event)
    requires Succeeds(c, files, now, e) && (e.Build? || (e.Run? && c.workDir + "/disk.img" !in files))
    ensures var after, disk := After(c, files, now, e), c.workDir + "/disk.img";
      && disk in after
      && (c.diskSize != "" ==> after[disk] == File(Blank(c.diskSize), now))
      && (c.diskSize == "" ==> after[disk] == File(Blank("50G"), now))
  {
    PathsDiffer(c);
  }

  /** What else a successful build leaves: fresh variables from the template, and a TPM state. */
  lemma BuildMakes(c: Config, files: Files, now: nat, serial: nat, faults: Faults)
    requires Succeeds(c, files, now, Build(serial, faults))
    ensures var after := After(c, files, now, Build(serial, faults));
      && c.ovmfVars in files && c.workDir + "/vars.fd" in after && c.workDir + "/tpm" + "/tpm2-00.permall" in after
      && after[c.workDir + "/vars.fd"] == File(files[c.ovmfVars].content, now)
      && (c.iso != "" ==> c.iso in after)
      && (c.pristine == "" ==> after[c.workDir + "/tpm" + "/tpm2-00.permall"] == File(FreshTpm(serial), now))
  {
    PathsDiffer(c);
  }

  /** The disk that a run uses, for any source disk: the source's content if the run's own disk is missing
      or older, its own if it has one that is not older, or none newer; and a blank one if there is none. */
  lemma PreparedDisk(c: Config, files: Files, now: nat, source: string, faults: Faults)
    ensures var after, disk := PrepareDisk(c, files, now, source, faults), DiskPath(c);
      && (forall path :: path != disk ==> (path in after <==> path in files) && (path in files ==> after[path] == files[path]))
      && (source in files && disk !in files ==> disk in after && after[disk] == File(files[source].content, now))
      && (source in files && disk in files && files[source].mtime > files[disk].mtime ==>
          disk in after && after[disk] == File(files[source].content, now))
      && (disk in files && (source !in files || files[source].mtime <= files[disk].mtime) ==> after == files)
      && (source !in files && disk !in files && !faults.qemuImg ==> disk in after && after[disk] == File(Blank(Size(c)), now))
      && (source !in files && disk !in files && faults.qemuImg ==> after == files)
  {
  }

  lemma EventKeepsPristine(c: Config, files: Files, now: nat, e: Event)
    requires c.pristine != "" && c.pristine != TpmDir(c) && StateFile(c.pristine) in files
    ensures var after := After(c, files, now, e);
      StateFile(c.pristine) in after && after[StateFile(c.pristine)] == files[StateFile(c.pristine)]
  {
    PathsDiffer(c);
    StateFileInjective(c.pristine, TpmDir(c));
  }

  lemma StateFileInjective(a: string, b: string)
    ensures StateFile(a) == StateFile(b) <==> a == b
  {
    assert a == StateFile(a)[..|StateFile(a)| - |"/tpm2-00.permall"|];
    assert b == StateFile(b)[..|StateFile(b)| - |"/tpm2-00.permall"|];
  }

  lemma {:induction false} HistoryKeepsPristine(c: Config, files: Files, now: nat, history: seq<Event>)
    requires c.pristine != "" && c.pristine != TpmDir(c) && StateFile(c.pristine) in files
    ensures var after := AfterAll(c, files, now, history);
      StateFile(c.pristine) in after && after[StateFile(c.pristine)] == files[StateFile(c.pristine)]
    decreases |history|
  {
    if history != [] {
      EventKeepsPristine(c, files, now, history[0]);
      HistoryKeepsPristine(c, After(c, files, now, history[0]), now + 1, history[1..]);
    }
  }

  ghost predicate Pristine(c: Config) {
    forall files, now, history :: StateFile(c.pristine) in files ==>
      && StateFile(c.pristine) in AfterAll(c, files, now, history)
      && AfterAll(c, files, now, history)[StateFile(c.pristine)] == files[StateFile(c.pristine)]
  }

  /** A pristine TPM state, once made, is never changed by any history, exactly if its directory is not
      the work directory's own. */
  lemma PristineIff(c: Config)
    requires c.pristine != ""
    ensures Pristine(c) <==> c.pristine != TpmDir(c)
  {
    if c.pristine != TpmDir(c) {
      forall files, now, history | StateFile(c.pristine) in files
        ensures StateFile(c.pristine) in AfterAll(c, files, now, history)
        ensures AfterAll(c, files, now, history)[StateFile(c.pristine)] == files[StateFile(c.pristine)]
      {
        HistoryKeepsPristine(c, files, now, history);
      }
    } else {
      var state := StateFile(c.pristine);
      var files: Files := map[state := File(FreshTpm(0), 0)];
      var history := [Write(state, "")];
      assert AfterAll(c, files, 1, history) == files[state := File(Guest(""), 1)];
    }
  }

  /** All builds of a work directory with a pristine TPM state start from the same one, whatever
      happened in between, the guest's writes to its own state included. */
  lemma BuildsStartAlike(c: Config, files: Files, now: nat, s1: nat, f1: Faults, history: seq<Event>,
                         later: nat, s2: nat, f2: Faults)
    requires c.pristine != "" && c.pristine != TpmDir(c)
    requires Succeeds(c, files, now, Build(s1, f1))
    requires Succeeds(c, AfterAll(c, After(c, files, now, Build(s1, f1)), now + 1, history), later, Build(s2, f2))
    ensures var first := After(c, files, now, Build(s1, f1));
      var second := After(c, AfterAll(c, first, now + 1, history), later, Build(s2, f2));
      && Ready(c, first) && Ready(c, second)
      && second[StateFile(TpmDir(c))].content == first[StateFile(TpmDir(c))].content
  {
    var first := After(c, files, now, Build(s1, f1));
    BuildCopiesPristine(c, files, now, s1, f1);
    HistoryKeepsPristine(c, first, now + 1, history);
    var between := AfterAll(c, first, now + 1, history);
    BuildCopiesPristine(c, between, later, s2, f2);
    EventKeepsPristine(c, between, later, Build(s2, f2));
  }

  lemma BuildCopiesPristine(c: Config, files: Files, now: nat, serial: nat, faults: Faults)
    requires c.pristine != "" && c.pristine != TpmDir(c) && Succeeds(c, files, now, Build(serial, faults))
    ensures var after := After(c, files, now, Build(serial, faults));
      && Ready(c, after) && StateFile(c.pristine) in after
      && after[StateFile(TpmDir(c))].content == after[StateFile(c.pristine)].content
  {
    PathsDiffer(c);
    BuildLeavesReady(c, files, now, serial, faults);
    StateFileInjective(c.pristine, TpmDir(c));
  }
}
