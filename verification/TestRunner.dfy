/** vmtest/cmd/testrunner/main.go: Go's flag rules over its flag table, and the options it builds. */
module TestRunner {
  import opened Sequences
  import opened Numbers
  import opened VMOptions

  datatype FlagName =
    | Kernel | Initrd | Cmdline | Iso | OvmfCode | OvmfVars | Disk | DiskSize | Memory | Cpus | Tpm
    | Swtpm | SwtpmSetup | Network | Timeout | ShareDir | Qemu | QemuImg | MachineType | Accel | WorkDir

  datatype Flags = Flags(
    kernel: string, initrd: string, cmdline: string, iso: string, ovmfCode: string, ovmfVars: string,
    disk: string, diskSize: string, memory: string, cpus: int, tpm: bool, swtpm: string,
    swtpmSetup: string, network: string, timeout: int, shareDir: string, qemu: string,
    qemuImg: string, machineType: string, accel: string, workDir: string)

  const DEFAULTS := Flags("", "", "", "", "", "", "", "", "2G", 2, false, "swtpm", "swtpm_setup",
                          "user", 10, "", "", "qemu-img", "", "", "")

  function NameOf(f: FlagName): (name: string)
    ensures forall c :: c in name ==> 'a' <= c <= 'z' || c == '-'
  {
    match f
    case Kernel => "kernel"
    case Initrd => "initrd"
    case Cmdline => "cmdline"
    case Iso => "iso"
    case OvmfCode => "ovmf-code"
    case OvmfVars => "ovmf-vars"
    case Disk => "disk"
    case DiskSize => "disk-size"
    case Memory => "memory"
    case Cpus => "cpus"
    case Tpm => "tpm"
    case Swtpm => "swtpm"
    case SwtpmSetup => "swtpm-setup"
    case Network => "network"
    case Timeout => "timeout"
    case ShareDir => "share-dir"
    case Qemu => "qemu"
    case QemuImg => "qemu-img"
    case MachineType => "machine-type"
    case Accel => "accel"
    case WorkDir => "work-dir"
  }

  /** `f.formal[name]`. */
  function Lookup(name: string): Option<FlagName> {
    match name
    case "kernel" => Some(Kernel)
    case "initrd" => Some(Initrd)
    case "cmdline" => Some(Cmdline)
    case "iso" => Some(Iso)
    case "ovmf-code" => Some(OvmfCode)
    case "ovmf-vars" => Some(OvmfVars)
    case "disk" => Some(Disk)
    case "disk-size" => Some(DiskSize)
    case "memory" => Some(Memory)
    case "cpus" => Some(Cpus)
    case "tpm" => Some(Tpm)
    case "swtpm" => Some(Swtpm)
    case "swtpm-setup" => Some(SwtpmSetup)
    case "network" => Some(Network)
    case "timeout" => Some(Timeout)
    case "share-dir" => Some(ShareDir)
    case "qemu" => Some(Qemu)
    case "qemu-img" => Some(QemuImg)
    case "machine-type" => Some(MachineType)
    case "accel" => Some(Accel)
    case "work-dir" => Some(WorkDir)
    case _ => None
  }

  function ParseBool(s: string): Option<bool> {
    if s in ["1", "t", "T", "TRUE", "true", "True"] then Some(true)
    else if s in ["0", "f", "F", "FALSE", "false", "False"] then Some(false)
    else None
  }

  /** `flag.Value.Set`. */
  function Set(f: FlagName, v: string, fl: Flags): Option<Flags> {
    match f
    case Kernel => Some(fl.(kernel := v))
    case Initrd => Some(fl.(initrd := v))
    case Cmdline => Some(fl.(cmdline := v))
    case Iso => Some(fl.(iso := v))
    case OvmfCode => Some(fl.(ovmfCode := v))
    case OvmfVars => Some(fl.(ovmfVars := v))
    case Disk => Some(fl.(disk := v))
    case DiskSize => Some(fl.(diskSize := v))
    case Memory => Some(fl.(memory := v))
    case Cpus => (var n := ParseInt0(v); if n.None? then None else Some(fl.(cpus := n.value)))
    case Tpm => (var b := ParseBool(v); if b.None? then None else Some(fl.(tpm := b.value)))
    case Swtpm => Some(fl.(swtpm := v))
    case SwtpmSetup => Some(fl.(swtpmSetup := v))
    case Network => Some(fl.(network := v))
    case Timeout => (var n := ParseInt0(v); if n.None? then None else Some(fl.(timeout := n.value)))
    case ShareDir => Some(fl.(shareDir := v))
    case Qemu => Some(fl.(qemu := v))
    case QemuImg => Some(fl.(qemuImg := v))
    case MachineType => Some(fl.(machineType := v))
    case Accel => Some(fl.(accel := v))
    case WorkDir => Some(fl.(workDir := v))
  }

  /** The part of a flag before its first `=` (which cannot be the first character), and the value
      after it if there is one. */
  function CutValue(name: string, i: nat): (string, Option<string>)
    requires i <= |name|
    decreases |name| - i
  {
    if i == |name| then (name, None)
    else if name[i] == '=' then (name[..i], Some(name[i + 1..]))
    else CutValue(name, i + 1)
  }

  /** flag.Parse: the flag values and the arguments left over, or None when it exits with an error. */
  function Parse(args: seq<string>, fl: Flags): Option<(Flags, seq<string>)>
    decreases |args|
  {
    if args == [] || |args[0]| < 2 || args[0][0] != '-' then Some((fl, args))
    else if args[0] == "--" then Some((fl, args[1..]))
    else
      var name := if args[0][1] == '-' then args[0][2..] else args[0][1..];
      if name[0] == '-' || name[0] == '=' then None
      else
        var (key, value) := CutValue(name, 1);
        var f := Lookup(key);
        if f.None? then None
        else if f.value == Tpm then
          var next := Set(Tpm, if value.Some? then value.value else "true", fl);
          if next.None? then None else Parse(args[1..], next.value)
        else if value.Some? then
          var next := Set(f.value, value.value, fl);
          if next.None? then None else Parse(args[1..], next.value)
        else if |args| == 1 then None
        else
          var next := Set(f.value, args[1], fl);
          if next.None? then None else Parse(args[2..], next.value)
  }

  function MachineOptions(fl: Flags): seq<VMOption> {
    [WithMemory(fl.memory), WithCPUs(fl.cpus), WithQemuImg(fl.qemuImg), WithName("vmtest"), WithSerialCapture]
    + If(fl.qemu != "", WithQemuBinary(fl.qemu))
    + If(fl.machineType != "", WithMachineType(fl.machineType))
    + If(fl.accel != "", WithAccel(fl.accel))
    + If(fl.workDir != "", WithWorkDir(fl.workDir))
  }

  function BootOptions(fl: Flags): seq<VMOption> {
    If(fl.kernel != "", WithKernelBoot(fl.kernel, fl.initrd, fl.cmdline))
    + If(fl.ovmfCode != "" && fl.ovmfVars != "", WithUEFI(fl.ovmfCode, fl.ovmfVars))
    + If(fl.iso != "", WithISO(fl.iso))
    + (if fl.disk != "" then [WithExistingDisk(fl.disk)] else If(fl.diskSize != "", WithDisk(fl.diskSize)))
  }

  function DeviceOptions(fl: Flags): seq<VMOption> {
    If(fl.tpm, WithTPM(fl.swtpm, fl.swtpmSetup))
    + [if fl.network == "none" then WithNoNetwork else WithUserNet]
    + If(fl.shareDir != "", With9PShare("vmtest", fl.shareDir))
  }

  /** The options in the order in which main appends them. */
  function Options(fl: Flags): seq<VMOption> {
    MachineOptions(fl) + BootOptions(fl) + DeviceOptions(fl)
  }

  method CollectMachine(fl: Flags) returns (opts: seq<VMOption>)
    ensures opts == MachineOptions(fl)
  {
    opts := [WithMemory(fl.memory), WithCPUs(fl.cpus), WithQemuImg(fl.qemuImg), WithName("vmtest"), WithSerialCapture];
    opts := Append(opts, fl.qemu != "", WithQemuBinary(fl.qemu));
    opts := Append(opts, fl.machineType != "", WithMachineType(fl.machineType));
    opts := Append(opts, fl.accel != "", WithAccel(fl.accel));
    opts := Append(opts, fl.workDir != "", WithWorkDir(fl.workDir));
  }

  method CollectBoot(fl: Flags) returns (opts: seq<VMOption>)
    ensures opts == BootOptions(fl)
  {
    opts := Append([], fl.kernel != "", WithKernelBoot(fl.kernel, fl.initrd, fl.cmdline));
    assert opts == If(fl.kernel != "", WithKernelBoot(fl.kernel, fl.initrd, fl.cmdline));
    opts := Append(opts, fl.ovmfCode != "" && fl.ovmfVars != "", WithUEFI(fl.ovmfCode, fl.ovmfVars));
    opts := Append(opts, fl.iso != "", WithISO(fl.iso));
    if fl.disk != "" {
      opts := opts + [WithExistingDisk(fl.disk)];
    } else {
      opts := Append(opts, fl.diskSize != "", WithDisk(fl.diskSize));
    }
  }

  method CollectDevices(fl: Flags) returns (opts: seq<VMOption>)
    ensures opts == DeviceOptions(fl)
  {
    opts := Append([], fl.tpm, WithTPM(fl.swtpm, fl.swtpmSetup));
    assert opts == If(fl.tpm, WithTPM(fl.swtpm, fl.swtpmSetup));
    opts := opts + [if fl.network == "none" then WithNoNetwork else WithUserNet];
    opts := Append(opts, fl.shareDir != "", With9PShare("vmtest", fl.shareDir));
  }

  /** main up to vm.Start: None is the exit on a flag error. */
  method BuildOptions(argv: seq<string>) returns (opts: Option<seq<VMOption>>)
    ensures var parsed := Parse(argv, DEFAULTS);
      opts == if parsed.None? then None else Some(Options(parsed.value.0))
  {
    var parsed := Parse(argv, DEFAULTS);
    if parsed.None? {
      return None;
    }
    var fl := parsed.value.0;
    var machine := CollectMachine(fl);
    var boot := CollectBoot(fl);
    var devices := CollectDevices(fl);
    return Some(machine + boot + devices);
  }

  // ----- What the parser does with one well-formed flag -----

  /** Every flag is found under its own name, and no name needs cutting. */
  lemma LookupInverts(f: FlagName)
    ensures Lookup(NameOf(f)) == Some(f)
    ensures NameOf(f) != "" && NameOf(f)[0] != '-' && '=' !in NameOf(f)
  {
  }

  lemma {:induction false} NothingToCut(name: string, i: nat)
    requires i <= |name| && '=' !in name
    ensures CutValue(name, i) == (name, None)
    decreases |name| - i
  {
    if i < |name| {
      NothingToCut(name, i + 1);
    }
  }

  /** `--name value` sets the flag, whatever the value looks like, even one that starts with `-`. */
  lemma FlagWithValue(f: FlagName, v: string, more: seq<string>, fl: Flags)
    requires f != Tpm && Set(f, v, fl).Some?
    ensures Parse(["--" + NameOf(f), v] + more, fl) == Parse(more, Set(f, v, fl).value)
  {
    LookupInverts(f);
    NothingToCut(NameOf(f), 1);
    var args := ["--" + NameOf(f), v] + more;
    assert args[2..] == more && args[0][2..] == NameOf(f);
  }

  lemma TpmSwitch(more: seq<string>, fl: Flags)
    ensures Parse(["--" + NameOf(Tpm)] + more, fl) == Parse(more, fl.(tpm := true))
  {
    LookupInverts(Tpm);
    NothingToCut(NameOf(Tpm), 1);
    var args := ["--" + NameOf(Tpm)] + more;
    assert args[1..] == more && args[0][2..] == NameOf(Tpm);
    assert ParseBool("true") == Some(true);
  }

  // ----- Every form of a flag -----

  predicate Dashes(dashes: string) {
    dashes == "-" || dashes == "--"
  }

  lemma {:induction false} CutsAtEquals(name: string, v: string, i: nat)
    requires i <= |name| && '=' !in name
    ensures CutValue(name + "=" + v, i) == (name, Some(v))
    decreases |name| - i
  {
    var s := name + "=" + v;
    if i < |name| {
      assert s[i] == name[i];
      CutsAtEquals(name, v, i + 1);
    } else {
      assert s[..i] == name && s[i + 1..] == v;
    }
  }

  /** What parsing goes on to when a flag is given a value. */
  function AfterSet(f: FlagName, v: string, more: seq<string>, fl: Flags): Option<(Flags, seq<string>)> {
    if Set(f, v, fl).None? then None else Parse(more, Set(f, v, fl).value)
  }

  /** The name of a flag behind one dash or two. */
  lemma Named(dashes: string, name: string, text: string, more: seq<string>)
    requires Dashes(dashes) && name != "" && name[0] != '-' && name[0] != '='
    requires text == dashes + name
    ensures |text| >= 2 && text[0] == '-' && text != "--" && ([text] + more)[1..] == more
    ensures (if text[1] == '-' then text[2..] else text[1..]) == name
  {
    assert text[|dashes|] == name[0] && ([text] + more)[1..] == more;
  }

  /** `-name=v` and `--name=v`: what is behind the first `=` is the value, whatever it holds. */
  lemma FlagWithEquals(dashes: string, f: FlagName, v: string, more: seq<string>, fl: Flags)
    requires Dashes(dashes)
    ensures Parse([dashes + (NameOf(f) + "=" + v)] + more, fl) == AfterSet(f, v, more, fl)
  {
    LookupInverts(f);
    CutsAtEquals(NameOf(f), v, 1);
    Named(dashes, NameOf(f) + "=" + v, dashes + (NameOf(f) + "=" + v), more);
  }

  /** `-name v` and `--name v`, and the error when no value follows. */
  lemma FlagThenValue(dashes: string, f: FlagName, v: string, more: seq<string>, fl: Flags)
    requires Dashes(dashes) && f != Tpm
    ensures Parse([dashes + NameOf(f)] + ([v] + more), fl) == AfterSet(f, v, more, fl)
    ensures Parse([dashes + NameOf(f)] + [], fl) == None
  {
    LookupInverts(f);
    NothingToCut(NameOf(f), 1);
    Named(dashes, NameOf(f), dashes + NameOf(f), [v] + more);
    assert ([dashes + NameOf(f)] + ([v] + more))[2..] == more;
  }

  /** The switch alone, and with any of the spellings that Go reads as a truth value; others are errors. */
  lemma TpmForms(dashes: string, v: string, more: seq<string>, fl: Flags)
    requires Dashes(dashes)
    ensures Parse([dashes + "tpm"] + more, fl) == Parse(more, fl.(tpm := true))
    ensures v in ["1", "t", "T", "true", "TRUE", "True"] ==>
      Parse([dashes + ("tpm" + "=" + v)] + more, fl) == Parse(more, fl.(tpm := true))
    ensures v in ["0", "f", "F", "false", "FALSE", "False"] ==>
      Parse([dashes + ("tpm" + "=" + v)] + more, fl) == Parse(more, fl.(tpm := false))
    ensures v !in ["1", "t", "T", "true", "TRUE", "True", "0", "f", "F", "false", "FALSE", "False"] ==>
      Parse([dashes + ("tpm" + "=" + v)] + more, fl) == None
  {
    LookupInverts(Tpm);
    NothingToCut(NameOf(Tpm), 1);
    Named(dashes, NameOf(Tpm), dashes + NameOf(Tpm), more);
    FlagWithEquals(dashes, Tpm, v, more, fl);
    TpmIsSet(fl);
  }

  lemma TpmIsSet(fl: Flags)
    ensures Set(Tpm, "true", fl) == Some(fl.(tpm := true))
  {
  }

  /** A name in the table is that of its flag. */
  lemma LookupFindsNames(name: string)
    ensures var f := Lookup(name); f.Some? ==> NameOf(f.value) == name
  {
  }

  /** Anything else that looks like a flag ends the program: an unknown name, help included, an empty
      name, or a third dash. */
  lemma OthersAreErrors(dashes: string, name: string, more: seq<string>, fl: Flags)
    requires Dashes(dashes) && name != "" && (dashes == "-" ==> name[0] != '-')
    requires name[0] == '-' || '=' in name[..1] || ('=' !in name && forall f :: NameOf(f) != name)
    ensures Parse([dashes + name] + more, fl) == None
  {
    var text := dashes + name;
    assert (if text[1] == '-' then text[2..] else text[1..]) == name;
    if name[0] != '-' && name[0] != '=' {
      NothingToCut(name, 1);
      LookupFindsNames(name);
    }
  }

  /** The flags end at `--`, which is dropped, and at any other word without a name, which is not. */
  lemma FlagsEnd(word: string, more: seq<string>, fl: Flags)
    requires |word| < 2 || word[0] != '-'
    ensures Parse([word] + more, fl) == Some((fl, [word] + more))
    ensures Parse(["--"] + more, fl) == Some((fl, more))
  {
    assert (["--"] + more)[1..] == more;
  }

  /** Without any argument: two CPUs, two gigabytes, user networking, and ten minutes. */
  lemma NoArguments()
    ensures Parse([], DEFAULTS) == Some((DEFAULTS, [])) && DEFAULTS.timeout == 10
    ensures Options(DEFAULTS)
      == [WithMemory("2G"), WithCPUs(2), WithQemuImg("qemu-img"), WithName("vmtest"), WithSerialCapture, WithUserNet]
    ensures !DEFAULTS.tpm && DEFAULTS.swtpm == "swtpm" && DEFAULTS.swtpmSetup == "swtpm_setup"
  {
    assert BootOptions(DEFAULTS) == [] && DeviceOptions(DEFAULTS) == [WithUserNet];
  }

  // ----- The flag table -----

  datatype Held = Str(s: string) | Num(n: int) | Bool(b: bool)

  /** `flag.Value.Get`. */
  function Holds(f: FlagName, fl: Flags): Held {
    match f
    case Kernel => Str(fl.kernel)
    case Initrd => Str(fl.initrd)
    case Cmdline => Str(fl.cmdline)
    case Iso => Str(fl.iso)
    case OvmfCode => Str(fl.ovmfCode)
    case OvmfVars => Str(fl.ovmfVars)
    case Disk => Str(fl.disk)
    case DiskSize => Str(fl.diskSize)
    case Memory => Str(fl.memory)
    case Cpus => Num(fl.cpus)
    case Tpm => Bool(fl.tpm)
    case Swtpm => Str(fl.swtpm)
    case SwtpmSetup => Str(fl.swtpmSetup)
    case Network => Str(fl.network)
    case Timeout => Num(fl.timeout)
    case ShareDir => Str(fl.shareDir)
    case Qemu => Str(fl.qemu)
    case QemuImg => Str(fl.qemuImg)
    case MachineType => Str(fl.machineType)
    case Accel => Str(fl.accel)
    case WorkDir => Str(fl.workDir)
  }

  /** Setting a flag leaves all others. */
  lemma OthersKeepTheirs(f: FlagName, g: FlagName, v: string, fl: Flags)
    requires g != f && Set(f, v, fl).Some?
    ensures Holds(g, Set(f, v, fl).value) == Holds(g, fl)
  {
  }

  /** Setting a flag sets that one and no other. A text is taken as it is; a number must be one. */
  lemma SetSetsOne(f: FlagName, v: string, fl: Flags)
    ensures var r := Set(f, v, fl); r.Some? ==> forall g :: g != f ==> Holds(g, r.value) == Holds(g, fl)
    ensures Holds(f, fl).Str? ==> Set(f, v, fl).Some? && Holds(f, Set(f, v, fl).value) == Str(v)
    ensures Holds(f, fl).Num? ==> (Set(f, v, fl).None? <==> ParseInt0(v).None?)
    ensures Holds(f, fl).Num? && ParseInt0(v).Some? ==> Holds(f, Set(f, v, fl).value) == Num(ParseInt0(v).value)
  {
    forall g | g != f && Set(f, v, fl).Some? ensures Holds(g, Set(f, v, fl).value) == Holds(g, fl) {
      OthersKeepTheirs(f, g, v, fl);
    }
  }
}
