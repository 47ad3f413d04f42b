/** The vm_test rule (vmtest/vm_test.bzl) as a compiler: attributes to arguments, arguments to a
    script line, and the line read back by the shell and by the test runner. */
module VmTest {
  import opened Sequences
  import opened Numbers
  import opened Shell
  import opened TestRunner
  import opened VMOptions

  /** Attributes and toolchain of one vm_test target; a file is given by its short path. */
  datatype Attrs = Attrs(
    qemu: Option<string>, qemuImg: Option<string>, kernel: Option<string>, initrd: Option<string>,
    cmdline: string, iso: Option<string>, ovmfCode: Option<string>, ovmfVars: Option<string>,
    toolchainCode: Option<string>, toolchainVars: Option<string>, disk: Option<string>,
    diskSize: string, memory: string, cpus: int32, timeout: int32, tpm: bool, swtpm: Option<string>,
    swtpmSetup: Option<string>, machineType: string, accel: string, network: string,
    shareFiles: seq<string>, shareDir: string)

  /** One `args.extend(["--name", value])` or `args.append("--name")`. */
  datatype Setting = Value(f: FlagName, v: string) | Switch(f: FlagName)

  function SettingArgs(s: Setting): seq<string> {
    if s.Value? then ["--" + NameOf(s.f), s.v] else ["--" + NameOf(s.f)]
  }

  function Args(ss: seq<Setting>): seq<string> {
    if ss == [] then [] else SettingArgs(ss[0]) + Args(ss[1..])
  }

  function File(f: FlagName, path: Option<string>): seq<Setting> {
    if path.Some? then [Value(f, path.value)] else []
  }

  function Text(f: FlagName, v: string): seq<Setting> {
    If(v != "", Value(f, v))
  }

  function Or(a: Option<string>, b: Option<string>): Option<string> {
    if a.Some? then a else b
  }

  function QemuSettings(a: Attrs): seq<Setting> {
    File(Qemu, a.qemu) + File(QemuImg, a.qemuImg) + File(Kernel, a.kernel)
  }

  function BootSettings(a: Attrs): seq<Setting> {
    File(Initrd, a.initrd) + Text(Cmdline, a.cmdline) + File(Iso, a.iso)
  }

  function FirmwareSettings(a: Attrs): seq<Setting> {
    File(OvmfCode, Or(a.ovmfCode, a.toolchainCode)) + File(OvmfVars, Or(a.ovmfVars, a.toolchainVars))
    + (if a.disk.Some? then File(Disk, a.disk) else Text(DiskSize, a.diskSize))
  }

  function ResourceSettings(a: Attrs): seq<Setting> {
    [Value(Memory, a.memory)] + [Value(Cpus, Decimal(a.cpus))] + [Value(Timeout, Decimal(a.timeout))]
  }

  function TpmSettings(a: Attrs): seq<Setting> {
    if !a.tpm then [] else [Switch(Tpm)] + File(Swtpm, a.swtpm) + File(SwtpmSetup, a.swtpmSetup)
  }

  function DeviceSettings(a: Attrs): seq<Setting> {
    Text(MachineType, a.machineType) + Text(Accel, a.accel) + File(Network, Some(a.network))
  }

  function ShareSettings(a: Attrs): seq<Setting> {
    if a.shareFiles != [] then [Value(ShareDir, a.shareDir)] else []
  }

  function Settings(a: Attrs): seq<Setting> {
    QemuSettings(a) + BootSettings(a) + FirmwareSettings(a) + ResourceSettings(a) + TpmSettings(a) + DeviceSettings(a)
    + ShareSettings(a)
  }

  const ALL_ARGUMENTS := " \"$@\""

  function DoubleQuoted(v: string): string {
    "\"" + v + "\""
  }

  /** `exec "{runner}" {args}`. */
  function ExecLine(runner: string, line: string): string {
    "exec" + (" " + (DoubleQuoted(runner) + (" " + line)))
  }

  /** The last line of the generated script. */
  function Script(runner: string, args: seq<string>): string {
    ExecLine(runner, ArgLine(args)) + ALL_ARGUMENTS
  }

  // ----- The rule as it runs -----

  /** `args.extend(["--name", value])` or `args.append("--name")`. */
  method Extend(args: seq<string>, ghost done: seq<Setting>, s: Setting) returns (r: seq<string>, ghost done': seq<Setting>)
    requires args == Args(done)
    ensures r == args + SettingArgs(s) && done' == done + [s] && r == Args(done')
  {
    r, done' := args + SettingArgs(s), done + [s];
    ArgsAppend(done, [s]);
    assert [s][1..] == [] && SettingArgs(s) + [] == SettingArgs(s);
  }

  method ExtendFile(args: seq<string>, ghost done: seq<Setting>, f: FlagName, file: Option<string>)
    returns (r: seq<string>, ghost done': seq<Setting>)
    requires args == Args(done)
    ensures done' == done + File(f, file) && r == Args(done')
  {
    r, done' := args, done;
    if file.Some? {
      r, done' := Extend(r, done', Value(f, file.value));
    }
  }

  method ExtendText(args: seq<string>, ghost done: seq<Setting>, f: FlagName, v: string)
    returns (r: seq<string>, ghost done': seq<Setting>)
    requires args == Args(done)
    ensures done' == done + Text(f, v) && r == Args(done')
  {
    r, done' := args, done;
    if v != "" {
      r, done' := Extend(r, done', Value(f, v));
    }
  }

  lemma Three(x: seq<Setting>, a: seq<Setting>, b: seq<Setting>, c: seq<Setting>)
    ensures x + a + b + c == x + (a + b + c)
  {
  }

  method AddQemuAndKernel(a: Attrs) returns (args: seq<string>)
    ensures args == Args(QemuSettings(a))
  {
    ghost var done: seq<Setting> := [];
    args := [];
    args, done := ExtendFile(args, done, Qemu, a.qemu);
    args, done := ExtendFile(args, done, QemuImg, a.qemuImg);
    args, done := ExtendFile(args, done, Kernel, a.kernel);
    Three([], File(Qemu, a.qemu), File(QemuImg, a.qemuImg), File(Kernel, a.kernel));
    assert [] + QemuSettings(a) == QemuSettings(a);
  }

  method AddBoot(a: Attrs, before: seq<string>, ghost ss: seq<Setting>) returns (args: seq<string>)
    requires before == Args(ss)
    ensures args == Args(ss + BootSettings(a))
  {
    ghost var done := ss;
    args, done := ExtendFile(before, done, Initrd, a.initrd);
    args, done := ExtendText(args, done, Cmdline, a.cmdline);
    args, done := ExtendFile(args, done, Iso, a.iso);
    Three(ss, File(Initrd, a.initrd), Text(Cmdline, a.cmdline), File(Iso, a.iso));
  }

  method AddFirmwareAndDisk(a: Attrs, before: seq<string>, ghost ss: seq<Setting>) returns (args: seq<string>)
    requires before == Args(ss)
    ensures args == Args(ss + FirmwareSettings(a))
  {
    ghost var done := ss;
    var code := if a.ovmfCode.Some? then a.ovmfCode else a.toolchainCode;
    var vars := if a.ovmfVars.Some? then a.ovmfVars else a.toolchainVars;
    args, done := ExtendFile(before, done, OvmfCode, code);
    args, done := ExtendFile(args, done, OvmfVars, vars);
    if a.disk.Some? {
      args, done := Extend(args, done, Value(Disk, a.disk.value));
    } else {
      args, done := ExtendText(args, done, DiskSize, a.diskSize);
    }
    Three(ss, File(OvmfCode, code), File(OvmfVars, vars), if a.disk.Some? then File(Disk, a.disk) else Text(DiskSize, a.diskSize));
  }

  method AddResources(a: Attrs, before: seq<string>, ghost ss: seq<Setting>) returns (args: seq<string>)
    requires before == Args(ss)
    ensures args == Args(ss + ResourceSettings(a))
  {
    ghost var done := ss;
    args, done := Extend(before, done, Value(Memory, a.memory));
    args, done := Extend(args, done, Value(Cpus, Decimal(a.cpus)));
    args, done := Extend(args, done, Value(Timeout, Decimal(a.timeout)));
    Three(ss, [Value(Memory, a.memory)], [Value(Cpus, Decimal(a.cpus))], [Value(Timeout, Decimal(a.timeout))]);
  }

  method AddTpm(a: Attrs, before: seq<string>, ghost ss: seq<Setting>) returns (args: seq<string>)
    requires before == Args(ss)
    ensures args == Args(ss + TpmSettings(a))
  {
    ghost var done := ss;
    args := before;
    if a.tpm {
      args, done := Extend(args, done, Switch(Tpm));
      args, done := ExtendFile(args, done, Swtpm, a.swtpm);
      args, done := ExtendFile(args, done, SwtpmSetup, a.swtpmSetup);
      Three(ss, [Switch(Tpm)], File(Swtpm, a.swtpm), File(SwtpmSetup, a.swtpmSetup));
    } else {
      assert ss + [] == ss;
    }
  }

  method AddDevices(a: Attrs, before: seq<string>, ghost ss: seq<Setting>) returns (args: seq<string>)
    requires before == Args(ss)
    ensures args == Args(ss + DeviceSettings(a))
  {
    ghost var done := ss;
    args, done := ExtendText(before, done, MachineType, a.machineType);
    args, done := ExtendText(args, done, Accel, a.accel);
    args, done := Extend(args, done, Value(Network, a.network));
    Three(ss, Text(MachineType, a.machineType), Text(Accel, a.accel), File(Network, Some(a.network)));
  }

  method AddShare(a: Attrs, before: seq<string>, ghost ss: seq<Setting>) returns (args: seq<string>)
    requires before == Args(ss)
    ensures args == Args(ss + ShareSettings(a))
  {
    args := before;
    if a.shareFiles != [] {
      ghost var done: seq<Setting>;
      args, done := Extend(args, ss, Value(ShareDir, a.shareDir));
    } else {
      assert ss + [] == ss;
    }
  }

  /** The quoting loop. */
  method Quote(args: seq<string>) returns (quoted: seq<string>)
    ensures quoted == QuoteArgs(args)
  {
    quoted := [];
    for i := 0 to |args|
      invariant |quoted| == i && forall j :: 0 <= j < i ==> quoted[j] == QuoteArg(args[j])
    {
      var a := args[i];
      if ' ' in a || '\'' in a {
        quoted := quoted + ["'" + ReplaceQuotes(a, STARLARK_QUOTE) + "'"];
      } else {
        quoted := quoted + [a];
      }
    }
  }

  method VmTestImpl(a: Attrs, runner: string) returns (line: string)
    ensures line == Script(runner, Args(Settings(a)))
  {
    var args := AddQemuAndKernel(a);
    ghost var done := QemuSettings(a);
    args := AddBoot(a, args, done);
    done := done + BootSettings(a);
    args := AddFirmwareAndDisk(a, args, done);
    done := done + FirmwareSettings(a);
    args := AddResources(a, args, done);
    done := done + ResourceSettings(a);
    args := AddTpm(a, args, done);
    done := done + TpmSettings(a);
    args := AddDevices(a, args, done);
    done := done + DeviceSettings(a);
    args := AddShare(a, args, done);
    var quoted := Quote(args);
    line := ExecLine(runner, Join(quoted, ' ')) + ALL_ARGUMENTS;
  }

  // ----- What the attributes mean -----

  function Path(p: Option<string>, default: string): string {
    if p.Some? then p.value else default
  }

  function MachineMeaning(a: Attrs): seq<VMOption> {
    [WithMemory(a.memory), WithCPUs(a.cpus), WithQemuImg(Path(a.qemuImg, "qemu-img")), WithName("vmtest"), WithSerialCapture]
    + If(a.qemu.Some?, WithQemuBinary(Path(a.qemu, "")))
    + If(a.machineType != "", WithMachineType(a.machineType))
    + If(a.accel != "", WithAccel(a.accel))
  }

  /** Explicit firmware wins over the toolchain's; UEFI needs both files. */
  function BootMeaning(a: Attrs): seq<VMOption> {
    var code, vars := Or(a.ovmfCode, a.toolchainCode), Or(a.ovmfVars, a.toolchainVars);
    If(a.kernel.Some?, WithKernelBoot(Path(a.kernel, ""), Path(a.initrd, ""), a.cmdline))
    + If(code.Some? && vars.Some?, WithUEFI(Path(code, ""), Path(vars, "")))
    + If(a.iso.Some?, WithISO(Path(a.iso, "")))
    + (if a.disk.Some? then [WithExistingDisk(a.disk.value)] else If(a.diskSize != "", WithDisk(a.diskSize)))
  }

  function DeviceMeaning(a: Attrs): seq<VMOption> {
    If(a.tpm, WithTPM(Path(a.swtpm, "swtpm"), Path(a.swtpmSetup, "swtpm_setup")))
    + [if a.network == "none" then WithNoNetwork else WithUserNet]
    + If(a.shareFiles != [], With9PShare("vmtest", a.shareDir))
  }

  /** The virtual machine that a target asks for. */
  function Meaning(a: Attrs): seq<VMOption> {
    MachineMeaning(a) + BootMeaning(a) + DeviceMeaning(a)
  }

  // ----- Parsing a list of settings back -----

  lemma {:induction false} ArgsAppend(a: seq<Setting>, b: seq<Setting>)
    ensures Args(a + b) == Args(a) + Args(b)
  {
    if a == [] {
      assert a + b == b;
    } else {
      assert (a + b)[1..] == a[1..] + b;
      ArgsAppend(a[1..], b);
    }
  }

  predicate Settable(s: Setting) {
    if s.Switch? then s.f == Tpm
    else s.f != Tpm && (s.f == Cpus || s.f == Timeout ==> ParseInt0(s.v).Some?)
  }

  function Apply(s: Setting, fl: Flags): Flags
    requires Settable(s)
  {
    if s.Switch? then fl.(tpm := true) else Set(s.f, s.v, fl).value
  }

  function ApplyAll(ss: seq<Setting>, fl: Flags): Flags
    requires forall s :: s in ss ==> Settable(s)
  {
    if ss == [] then fl else ApplyAll(ss[1..], Apply(ss[0], fl))
  }

  lemma {:induction false} ApplyAppend(a: seq<Setting>, b: seq<Setting>, fl: Flags)
    requires forall s :: s in a + b ==> Settable(s)
    ensures (forall s :: s in a ==> Settable(s)) && (forall s :: s in b ==> Settable(s))
    ensures ApplyAll(a + b, fl) == ApplyAll(b, ApplyAll(a, fl))
  {
    assert forall s :: s in b ==> s in a + b;
    if a == [] {
      assert a + b == b;
    } else {
      assert (a + b)[1..] == a[1..] + b;
      ApplyAppend(a[1..], b, Apply(a[0], fl));
    }
  }

  lemma ParseSetting(s: Setting, more: seq<string>, fl: Flags)
    requires Settable(s)
    ensures Parse(SettingArgs(s) + more, fl) == Parse(more, Apply(s, fl))
  {
    if s.Value? {
      FlagWithValue(s.f, s.v, more, fl);
    } else {
      TpmSwitch(more, fl);
    }
  }

  /** Go's parser reads every list of settings as exactly these settings, then goes on. */
  lemma {:induction false} ParseSettings(ss: seq<Setting>, more: seq<string>, fl: Flags)
    requires forall s :: s in ss ==> Settable(s)
    ensures Parse(Args(ss) + more, fl) == Parse(more, ApplyAll(ss, fl))
  {
    if ss == [] {
      assert Args(ss) + more == more;
    } else {
      calc {
        Parse(Args(ss) + more, fl);
        { Assoc(SettingArgs(ss[0]), Args(ss[1..]), more); }
        Parse(SettingArgs(ss[0]) + (Args(ss[1..]) + more), fl);
        { ParseSetting(ss[0], Args(ss[1..]) + more, fl); }
        Parse(Args(ss[1..]) + more, Apply(ss[0], fl));
        { ParseSettings(ss[1..], more, Apply(ss[0], fl)); }
        Parse(more, ApplyAll(ss, fl));
      }
    }
  }

  // ----- From settings to flag values -----

  ghost predicate AllSettable(ss: seq<Setting>) {
    forall s :: s in ss ==> Settable(s)
  }

  predicate IsText(f: FlagName) {
    f != Tpm && f != Cpus && f != Timeout
  }

  /** Three optional settings in a row. */
  lemma ApplyThree(a: seq<Setting>, b: seq<Setting>, c: seq<Setting>, fl: Flags)
    requires AllSettable(a) && AllSettable(b) && AllSettable(c)
    ensures AllSettable(a + b + c)
    ensures ApplyAll(a + b + c, fl) == ApplyAll(c, ApplyAll(b, ApplyAll(a, fl)))
  {
    ApplyAppend(a, b, fl);
    ApplyAppend(a + b, c, fl);
  }

  lemma ApplyOne(s: Setting, fl: Flags)
    requires Settable(s)
    ensures AllSettable([s]) && ApplyAll([s], fl) == Apply(s, fl)
  {
    assert [s][1..] == [];
  }

  lemma FileApplied(f: FlagName, p: Option<string>, fl: Flags)
    requires IsText(f)
    ensures AllSettable(File(f, p))
    ensures ApplyAll(File(f, p), fl) == if p.Some? then Set(f, p.value, fl).value else fl
  {
    if p.Some? {
      ApplyOne(Value(f, p.value), fl);
    }
  }

  lemma TextApplied(f: FlagName, v: string, fl: Flags)
    requires IsText(f)
    ensures AllSettable(Text(f, v))
    ensures ApplyAll(Text(f, v), fl) == if v != "" then Set(f, v, fl).value else fl
  {
    if v != "" {
      ApplyOne(Value(f, v), fl);
    }
  }

  function Given(v: string, default: string): string {
    if v != "" then v else default
  }

  lemma QemuApplied(a: Attrs, fl: Flags)
    ensures AllSettable(QemuSettings(a))
    ensures ApplyAll(QemuSettings(a), fl) == fl.(
      qemu := Path(a.qemu, fl.qemu), qemuImg := Path(a.qemuImg, fl.qemuImg), kernel := Path(a.kernel, fl.kernel))
  {
    var f1 := fl.(qemu := Path(a.qemu, fl.qemu));
    var f2 := f1.(qemuImg := Path(a.qemuImg, fl.qemuImg));
    assert ApplyAll(File(Qemu, a.qemu), fl) == f1 by { FileApplied(Qemu, a.qemu, fl); }
    assert ApplyAll(File(QemuImg, a.qemuImg), f1) == f2 by { FileApplied(QemuImg, a.qemuImg, f1); }
    FileApplied(Kernel, a.kernel, f2);
    ApplyThree(File(Qemu, a.qemu), File(QemuImg, a.qemuImg), File(Kernel, a.kernel), fl);
  }

  lemma BootApplied(a: Attrs, fl: Flags)
    ensures AllSettable(BootSettings(a))
    ensures ApplyAll(BootSettings(a), fl) == fl.(
      initrd := Path(a.initrd, fl.initrd), cmdline := Given(a.cmdline, fl.cmdline),
      iso := Path(a.iso, fl.iso))
  {
    FileApplied(Initrd, a.initrd, fl);
    var f1 := fl.(initrd := Path(a.initrd, fl.initrd));
    TextApplied(Cmdline, a.cmdline, f1);
    FileApplied(Iso, a.iso, f1.(cmdline := Given(a.cmdline, fl.cmdline)));
    ApplyThree(File(Initrd, a.initrd), Text(Cmdline, a.cmdline), File(Iso, a.iso), fl);
  }

  lemma FirmwareApplied(a: Attrs, fl: Flags)
    ensures AllSettable(FirmwareSettings(a))
    ensures ApplyAll(FirmwareSettings(a), fl) == fl.(
      ovmfCode := Path(Or(a.ovmfCode, a.toolchainCode), fl.ovmfCode),
      ovmfVars := Path(Or(a.ovmfVars, a.toolchainVars), fl.ovmfVars),
      disk := Path(a.disk, fl.disk),
      diskSize := if a.disk.None? && a.diskSize != "" then a.diskSize else fl.diskSize)
  {
    var code, vars := Or(a.ovmfCode, a.toolchainCode), Or(a.ovmfVars, a.toolchainVars);
    FileApplied(OvmfCode, code, fl);
    var f1 := fl.(ovmfCode := Path(code, fl.ovmfCode));
    FileApplied(OvmfVars, vars, f1);
    var f2 := f1.(ovmfVars := Path(vars, fl.ovmfVars));
    FileApplied(Disk, a.disk, f2);
    TextApplied(DiskSize, a.diskSize, f2);
    ApplyThree(File(OvmfCode, code), File(OvmfVars, vars),
               if a.disk.Some? then File(Disk, a.disk) else Text(DiskSize, a.diskSize), fl);
  }

  lemma NumberApplied(f: FlagName, n: int32, fl: Flags)
    requires f == Cpus || f == Timeout
    ensures AllSettable([Value(f, Decimal(n))])
    ensures ApplyAll([Value(f, Decimal(n))], fl) == if f == Cpus then fl.(cpus := n) else fl.(timeout := n)
  {
    DecimalRoundTrip(n);
    ApplyOne(Value(f, Decimal(n)), fl);
  }

  lemma ResourcesApplied(a: Attrs, fl: Flags)
    ensures AllSettable(ResourceSettings(a))
    ensures ApplyAll(ResourceSettings(a), fl) == fl.(memory := a.memory, cpus := a.cpus, timeout := a.timeout)
  {
    var f1 := fl.(memory := a.memory);
    ApplyOne(Value(Memory, a.memory), fl);
    NumberApplied(Cpus, a.cpus, f1);
    NumberApplied(Timeout, a.timeout, f1.(cpus := a.cpus));
    ApplyThree([Value(Memory, a.memory)], [Value(Cpus, Decimal(a.cpus))], [Value(Timeout, Decimal(a.timeout))], fl);
  }

  lemma TpmApplied(a: Attrs, fl: Flags)
    ensures AllSettable(TpmSettings(a))
    ensures ApplyAll(TpmSettings(a), fl) ==
      if a.tpm then fl.(tpm := true, swtpm := Path(a.swtpm, fl.swtpm), swtpmSetup := Path(a.swtpmSetup, fl.swtpmSetup)) else fl
  {
    if a.tpm {
      ApplyOne(Switch(Tpm), fl);
      var f1 := fl.(tpm := true);
      FileApplied(Swtpm, a.swtpm, f1);
      FileApplied(SwtpmSetup, a.swtpmSetup, f1.(swtpm := Path(a.swtpm, fl.swtpm)));
      ApplyThree([Switch(Tpm)], File(Swtpm, a.swtpm), File(SwtpmSetup, a.swtpmSetup), fl);
    }
  }

  lemma DevicesApplied(a: Attrs, fl: Flags)
    ensures AllSettable(DeviceSettings(a))
    ensures ApplyAll(DeviceSettings(a), fl) == fl.(
      machineType := Given(a.machineType, fl.machineType), accel := Given(a.accel, fl.accel),
      network := a.network)
  {
    var f1 := fl.(machineType := Given(a.machineType, fl.machineType));
    var f2 := f1.(accel := Given(a.accel, fl.accel));
    assert ApplyAll(Text(MachineType, a.machineType), fl) == f1 by { TextApplied(MachineType, a.machineType, fl); }
    assert ApplyAll(Text(Accel, a.accel), f1) == f2 by { TextApplied(Accel, a.accel, f1); }
    FileApplied(Network, Some(a.network), f2);
    ApplyThree(Text(MachineType, a.machineType), Text(Accel, a.accel), File(Network, Some(a.network)), fl);
  }

  lemma ShareApplied(a: Attrs, fl: Flags)
    ensures AllSettable(ShareSettings(a))
    ensures ApplyAll(ShareSettings(a), fl) == fl.(shareDir := if a.shareFiles != [] then a.shareDir else fl.shareDir)
  {
    ApplyOne(Value(ShareDir, a.shareDir), fl);
  }

  /** The flag values that the attributes of a target denote. */
  function Denoted(a: Attrs): Flags {
    DEFAULTS.(
      qemu := Path(a.qemu, ""), qemuImg := Path(a.qemuImg, "qemu-img"), kernel := Path(a.kernel, ""),
      initrd := Path(a.initrd, ""), cmdline := a.cmdline, iso := Path(a.iso, ""),
      ovmfCode := Path(Or(a.ovmfCode, a.toolchainCode), ""), ovmfVars := Path(Or(a.ovmfVars, a.toolchainVars), ""),
      disk := Path(a.disk, ""), diskSize := if a.disk.None? then a.diskSize else "",
      memory := a.memory, cpus := a.cpus, timeout := a.timeout, tpm := a.tpm,
      swtpm := if a.tpm then Path(a.swtpm, "swtpm") else "swtpm",
      swtpmSetup := if a.tpm then Path(a.swtpmSetup, "swtpm_setup") else "swtpm_setup",
      machineType := a.machineType, accel := a.accel, network := a.network,
      shareDir := if a.shareFiles != [] then a.shareDir else "")
  }

  lemma SettingsApplied(a: Attrs)
    ensures AllSettable(Settings(a)) && ApplyAll(Settings(a), DEFAULTS) == Denoted(a)
  {
    var q, b, w, r, t, d := QemuSettings(a), BootSettings(a), FirmwareSettings(a), ResourceSettings(a), TpmSettings(a), DeviceSettings(a);
    QemuApplied(a, DEFAULTS);
    var fl := ApplyAll(q, DEFAULTS);
    BootApplied(a, fl);
    fl := ApplyAll(b, fl);
    FirmwareApplied(a, fl);
    ApplyThree(q, b, w, DEFAULTS);
    fl := ApplyAll(w, fl);
    ResourcesApplied(a, fl);
    fl := ApplyAll(r, fl);
    TpmApplied(a, fl);
    ApplyThree(q + b + w, r, t, DEFAULTS);
    fl := ApplyAll(t, fl);
    DevicesApplied(a, fl);
    ShareApplied(a, ApplyAll(d, fl));
    ApplyThree(q + b + w + r + t, d, ShareSettings(a), DEFAULTS);
  }
}
