/** vm_test from attributes to options: script text, shell, Go flags, test runner. */
module VmTestPipeline {
  import opened Sequences
  import opened Numbers
  import opened Shell
  import opened TestRunner
  import opened VMOptions
  import opened VmTest

  /** One script line with the script's own arguments: a final `"$@"` stands for them (section
      2.5.2 of the Shell Command Language), the rest are ordinary words. */
  function Expand(line: string, own: seq<string>): Option<seq<string>> {
    if |ALL_ARGUMENTS| <= |line| && line[|line| - |ALL_ARGUMENTS|..] == ALL_ARGUMENTS then
      var ws := Words(line[..|line| - |ALL_ARGUMENTS|]);
      if ws.None? then None else Some(ws.value + own)
    else Words(line)
  }

  /** What the test runner finds in os.Args[1:]. */
  function ScriptArgs(line: string, own: seq<string>): Option<seq<string>> {
    var argv := Expand(line, own);
    if argv.None? || |argv.value| < 2 then None else Some(argv.value[2..])
  }

  /** The values a target puts on the line; a caller can test each one before the build. */
  predicate SafeSettings(ss: seq<Setting>) {
    forall s :: s in ss ==> s.Value? ==> SafeArg(s.v)
  }

  lemma FlagArgIsSafe(f: FlagName)
    ensures var a := "--" + NameOf(f); SafeArg(a) && !Vanishes(a)
  {
    var a := "--" + NameOf(f);
    assert forall c :: c in a ==> 'a' <= c <= 'z' || c == '-';
    assert forall c :: 'a' <= c <= 'z' || c == '-' ==> IsPlain(c) && c != '~' && c != '$';
    assert forall i :: 0 <= i < |a| ==> a[i] in a;
    SafeDoesNotVanish(a);
  }

  lemma {:induction false} ArgsOfSettings(ss: seq<Setting>)
    ensures SafeSettings(ss) <==> AllSafe(Args(ss))
  {
    if ss != [] {
      ArgsOfSettings(ss[1..]);
      FlagArgIsSafe(ss[0].f);
      var head := SettingArgs(ss[0]);
      assert forall s :: s in ss <==> s == ss[0] || s in ss[1..];
      assert forall a :: a in Args(ss) <==> a in head || a in Args(ss[1..]);
      assert ss[0].Value? ==> forall a :: a in head <==> a == head[0] || a == ss[0].v;
    }
  }

  lemma SkipBlank(s: string)
    ensures Words(" " + s) == Words(s)
  {
    assert (" " + s)[1..] == s;
  }

  lemma QuotedWord(v: string, rest: string)
    requires DoubleSafe(v) && Follows(rest)
    ensures Words(DoubleQuoted(v) + rest) == if Words(rest).None? then None else Some([v] + Words(rest).value)
  {
    var s := DoubleQuoted(v) + rest;
    assert s[0] == '"' && s[1..] == v + "\"" + rest && "" + v == v;
    InsideDouble(v, rest, "");
    assert Word(s, Unquoted, "") == Some((v, rest));
  }

  lemma ScriptWords(runner: string, line: string)
    requires DoubleSafe(runner)
    ensures var ws := Words(line);
      Words(ExecLine(runner, line)) == if ws.None? then None else Some(["exec"] + ([runner] + ws.value))
  {
    SkipBlank(line);
    QuotedWord(runner, " " + line);
    SkipBlank(DoubleQuoted(runner) + (" " + line));
    SafeArgIsOneWord("exec", " " + (DoubleQuoted(runner) + (" " + line)));
  }

  lemma ScriptExpands(runner: string, args: seq<string>, own: seq<string>)
    requires DoubleSafe(runner)
    ensures var ws := Words(ArgLine(args));
      Expand(Script(runner, args), own) == if ws.None? then None else Some(["exec"] + ([runner] + ws.value) + own)
  {
    var line, front := Script(runner, args), ExecLine(runner, ArgLine(args));
    assert line[..|line| - |ALL_ARGUMENTS|] == front && line[|line| - |ALL_ARGUMENTS|..] == ALL_ARGUMENTS;
    ScriptWords(runner, ArgLine(args));
  }

  lemma DropExec(runner: string, args: seq<string>, own: seq<string>)
    ensures (["exec"] + ([runner] + args) + own)[2..] == args + own
  {
  }

  /** The argument list of every target survives the script exactly when every value is safe. */
  lemma ScriptDecodesIff(a: Attrs, runner: string)
    requires DoubleSafe(runner)
    ensures ScriptArgs(Script(runner, Args(Settings(a))), []) == Some(Args(Settings(a))) <==> SafeSettings(Settings(a))
  {
    var args := Args(Settings(a));
    ArgsOfSettings(Settings(a));
    LineDecodesIff(args);
    ScriptExpands(runner, args, []);
    var ws := Words(ArgLine(args));
    if ws.Some? {
      DropExec(runner, ws.value, []);
      assert ws.value + [] == ws.value;
    }
  }

  // ----- Safe values are not empty, so the runner sees every path that is given -----

  lemma SafeParts(x: seq<Setting>, y: seq<Setting>)
    requires SafeSettings(x + y)
    ensures SafeSettings(x) && SafeSettings(y)
  {
    assert forall s :: s in x ==> s in x + y;
    assert forall s :: s in y ==> s in x + y;
  }

  lemma SafeThree(x: seq<Setting>, y: seq<Setting>, z: seq<Setting>)
    requires SafeSettings(x + y + z)
    ensures SafeSettings(x) && SafeSettings(y) && SafeSettings(z)
  {
    SafeParts(x + y, z);
    SafeParts(x, y);
  }

  predicate NotEmpty(p: Option<string>) {
    p != Some("")
  }

  lemma SafeFile(f: FlagName, p: Option<string>)
    requires SafeSettings(File(f, p))
    ensures NotEmpty(p)
  {
    assert p.Some? ==> Value(f, p.value) in File(f, p);
  }

  lemma QemuPathsGiven(a: Attrs)
    requires SafeSettings(QemuSettings(a)) && SafeSettings(BootSettings(a))
    ensures NotEmpty(a.qemu) && NotEmpty(a.kernel) && NotEmpty(a.iso)
  {
    SafeThree(File(Qemu, a.qemu), File(QemuImg, a.qemuImg), File(Kernel, a.kernel));
    SafeThree(File(Initrd, a.initrd), Text(Cmdline, a.cmdline), File(Iso, a.iso));
    SafeFile(Qemu, a.qemu);
    SafeFile(Kernel, a.kernel);
    SafeFile(Iso, a.iso);
  }

  lemma FirmwarePathsGiven(a: Attrs)
    requires SafeSettings(FirmwareSettings(a))
    ensures NotEmpty(Or(a.ovmfCode, a.toolchainCode)) && NotEmpty(Or(a.ovmfVars, a.toolchainVars)) && NotEmpty(a.disk)
  {
    var code, vars := Or(a.ovmfCode, a.toolchainCode), Or(a.ovmfVars, a.toolchainVars);
    SafeThree(File(OvmfCode, code), File(OvmfVars, vars), if a.disk.Some? then File(Disk, a.disk) else Text(DiskSize, a.diskSize));
    SafeFile(OvmfCode, code);
    SafeFile(OvmfVars, vars);
    if a.disk.Some? {
      SafeFile(Disk, a.disk);
    }
  }

  lemma DenotedMachine(a: Attrs)
    requires NotEmpty(a.qemu)
    ensures MachineOptions(Denoted(a)) == MachineMeaning(a)
  {
    var before := MachineMeaning(a);
    assert before + [] == before;
  }

  lemma DenotedBoot(a: Attrs)
    requires NotEmpty(a.kernel) && NotEmpty(a.iso) && NotEmpty(a.disk)
    requires NotEmpty(Or(a.ovmfCode, a.toolchainCode)) && NotEmpty(Or(a.ovmfVars, a.toolchainVars))
    ensures BootOptions(Denoted(a)) == BootMeaning(a)
  {
  }

  lemma DenotedDevices(a: Attrs)
    requires a.shareFiles != [] ==> a.shareDir != ""
    ensures DeviceOptions(Denoted(a)) == DeviceMeaning(a)
  {
  }

  lemma DenotedIsMeant(a: Attrs)
    requires SafeSettings(Settings(a))
    ensures Options(Denoted(a)) == Meaning(a)
  {
    var q, b, w, r, t, d := QemuSettings(a), BootSettings(a), FirmwareSettings(a), ResourceSettings(a), TpmSettings(a), DeviceSettings(a);
    SafeThree(q + b + w + r + t, d, ShareSettings(a));
    SafeThree(q + b + w, r, t);
    SafeThree(q, b, w);
    QemuPathsGiven(a);
    FirmwarePathsGiven(a);
    if a.shareFiles != [] {
      assert Value(ShareDir, a.shareDir) in ShareSettings(a);
    }
    DenotedMachine(a);
    DenotedBoot(a);
    DenotedDevices(a);
  }

  // ----- The firmware of a target -----

  /** File by file: an explicit one wins over the toolchain's, kernel or not, and UEFI needs both. */
  ghost predicate FirmwareRule(a: Attrs, uefi: seq<VMOption>) {
    && (a.ovmfCode.Some? && a.ovmfVars.Some? ==> uefi == [WithUEFI(a.ovmfCode.value, a.ovmfVars.value)])
    && (a.ovmfCode.Some? && a.ovmfVars.None? && a.toolchainVars.Some? ==> uefi == [WithUEFI(a.ovmfCode.value, a.toolchainVars.value)])
    && (a.ovmfCode.None? && a.toolchainCode.Some? && a.ovmfVars.Some? ==> uefi == [WithUEFI(a.toolchainCode.value, a.ovmfVars.value)])
    && (a.ovmfCode.None? && a.toolchainCode.Some? && a.ovmfVars.None? && a.toolchainVars.Some? ==>
        uefi == [WithUEFI(a.toolchainCode.value, a.toolchainVars.value)])
    && (a.ovmfCode.None? && a.toolchainCode.None? ==> uefi == [])
    && (a.ovmfVars.None? && a.toolchainVars.None? ==> uefi == [])
  }

  lemma BootFirmware(a: Attrs)
    ensures FirmwareRule(a, Firmwares(BootMeaning(a)))
  {
    var code, vars := Or(a.ovmfCode, a.toolchainCode), Or(a.ovmfVars, a.toolchainVars);
    var kernel := If(a.kernel.Some?, WithKernelBoot(Path(a.kernel, ""), Path(a.initrd, ""), a.cmdline));
    var uefi := If(code.Some? && vars.Some?, WithUEFI(Path(code, ""), Path(vars, "")));
    var iso := If(a.iso.Some?, WithISO(Path(a.iso, "")));
    var disk := if a.disk.Some? then [WithExistingDisk(a.disk.value)] else If(a.diskSize != "", WithDisk(a.diskSize));
    FirmwareBehind(kernel, code.Some? && vars.Some?, WithUEFI(Path(code, ""), Path(vars, "")));
    NoFirmwares(iso);
    NoFirmwares(disk);
    FirmwaresAppend(kernel + uefi, iso);
    FirmwaresAppend(kernel + uefi + iso, disk);
  }

  lemma MachineIsNoFirmware(a: Attrs)
    ensures Firmwares(MachineMeaning(a)) == []
  {
    NoFirmwares(MachineMeaning(a));
  }

  lemma DevicesAreNoFirmware(a: Attrs)
    ensures Firmwares(DeviceMeaning(a)) == []
  {
    NoFirmwares(DeviceMeaning(a));
  }

  lemma FirmwareMeant(a: Attrs)
    ensures FirmwareRule(a, Firmwares(Meaning(a)))
  {
    BootFirmware(a);
    MachineIsNoFirmware(a);
    DevicesAreNoFirmware(a);
    FirmwaresWithin(MachineMeaning(a), BootMeaning(a), DeviceMeaning(a));
  }

  // ----- The whole pipeline -----

  /** With arguments of its own (`--test_arg`), parsing goes on from the denoted values. */
  lemma ScriptParsesLike(a: Attrs, runner: string, own: seq<string>)
    requires DoubleSafe(runner) && SafeSettings(Settings(a))
    ensures ScriptArgs(Script(runner, Args(Settings(a))), own) == Some(Args(Settings(a)) + own)
    ensures Parse(Args(Settings(a)) + own, DEFAULTS) == Parse(own, Denoted(a))
  {
    var args := Args(Settings(a));
    ArgsOfSettings(Settings(a));
    LineKeepsSafeArgs(args);
    SafeArgsRemain(args);
    ScriptExpands(runner, args, own);
    DropExec(runner, args, own);
    SettingsApplied(a);
    ParseSettings(Settings(a), own, DEFAULTS);
  }

  /** For every target whose values are safe, the script run with no arguments of its own makes
      the test runner ask for exactly the machine that the attributes mean, with its timeout. */
  lemma ScriptMeansItsAttributes(a: Attrs, runner: string)
    requires DoubleSafe(runner) && SafeSettings(Settings(a))
    ensures var args := ScriptArgs(Script(runner, Args(Settings(a))), []);
      args.Some? && Parse(args.value, DEFAULTS) == Some((Denoted(a), []))
    ensures Options(Denoted(a)) == Meaning(a) && Denoted(a).timeout == a.timeout
    ensures FirmwareRule(a, Firmwares(Meaning(a)))
  {
    FirmwareMeant(a);
    ScriptParsesLike(a, runner, []);
    NothingLeft(Denoted(a));
    DenotedIsMeant(a);
  }

  lemma NothingLeft(fl: Flags)
    ensures Parse([], fl) == Some((fl, []))
  {
  }

  // ----- The failing family: a memory size that vanishes -----

  function EarlySettings(a: Attrs): seq<Setting> {
    QemuSettings(a) + BootSettings(a) + FirmwareSettings(a)
  }

  function LateSettings(a: Attrs): seq<Setting> {
    TpmSettings(a) + DeviceSettings(a) + ShareSettings(a)
  }

  /** What follows the memory size on the line. */
  function AfterMemory(a: Attrs): seq<string> {
    ["--" + NameOf(Cpus), Decimal(a.cpus), "--" + NameOf(Timeout), Decimal(a.timeout)]
  }

  lemma ResourceArgs(a: Attrs)
    ensures Args(ResourceSettings(a)) == ["--" + NameOf(Memory)] + [a.memory] + AfterMemory(a)
  {
    var m, c, t := Value(Memory, a.memory), Value(Cpus, Decimal(a.cpus)), Value(Timeout, Decimal(a.timeout));
    assert ResourceSettings(a) == [m, c, t];
    assert [m, c, t][1..] == [c, t] && [c, t][1..] == [t] && [t][1..] == [];
    assert Args([t]) == SettingArgs(t) + [] && Args([c, t]) == SettingArgs(c) + Args([t]);
  }

  lemma DecimalIsSafe(n: int)
    ensures SafeArg(Decimal(n)) && !Vanishes(Decimal(n))
  {
    var d := Decimal(n);
    assert forall i :: 0 <= i < |d| ==> d[i] in d;
  }

  lemma AfterMemoryIsSafe(a: Attrs)
    ensures AllSafe(AfterMemory(a))
  {
    FlagArgIsSafe(Cpus);
    FlagArgIsSafe(Timeout);
    DecimalIsSafe(a.cpus);
    DecimalIsSafe(a.timeout);
  }

  /** The arguments of a target, split at its memory size. */
  lemma ArgsAtMemory(a: Attrs)
    ensures Args(Settings(a))
      == (Args(EarlySettings(a)) + ["--" + NameOf(Memory)]) + [a.memory] + (AfterMemory(a) + Args(LateSettings(a)))
  {
    var e, r := EarlySettings(a), ResourceSettings(a);
    var t, d, s := TpmSettings(a), DeviceSettings(a), ShareSettings(a);
    VmTest.Three(e + r, t, d, s);
    ArgsAppend(e + r, LateSettings(a));
    ArgsAppend(e, r);
    ResourceArgs(a);
    FivePieces(Args(e), ["--" + NameOf(Memory)], [a.memory], AfterMemory(a), Args(LateSettings(a)));
  }

  lemma FivePieces(e: seq<string>, m: seq<string>, v: seq<string>, x: seq<string>, l: seq<string>)
    ensures (e + (m + v + x)) + l == (e + m) + v + (x + l)
  {
  }

  lemma AllSafeAppend(x: seq<string>, y: seq<string>)
    requires AllSafe(x) && AllSafe(y)
    ensures AllSafe(x + y)
  {
  }

  /** The list that the test runner gets from the whole script when the memory size is empty or only
      tabs: everything but the memory size. */
  lemma EmptyMemoryVanishes(a: Attrs, runner: string, own: seq<string>)
    requires DoubleSafe(runner) && Vanishes(a.memory)
    requires SafeSettings(EarlySettings(a)) && SafeSettings(LateSettings(a))
    ensures ScriptArgs(Script(runner, Args(Settings(a))), own)
      == Some(Args(EarlySettings(a)) + ["--" + NameOf(Memory)] + (AfterMemory(a) + Args(LateSettings(a))) + own)
  {
    var args, m := Args(Settings(a)), ["--" + NameOf(Memory)];
    ArgsAtMemory(a);
    ArgsOfSettings(EarlySettings(a));
    ArgsOfSettings(LateSettings(a));
    FlagArgIsSafe(Memory);
    AfterMemoryIsSafe(a);
    AllSafeAppend(Args(EarlySettings(a)), m);
    AllSafeAppend(AfterMemory(a), Args(LateSettings(a)));
    VanishingArgIsDropped(Args(EarlySettings(a)) + m, a.memory, AfterMemory(a) + Args(LateSettings(a)));
    ScriptExpands(runner, args, own);
    DropExec(runner, Args(EarlySettings(a)) + m + (AfterMemory(a) + Args(LateSettings(a))), own);
  }

  lemma NoFlagStartsWithADigit(key: string)
    requires key != "" && '0' <= key[0] <= '9'
    ensures Lookup(key).None?
  {
  }

  /** A negative number in the place of a flag is an unknown flag. */
  lemma NegativeIsNoFlag(n: int, more: seq<string>, fl: Flags)
    requires n < 0
    ensures Parse([Decimal(n)] + more, fl) == None
  {
    var args, name := [Decimal(n)] + more, Digits(-n);
    assert args[0] == "-" + name && args[0][1..] == name && name[0] in name;
    NothingToCut(name, 1);
    NoFlagStartsWithADigit(name);
  }

  /** `--memory` takes `--cpus` as its value, and the number that follows ends the flags or, if it is
      negative, the program. */
  lemma MemorySwallowsCpus(a: Attrs, fl: Flags, more: seq<string>)
    ensures Parse(["--" + NameOf(Memory)] + (AfterMemory(a) + more), fl)
      == if a.cpus < 0 then None else Some((fl.(memory := "--" + NameOf(Cpus)), AfterMemory(a)[1..] + more))
  {
    var swallowed, rest := "--" + NameOf(Cpus), AfterMemory(a)[1..] + more;
    assert ["--" + NameOf(Memory), swallowed] + rest == ["--" + NameOf(Memory)] + (AfterMemory(a) + more);
    FlagWithValue(Memory, swallowed, rest, fl);
    DecimalParts(a.cpus);
    if a.cpus < 0 {
      assert rest == [Decimal(a.cpus)] + rest[1..];
      NegativeIsNoFlag(a.cpus, rest[1..], fl.(memory := swallowed));
    } else {
      assert rest[0] == Decimal(a.cpus);
    }
  }

  lemma EarlyApplied(a: Attrs)
    ensures AllSettable(EarlySettings(a))
    ensures ApplyAll(EarlySettings(a), DEFAULTS) == Truncated(a).(memory := DEFAULTS.memory)
  {
    var q, b, w := QemuSettings(a), BootSettings(a), FirmwareSettings(a);
    QemuApplied(a, DEFAULTS);
    var fl := ApplyAll(q, DEFAULTS);
    BootApplied(a, fl);
    FirmwareApplied(a, ApplyAll(b, fl));
    ApplyThree(q, b, w, DEFAULTS);
  }

  /** The flag values of such a target: those of its files, and the defaults for all the rest. */
  function Truncated(a: Attrs): Flags {
    Denoted(a).(memory := "--" + NameOf(Cpus), cpus := DEFAULTS.cpus, timeout := DEFAULTS.timeout, tpm := false,
                swtpm := DEFAULTS.swtpm, swtpmSetup := DEFAULTS.swtpmSetup, machineType := "", accel := "",
                network := DEFAULTS.network, shareDir := "")
  }

  /** From the whole script to the flag values, for every target whose memory size vanishes: the
      machine has `--cpus` for its memory size, and CPUs, timeout, TPM, network and share are silently
      the defaults; a negative number of CPUs is an error. */
  lemma EmptyMemoryStopsTheParser(a: Attrs, runner: string, own: seq<string>)
    requires DoubleSafe(runner) && Vanishes(a.memory)
    requires SafeSettings(EarlySettings(a)) && SafeSettings(LateSettings(a))
    ensures var args := ScriptArgs(Script(runner, Args(Settings(a))), own);
      && args.Some?
      && Parse(args.value, DEFAULTS) ==
         if a.cpus < 0 then None
         else Some((Truncated(a), AfterMemory(a)[1..] + (Args(LateSettings(a)) + own)))
  {
    var e, l, m := Args(EarlySettings(a)), Args(LateSettings(a)), ["--" + NameOf(Memory)];
    EmptyMemoryVanishes(a, runner, own);
    Regroup(e, m, AfterMemory(a), l, own);
    EarlyApplied(a);
    ParseSettings(EarlySettings(a), m + (AfterMemory(a) + (l + own)), DEFAULTS);
    MemorySwallowsCpus(a, ApplyAll(EarlySettings(a), DEFAULTS), l + own);
  }

  lemma Regroup(e: seq<string>, m: seq<string>, x: seq<string>, l: seq<string>, own: seq<string>)
    ensures e + m + (x + l) + own == e + (m + (x + (l + own)))
  {
  }
}
