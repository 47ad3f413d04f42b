/** vm_go_test.bzl and config.bzl as they run, and their agreement through buildVMOptsFromEnv. */
module EnvRules {
  import opened Sequences
  import opened Numbers
  import opened Shell
  import opened VMOptions
  import opened EnvConfig
  import opened EnvPrograms
  import opened EnvLimits

  /** One branch of a rule: append the binding when the attribute is given. */
  method Add(bs: seq<Binding>, ghost a: Attrs, ghost done: seq<Key>, e: Entry) returns (r: seq<Binding>, ghost done': seq<Key>)
    requires bs == Bindings(a, done) && e == Wanted(a, e.key)
    ensures done' == done + [e.key] && r == Bindings(a, done')
  {
    r, done' := bs, done + [e.key];
    if e.source.Some? {
      r := r + [Binding(e.key, e.source.value)];
    }
    BindingsAppend(a, done, [e.key]);
    assert [e.key][1..] == [];
    assert BindingsOf(e) + [] == BindingsOf(e) && bs + BindingsOf(e) == r;
  }

  method RenderExports(bs: seq<Binding>) returns (lines: seq<string>)
    ensures lines == ExportLines(bs)
  {
    lines := [];
    for i := 0 to |bs|
      invariant lines + ExportLines(bs[i..]) == ExportLines(bs)
    {
      assert bs[i..][1..] == bs[i + 1..];
      Assoc(lines, [ExportLine(VarName(bs[i].key), Plain(bs[i].source))], ExportLines(bs[i + 1..]));
      lines := lines + [ExportLine(VarName(bs[i].key), Plain(bs[i].source))];
    }
  }

  method ToolBindings(a: Attrs) returns (bs: seq<Binding>)
    ensures bs == Bindings(a, [Qemu, QemuImg, Kernel, Initrd, Cmdline])
  {
    bs := [];
    ghost var done: seq<Key> := [];
    bs, done := Add(bs, a, done, FileEntry(Qemu, a.qemu));
    bs, done := Add(bs, a, done, FileEntry(QemuImg, a.qemuImg));
    bs, done := Add(bs, a, done, FileEntry(Kernel, a.kernel));
    bs, done := Add(bs, a, done, FileEntry(Initrd, a.initrd));
    bs, done := Add(bs, a, done, TextEntry(Cmdline, a.cmdline != "", a.cmdline));
    assert done == [Qemu, QemuImg, Kernel, Initrd, Cmdline];
  }

  method DiskBindings(a: Attrs) returns (bs: seq<Binding>)
    ensures bs == Bindings(a, [Iso, OvmfCode, OvmfVars, Disk, DiskSize])
  {
    bs := [];
    ghost var done: seq<Key> := [];
    bs, done := Add(bs, a, done, FileEntry(Iso, a.iso));
    bs, done := Add(bs, a, done, FileEntry(OvmfCode, Firmware(a.ovmfCode, a.toolchainCode, a.kernel)));
    bs, done := Add(bs, a, done, FileEntry(OvmfVars, Firmware(a.ovmfVars, a.toolchainVars, a.kernel)));
    bs, done := Add(bs, a, done, FileEntry(Disk, a.disk));
    bs, done := Add(bs, a, done, TextEntry(DiskSize, a.disk.None? && a.diskSize != "", a.diskSize));
    assert done == [Iso, OvmfCode, OvmfVars, Disk, DiskSize];
  }

  method ResourceBindings(a: Attrs) returns (bs: seq<Binding>)
    ensures bs == Bindings(a, [Memory, Cpus, Tpm, Swtpm, SwtpmSetup])
  {
    bs := [];
    ghost var done: seq<Key> := [];
    bs, done := Add(bs, a, done, TextEntry(Memory, true, a.memory));
    bs, done := Add(bs, a, done, TextEntry(Cpus, true, Decimal(a.cpus)));
    bs, done := Add(bs, a, done, TextEntry(Tpm, a.tpm, "true"));
    bs, done := Add(bs, a, done, FileEntry(Swtpm, When(a.tpm, a.swtpm)));
    bs, done := Add(bs, a, done, FileEntry(SwtpmSetup, When(a.tpm, a.swtpmSetup)));
    assert done == [Memory, Cpus, Tpm, Swtpm, SwtpmSetup];
  }

  lemma BindingsJoin(a: Attrs, x: seq<Key>, y: seq<Key>, all: seq<Key>)
    requires all == x + y
    ensures Bindings(a, all) == Bindings(a, x) + Bindings(a, y)
  {
    BindingsAppend(a, x, y);
  }

  method MachineBindings(a: Attrs) returns (bs: seq<Binding>)
    ensures bs == Bindings(a, [MachineType, Accel])
  {
    bs := [];
    ghost var done: seq<Key> := [];
    bs, done := Add(bs, a, done, TextEntry(MachineType, a.machineType != "", a.machineType));
    bs, done := Add(bs, a, done, TextEntry(Accel, a.accel != "", a.accel));
    assert done == [MachineType, Accel];
  }

  method NetworkBindings(a: Attrs) returns (bs: seq<Binding>)
    ensures bs == Bindings(a, [MachineType, Accel, Network, Bridge, PortForwards])
  {
    var machine := MachineBindings(a);
    bs := [];
    ghost var done: seq<Key> := [];
    bs, done := Add(bs, a, done, TextEntry(Network, true, a.network));
    bs, done := Add(bs, a, done, TextEntry(Bridge, a.network == "bridge", a.bridge));
    bs, done := Add(bs, a, done, TextEntry(PortForwards, a.ports != [], RenderPorts(a.ports)));
    assert done == [Network, Bridge, PortForwards];
    BindingsJoin(a, [MachineType, Accel], done, [MachineType, Accel, Network, Bridge, PortForwards]);
    bs := machine + bs;
  }

  lemma GoTestFirst(a: Attrs)
    ensures Bindings(a, GO_TEST_ORDER[..10])
      == Bindings(a, [Qemu, QemuImg, Kernel, Initrd, Cmdline]) + Bindings(a, [Iso, OvmfCode, OvmfVars, Disk, DiskSize])
  {
    BindingsJoin(a, [Qemu, QemuImg, Kernel, Initrd, Cmdline], [Iso, OvmfCode, OvmfVars, Disk, DiskSize], GO_TEST_ORDER[..10]);
  }

  lemma GoTestSecond(a: Attrs)
    ensures Bindings(a, GO_TEST_ORDER[10..])
      == Bindings(a, [Memory, Cpus, Tpm, Swtpm, SwtpmSetup]) + Bindings(a, [MachineType, Accel, Network, Bridge, PortForwards])
  {
    BindingsJoin(a, [Memory, Cpus, Tpm, Swtpm, SwtpmSetup], [MachineType, Accel, Network, Bridge, PortForwards], GO_TEST_ORDER[10..]);
  }

  lemma GoTestBindings(a: Attrs)
    ensures Bindings(a, GO_TEST_ORDER)
      == (Bindings(a, [Qemu, QemuImg, Kernel, Initrd, Cmdline]) + Bindings(a, [Iso, OvmfCode, OvmfVars, Disk, DiskSize]))
         + (Bindings(a, [Memory, Cpus, Tpm, Swtpm, SwtpmSetup]) + Bindings(a, [MachineType, Accel, Network, Bridge, PortForwards]))
  {
    GoTestFirst(a);
    GoTestSecond(a);
    BindingsJoin(a, GO_TEST_ORDER[..10], GO_TEST_ORDER[10..], GO_TEST_ORDER);
  }

  method VmGoTestImpl(a: Attrs) returns (script: string)
    ensures script == ExportScript(Bindings(a, GO_TEST_ORDER))
  {
    var tools := ToolBindings(a);
    var disks := DiskBindings(a);
    var resources := ResourceBindings(a);
    var network := NetworkBindings(a);
    GoTestBindings(a);
    assert tools + disks + resources + network == (tools + disks) + (resources + network);
    var lines := RenderExports(tools + disks + resources + network);
    script := Join(lines, '\n');
  }

  /** The files of config.bzl, then its literals. */
  const PATH_KEYS := CONFIG_ORDER[..10]
  const LITERAL_KEYS := CONFIG_ORDER[10..]

  method ToolPaths(a: Attrs) returns (bs: seq<Binding>)
    ensures bs == Bindings(a, [Qemu, QemuImg, Kernel, Initrd, Iso])
  {
    bs := [];
    ghost var done: seq<Key> := [];
    bs, done := Add(bs, a, done, FileEntry(Qemu, a.qemu));
    bs, done := Add(bs, a, done, FileEntry(QemuImg, a.qemuImg));
    bs, done := Add(bs, a, done, FileEntry(Kernel, a.kernel));
    bs, done := Add(bs, a, done, FileEntry(Initrd, a.initrd));
    bs, done := Add(bs, a, done, FileEntry(Iso, a.iso));
    assert done == [Qemu, QemuImg, Kernel, Initrd, Iso];
  }

  method FirmwarePaths(a: Attrs) returns (bs: seq<Binding>)
    ensures bs == Bindings(a, [OvmfCode, OvmfVars, Disk, Swtpm, SwtpmSetup])
  {
    bs := [];
    ghost var done: seq<Key> := [];
    bs, done := Add(bs, a, done, FileEntry(OvmfCode, Firmware(a.ovmfCode, a.toolchainCode, a.kernel)));
    bs, done := Add(bs, a, done, FileEntry(OvmfVars, Firmware(a.ovmfVars, a.toolchainVars, a.kernel)));
    bs, done := Add(bs, a, done, FileEntry(Disk, a.disk));
    bs, done := Add(bs, a, done, FileEntry(Swtpm, When(a.tpm, a.swtpm)));
    bs, done := Add(bs, a, done, FileEntry(SwtpmSetup, When(a.tpm, a.swtpmSetup)));
    assert done == [OvmfCode, OvmfVars, Disk, Swtpm, SwtpmSetup];
  }

  method DiskLiterals(a: Attrs) returns (bs: seq<Binding>)
    ensures bs == Bindings(a, [Cmdline, DiskSize])
  {
    bs := [];
    ghost var done: seq<Key> := [];
    bs, done := Add(bs, a, done, TextEntry(Cmdline, a.cmdline != "", a.cmdline));
    bs, done := Add(bs, a, done, TextEntry(DiskSize, a.disk.None? && a.diskSize != "", a.diskSize));
    assert done == [Cmdline, DiskSize];
  }

  method ResourceLiterals(a: Attrs) returns (bs: seq<Binding>)
    ensures bs == Bindings(a, [Cmdline, DiskSize, Memory, Cpus, Tpm])
  {
    var disk := DiskLiterals(a);
    bs := [];
    ghost var done: seq<Key> := [];
    bs, done := Add(bs, a, done, TextEntry(Memory, true, a.memory));
    bs, done := Add(bs, a, done, TextEntry(Cpus, true, Decimal(a.cpus)));
    bs, done := Add(bs, a, done, TextEntry(Tpm, a.tpm, "true"));
    assert done == [Memory, Cpus, Tpm];
    BindingsJoin(a, [Cmdline, DiskSize], done, [Cmdline, DiskSize, Memory, Cpus, Tpm]);
    bs := disk + bs;
  }

  method RenderBindings(bs: seq<Binding>, workspace: string) returns (lines: seq<string>)
    ensures lines == BindingLines(bs, workspace)
  {
    lines := [];
    for i := 0 to |bs|
      invariant lines + BindingLines(bs[i..], workspace) == BindingLines(bs, workspace)
    {
      assert bs[i..][1..] == bs[i + 1..];
      Assoc(lines, [StatementLine(StatementOf(bs[i], workspace))], BindingLines(bs[i + 1..], workspace));
      lines := lines + [StatementLine(StatementOf(bs[i], workspace))];
    }
  }

  lemma PathBindings(a: Attrs)
    ensures Bindings(a, PATH_KEYS)
      == Bindings(a, [Qemu, QemuImg, Kernel, Initrd, Iso]) + Bindings(a, [OvmfCode, OvmfVars, Disk, Swtpm, SwtpmSetup])
  {
    BindingsJoin(a, [Qemu, QemuImg, Kernel, Initrd, Iso], [OvmfCode, OvmfVars, Disk, Swtpm, SwtpmSetup], PATH_KEYS);
  }

  lemma LiteralBindings(a: Attrs)
    ensures Bindings(a, LITERAL_KEYS)
      == Bindings(a, [Cmdline, DiskSize, Memory, Cpus, Tpm]) + Bindings(a, [MachineType, Accel, Network, Bridge, PortForwards])
  {
    BindingsJoin(a, [Cmdline, DiskSize, Memory, Cpus, Tpm], [MachineType, Accel, Network, Bridge, PortForwards], LITERAL_KEYS);
  }

  method VmtestConfigImpl(a: Attrs, workspace: string) returns (initLines: seq<string>)
    ensures initLines == InitLines(Bindings(a, PATH_KEYS), Bindings(a, LITERAL_KEYS), workspace)
  {
    var tools := ToolPaths(a);
    var firmware := FirmwarePaths(a);
    var resources := ResourceLiterals(a);
    var network := NetworkBindings(a);
    PathBindings(a);
    LiteralBindings(a);
    var pathLines := RenderBindings(tools + firmware, workspace);
    var literalLines := RenderBindings(resources + network, workspace);
    initLines := if tools + firmware == [] then [] else [NEW_RUNFILES, CHECK_RUNFILES];
    initLines := initLines + pathLines + literalLines;
  }

  // ----- Agreement -----

  ghost predicate NothingSet(env: Env) {
    forall k: Key :: VarName(k) !in env
  }

  lemma AssignedGrants(a: Attrs, order: seq<Key>, env: Env, resolve: string -> string)
    requires Covers(order) && NothingSet(env)
    ensures Grants(AssignAll(env, Bindings(a, order), resolve), a, resolve)
  {
    forall k: Key ensures Get(AssignAll(env, Bindings(a, order), resolve), k) == Wish(a, k, "", resolve) {
      AssignedValue(a, order, env, k, resolve);
      assert k in order;
    }
  }

  /** The path that a variable gets for a file, empty where the rule has none. */
  function FileAt(p: Option<string>, resolve: string -> string): string {
    if p.Some? then resolve(p.value) else ""
  }

  /** What each variable is to hold, in terms of the attributes alone; empty is not set. */
  function Value(a: Attrs, k: Key, resolve: string -> string): string {
    match k
    case Qemu => FileAt(a.qemu, resolve)
    case QemuImg => FileAt(a.qemuImg, resolve)
    case Kernel => FileAt(a.kernel, resolve)
    case Initrd => FileAt(a.initrd, resolve)
    case Iso => FileAt(a.iso, resolve)
    case OvmfCode => if a.ovmfCode.None? && a.kernel.None? then FileAt(a.toolchainCode, resolve) else FileAt(a.ovmfCode, resolve)
    case OvmfVars => if a.ovmfVars.None? && a.kernel.None? then FileAt(a.toolchainVars, resolve) else FileAt(a.ovmfVars, resolve)
    case Disk => FileAt(a.disk, resolve)
    case Swtpm => if a.tpm then FileAt(a.swtpm, resolve) else ""
    case SwtpmSetup => if a.tpm then FileAt(a.swtpmSetup, resolve) else ""
    case Cmdline => a.cmdline
    case DiskSize => if a.disk.Some? then "" else a.diskSize
    case Memory => a.memory
    case Cpus => Decimal(a.cpus)
    case Tpm => if a.tpm then "true" else ""
    case MachineType => a.machineType
    case Accel => a.accel
    case Network => a.network
    case Bridge => if a.network == "bridge" then a.bridge else ""
    case PortForwards => if a.ports == [] then "" else RenderPorts(a.ports)
  }

  lemma WishIsValue(a: Attrs, k: Key, resolve: string -> string)
    ensures Wish(a, k, "", resolve) == Value(a, k, resolve)
  {
  }

  /** After the lines of either rule every variable holds its value, in an environment that set none. */
  lemma VariablesHold(a: Attrs, order: seq<Key>, ambient: Env, k: Key, resolve: string -> string)
    requires Covers(order) && NothingSet(ambient)
    ensures Get(AssignAll(ambient, Bindings(a, order), resolve), k) == Value(a, k, resolve)
  {
    AssignedGrants(a, order, ambient, resolve);
    WishIsValue(a, k, resolve);
  }

  lemma ConfigOrderSplits(a: Attrs)
    ensures Bindings(a, PATH_KEYS) + Bindings(a, LITERAL_KEYS) == Bindings(a, CONFIG_ORDER)
  {
    assert PATH_KEYS + LITERAL_KEYS == CONFIG_ORDER;
    BindingsAppend(a, PATH_KEYS, LITERAL_KEYS);
  }

  /** The firmware that the decoder is to configure, file by file: an explicit file wins, the toolchain's
      takes its place only without a kernel, and if either file is missing there is none at all. */
  ghost predicate FirmwareRule(a: Attrs, resolve: string -> string, uefi: seq<VMOption>) {
    && (a.ovmfCode.Some? && a.ovmfVars.Some? ==>
        uefi == [WithUEFI(resolve(a.ovmfCode.value), resolve(a.ovmfVars.value))])
    && (a.kernel.Some? && (a.ovmfCode.None? || a.ovmfVars.None?) ==> uefi == [])
    && (a.ovmfCode.None? && a.toolchainCode.None? ==> uefi == [])
    && (a.ovmfVars.None? && a.toolchainVars.None? ==> uefi == [])
    && (a.kernel.None? && a.ovmfCode.None? && a.toolchainCode.Some? && a.ovmfVars.None? && a.toolchainVars.Some? ==>
        uefi == [WithUEFI(resolve(a.toolchainCode.value), resolve(a.toolchainVars.value))])
    && (a.kernel.None? && a.ovmfCode.Some? && a.ovmfVars.None? && a.toolchainVars.Some? ==>
        uefi == [WithUEFI(resolve(a.ovmfCode.value), resolve(a.toolchainVars.value))])
    && (a.kernel.None? && a.ovmfCode.None? && a.toolchainCode.Some? && a.ovmfVars.Some? ==>
        uefi == [WithUEFI(resolve(a.toolchainCode.value), resolve(a.ovmfVars.value))])
  }

  lemma PartsAreNoFirmware(a: Attrs, resolve: string -> string)
    ensures Firmwares(MeaningTools(a, resolve)) == [] && Firmwares(MeaningDisks(a, resolve)) == []
    ensures Firmwares([WithCPUs(a.cpus)]) == [] && Firmwares(MeaningTail(a, resolve)) == [] && Firmwares(Forwards(a.ports)) == []
  {
    NoFirmwares(MeaningTools(a, resolve));
    NoFirmwares(MeaningDisks(a, resolve));
    NoFirmwares([WithCPUs(a.cpus)]);
    NoFirmwares(MeaningTail(a, resolve));
    NoFirmwares(Forwards(a.ports));
  }

  lemma OthersAreNoFirmware(a: Attrs, resolve: string -> string)
    ensures Firmwares(MeaningTools(a, resolve)) == []
    ensures Firmwares(MeaningDisks(a, resolve) + [WithCPUs(a.cpus)] + MeaningTail(a, resolve) + Forwards(a.ports)) == []
  {
    PartsAreNoFirmware(a, resolve);
    FirmwaresAppend(MeaningDisks(a, resolve), [WithCPUs(a.cpus)]);
    FirmwaresAppend(MeaningDisks(a, resolve) + [WithCPUs(a.cpus)], MeaningTail(a, resolve));
    FirmwaresAppend(MeaningDisks(a, resolve) + [WithCPUs(a.cpus)] + MeaningTail(a, resolve), Forwards(a.ports));
  }

  lemma BootFirmware(a: Attrs, resolve: string -> string)
    ensures FirmwareRule(a, resolve, Firmwares(MeaningBoot(a, resolve)))
  {
    var code, vars := Firmware(a.ovmfCode, a.toolchainCode, a.kernel), Firmware(a.ovmfVars, a.toolchainVars, a.kernel);
    var kernel := If(a.kernel.Some?, WithKernelBoot(Resolved(a.kernel, resolve), Resolved(a.initrd, resolve), a.cmdline));
    FirmwareBehind(kernel, code.Some? && vars.Some?, WithUEFI(Resolved(code, resolve), Resolved(vars, resolve)));
  }

  lemma AroundBoot(tools: seq<VMOption>, boot: seq<VMOption>, d: seq<VMOption>, c: seq<VMOption>, t: seq<VMOption>, f: seq<VMOption>)
    ensures tools + boot + d + c + t + f == tools + boot + (d + c + t + f)
  {
  }

  lemma FirmwareMeant(a: Attrs, resolve: string -> string)
    ensures FirmwareRule(a, resolve, Firmwares(Meaning(a, resolve)))
  {
    OthersAreNoFirmware(a, resolve);
    BootFirmware(a, resolve);
    var d, c, t, f := MeaningDisks(a, resolve), [WithCPUs(a.cpus)], MeaningTail(a, resolve), Forwards(a.ports);
    AroundBoot(MeaningTools(a, resolve), MeaningBoot(a, resolve), d, c, t, f);
    FirmwaresWithin(MeaningTools(a, resolve), MeaningBoot(a, resolve), d + c + t + f);
  }

  /** config.bzl: the generated init gives the decoder exactly what the attributes mean. */
  lemma ConfigMeansItsAttributes(a: Attrs, workspace: string, ambient: Env, rlocation: string -> Option<string>, resolve: string -> string)
    requires ValidAttrs(a) && NothingSet(ambient) && Usable(a, resolve)
    requires forall bs :: bs in [Bindings(a, PATH_KEYS), Bindings(a, LITERAL_KEYS)] ==>
      GoSafeAll(bs, workspace) && Located(bs, workspace, rlocation, resolve)
    ensures var env := RunInit(InitLines(Bindings(a, PATH_KEYS), Bindings(a, LITERAL_KEYS), workspace), ambient, rlocation);
      env.Some? && FromEnv(env.value) == Some(Meaning(a, resolve))
    ensures FirmwareRule(a, resolve, Firmwares(Meaning(a, resolve)))
  {
    FirmwareMeant(a, resolve);
    var p, l := Bindings(a, PATH_KEYS), Bindings(a, LITERAL_KEYS);
    assert p in [p, l] && l in [p, l];
    InitAssigns(p, l, workspace, ambient, rlocation, resolve);
    ConfigOrderSplits(a);
    BothOrdersCover();
    AssignedGrants(a, CONFIG_ORDER, ambient, resolve);
    GrantedMeaning(AssignAll(ambient, Bindings(a, CONFIG_ORDER), resolve), a, resolve);
  }

  /** vm_go_test.bzl: the exports give the decoder the same, files by their short paths. */
  lemma GoTestMeansItsAttributes(a: Attrs, ambient: Env)
    requires ValidAttrs(a) && NothingSet(ambient) && Usable(a, IDENTITY)
    requires DoubleSafeAll(Bindings(a, GO_TEST_ORDER))
    ensures var env := RunExports(ExportScript(Bindings(a, GO_TEST_ORDER)), ambient);
      env.Some? && FromEnv(env.value) == Some(Meaning(a, IDENTITY))
    ensures FirmwareRule(a, IDENTITY, Firmwares(Meaning(a, IDENTITY)))
  {
    FirmwareMeant(a, IDENTITY);
    ExportsAssign(Bindings(a, GO_TEST_ORDER), ambient);
    BothOrdersCover();
    AssignedGrants(a, GO_TEST_ORDER, ambient, IDENTITY);
    GrantedMeaning(AssignAll(ambient, Bindings(a, GO_TEST_ORDER), IDENTITY), a, IDENTITY);
  }

  // ----- Exactly when the rules' own lines have their effect -----

  lemma GoTestAssignsIff(a: Attrs, ambient: Env)
    requires NothingSet(ambient)
    ensures var bs := Bindings(a, GO_TEST_ORDER);
      RunExports(ExportScript(bs), ambient) == Some(AssignAll(ambient, bs, IDENTITY)) <==> DoubleSafeAll(bs)
  {
    BothOrdersCover();
    BindingsDistinct(a, GO_TEST_ORDER);
    ExportsAssignIff(Bindings(a, GO_TEST_ORDER), ambient);
  }

  lemma ConfigAssignsIff(a: Attrs, workspace: string, ambient: Env, rlocation: string -> Option<string>, resolve: string -> string)
    requires OneName(rlocation) && Located(Bindings(a, CONFIG_ORDER), workspace, rlocation, resolve)
    ensures var p, l := Bindings(a, PATH_KEYS), Bindings(a, LITERAL_KEYS);
      RunInit(InitLines(p, l, workspace), ambient, rlocation) == Some(AssignAll(ambient, Bindings(a, CONFIG_ORDER), resolve))
      <==> GoSafeAll(Bindings(a, CONFIG_ORDER), workspace)
  {
    ConfigOrderSplits(a);
    BothOrdersCover();
    BindingsDistinct(a, CONFIG_ORDER);
    InitAssignsIff(Bindings(a, PATH_KEYS), Bindings(a, LITERAL_KEYS), workspace, ambient, rlocation, resolve);
    GoSafeJoin(Bindings(a, PATH_KEYS), Bindings(a, LITERAL_KEYS), workspace);
  }

  // ----- The two encodings agree, up to the names of files -----

  function Rename(path: string, resolve: string -> string): string {
    if path == "" then "" else resolve(path)
  }

  /** An option with its files, where it has any, named by `resolve`. */
  function Renamed(o: VMOption, resolve: string -> string): VMOption {
    match o
    case WithQemuBinary(path) => WithQemuBinary(Rename(path, resolve))
    case WithQemuImg(path) => WithQemuImg(Rename(path, resolve))
    case WithKernelBoot(kernel, initrd, cmdline) => WithKernelBoot(Rename(kernel, resolve), Rename(initrd, resolve), cmdline)
    case WithUEFI(code, vars) => WithUEFI(Rename(code, resolve), Rename(vars, resolve))
    case WithISO(path) => WithISO(Rename(path, resolve))
    case WithExistingDisk(path) => WithExistingDisk(Rename(path, resolve))
    case WithTPM(swtpm, setup) => WithTPM(Rename(swtpm, resolve), Rename(setup, resolve))
    case _ => o
  }

  function RenamedAll(opts: seq<VMOption>, resolve: string -> string): (r: seq<VMOption>)
    ensures |r| == |opts| && forall i :: 0 <= i < |opts| ==> r[i] == Renamed(opts[i], resolve)
  {
    seq(|opts|, i requires 0 <= i < |opts| => Renamed(opts[i], resolve))
  }

  lemma RenamedAppend(x: seq<VMOption>, y: seq<VMOption>, resolve: string -> string)
    ensures RenamedAll(x + y, resolve) == RenamedAll(x, resolve) + RenamedAll(y, resolve)
  {
  }

  lemma RenamedIf(b: bool, o: VMOption, resolve: string -> string)
    ensures RenamedAll(If(b, o), resolve) == If(b, Renamed(o, resolve))
  {
  }

  /** Four groups of options in a row. */
  lemma RenamedFour(w: seq<VMOption>, x: seq<VMOption>, y: seq<VMOption>, z: seq<VMOption>, resolve: string -> string)
    ensures RenamedAll(w + x + y + z, resolve)
      == RenamedAll(w, resolve) + RenamedAll(x, resolve) + RenamedAll(y, resolve) + RenamedAll(z, resolve)
  {
    RenamedAppend(w + x + y, z, resolve);
    RenamedAppend(w + x, y, resolve);
    RenamedAppend(w, x, resolve);
  }

  lemma RenamedFourIfs(b1: bool, o1: VMOption, b2: bool, o2: VMOption, b3: bool, o3: VMOption, b4: bool, o4: VMOption,
                       resolve: string -> string)
    ensures RenamedAll(If(b1, o1) + If(b2, o2) + If(b3, o3) + If(b4, o4), resolve)
      == If(b1, Renamed(o1, resolve)) + If(b2, Renamed(o2, resolve)) + If(b3, Renamed(o3, resolve)) + If(b4, Renamed(o4, resolve))
  {
    RenamedIf(b1, o1, resolve);
    RenamedIf(b2, o2, resolve);
    RenamedIf(b3, o3, resolve);
    RenamedIf(b4, o4, resolve);
    RenamedFour(If(b1, o1), If(b2, o2), If(b3, o3), If(b4, o4), resolve);
  }

  lemma FileRenamed(a: Attrs, k: Key, p: Option<string>, resolve: string -> string)
    requires Usable(a, IDENTITY) && Wanted(a, k) == FileEntry(k, p)
    ensures Rename(Resolved(p, IDENTITY), resolve) == Resolved(p, resolve)
  {
    var s := Wanted(a, k).source;
    assert s.Some? && s.value.Path? ==> IDENTITY(s.value.short) != "";
  }

  lemma ToolsRenamed(a: Attrs, resolve: string -> string)
    requires Usable(a, IDENTITY)
    ensures RenamedAll(MeaningTools(a, IDENTITY), resolve) == MeaningTools(a, resolve)
  {
    FileRenamed(a, Qemu, a.qemu, resolve);
    FileRenamed(a, QemuImg, a.qemuImg, resolve);
    RenamedFourIfs(a.qemu.Some?, WithQemuBinary(Resolved(a.qemu, IDENTITY)),
                   a.qemuImg.Some?, WithQemuImg(Resolved(a.qemuImg, IDENTITY)),
                   a.machineType != "", WithMachineType(a.machineType), a.accel != "", WithAccel(a.accel), resolve);
  }

  lemma BootRenamed(a: Attrs, resolve: string -> string)
    requires Usable(a, IDENTITY)
    ensures RenamedAll(MeaningBoot(a, IDENTITY), resolve) == MeaningBoot(a, resolve)
  {
    var code, vars := Firmware(a.ovmfCode, a.toolchainCode, a.kernel), Firmware(a.ovmfVars, a.toolchainVars, a.kernel);
    FileRenamed(a, Kernel, a.kernel, resolve);
    FileRenamed(a, Initrd, a.initrd, resolve);
    FileRenamed(a, OvmfCode, code, resolve);
    FileRenamed(a, OvmfVars, vars, resolve);
    var boot := WithKernelBoot(Resolved(a.kernel, IDENTITY), Resolved(a.initrd, IDENTITY), a.cmdline);
    var uefi := WithUEFI(Resolved(code, IDENTITY), Resolved(vars, IDENTITY));
    RenamedIf(a.kernel.Some?, boot, resolve);
    RenamedIf(code.Some? && vars.Some?, uefi, resolve);
    RenamedAppend(If(a.kernel.Some?, boot), If(code.Some? && vars.Some?, uefi), resolve);
  }

  lemma DiskFilesRenamed(a: Attrs, resolve: string -> string)
    requires Usable(a, IDENTITY)
    ensures Renamed(WithISO(Resolved(a.iso, IDENTITY)), resolve) == WithISO(Resolved(a.iso, resolve))
    ensures Renamed(WithExistingDisk(Resolved(a.disk, IDENTITY)), resolve) == WithExistingDisk(Resolved(a.disk, resolve))
  {
    FileRenamed(a, Iso, a.iso, resolve);
    FileRenamed(a, Disk, a.disk, resolve);
  }

  lemma DisksRenamed(a: Attrs, resolve: string -> string)
    requires Usable(a, IDENTITY)
    ensures RenamedAll(MeaningDisks(a, IDENTITY), resolve) == MeaningDisks(a, resolve)
  {
    DiskFilesRenamed(a, resolve);
    RenamedFourIfs(a.iso.Some?, WithISO(Resolved(a.iso, IDENTITY)), a.disk.Some?, WithExistingDisk(Resolved(a.disk, IDENTITY)),
                   a.disk.None? && a.diskSize != "", WithDisk(a.diskSize), a.memory != "", WithMemory(a.memory), resolve);
  }

  lemma TailRenamed(a: Attrs, resolve: string -> string)
    requires Usable(a, IDENTITY)
    ensures RenamedAll(MeaningTail(a, IDENTITY), resolve) == MeaningTail(a, resolve)
  {
    var tpm := WithTPM(Resolved(a.swtpm, IDENTITY), Resolved(a.swtpmSetup, IDENTITY));
    if a.tpm {
      FileRenamed(a, Swtpm, a.swtpm, resolve);
      FileRenamed(a, SwtpmSetup, a.swtpmSetup, resolve);
    }
    RenamedIf(a.tpm && a.swtpm.Some? && a.swtpmSetup.Some?, tpm, resolve);
    RenamedAppend(If(a.tpm && a.swtpm.Some? && a.swtpmSetup.Some?, tpm), NetworkOption(a.network), resolve);
    assert RenamedAll(NetworkOption(a.network), resolve) == NetworkOption(a.network);
  }

  /** The meaning with its files renamed is the meaning under the renaming. */
  lemma MeaningRenamed(a: Attrs, resolve: string -> string)
    requires Usable(a, IDENTITY)
    ensures RenamedAll(Meaning(a, IDENTITY), resolve) == Meaning(a, resolve)
  {
    var tools, boot, disks, tail := MeaningTools(a, IDENTITY), MeaningBoot(a, IDENTITY), MeaningDisks(a, IDENTITY), MeaningTail(a, IDENTITY);
    ToolsRenamed(a, resolve);
    BootRenamed(a, resolve);
    DisksRenamed(a, resolve);
    TailRenamed(a, resolve);
    RenamedAppend(tools + boot + disks + [WithCPUs(a.cpus)] + tail, Forwards(a.ports), resolve);
    RenamedAppend(tools + boot + disks + [WithCPUs(a.cpus)], tail, resolve);
    RenamedFour(tools, boot, disks, [WithCPUs(a.cpus)], resolve);
    assert RenamedAll([WithCPUs(a.cpus)], resolve) == [WithCPUs(a.cpus)];
    assert RenamedAll(Forwards(a.ports), resolve) == Forwards(a.ports);
  }

  /** Wherever the runfiles put the files: the two rules give the decoder the same options, except that
      the files which the exports name by their short paths are named by what these resolve to. */
  lemma EncodingsAgree(a: Attrs, workspace: string, ambient: Env, rlocation: string -> Option<string>, resolve: string -> string)
    requires ValidAttrs(a) && NothingSet(ambient) && Usable(a, IDENTITY) && Usable(a, resolve)
    requires forall bs :: bs in [Bindings(a, PATH_KEYS), Bindings(a, LITERAL_KEYS)] ==>
      GoSafeAll(bs, workspace) && Located(bs, workspace, rlocation, resolve)
    requires DoubleSafeAll(Bindings(a, GO_TEST_ORDER))
    ensures var config := RunInit(InitLines(Bindings(a, PATH_KEYS), Bindings(a, LITERAL_KEYS), workspace), ambient, rlocation);
      var goTest := RunExports(ExportScript(Bindings(a, GO_TEST_ORDER)), ambient);
      (&& config.Some? && goTest.Some? && FromEnv(goTest.value).Some?
       && FromEnv(config.value) == Some(RenamedAll(FromEnv(goTest.value).value, resolve)))
  {
    ConfigMeansItsAttributes(a, workspace, ambient, rlocation, resolve);
    GoTestMeansItsAttributes(a, ambient);
    MeaningRenamed(a, resolve);
  }
}
