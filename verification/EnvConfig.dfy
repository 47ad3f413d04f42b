/** The two encodings of a VM configuration as environment variables (vmtest/config.bzl and
    vmtest/vm_go_test.bzl) and their decoder, buildVMOptsFromEnv (machine/machine.go). */
module EnvConfig {
  import opened Sequences
  import opened Numbers
  import opened VMOptions

  datatype Key =
    | Qemu | QemuImg | Kernel | Initrd | Iso | OvmfCode | OvmfVars | Disk | Swtpm | SwtpmSetup
    | Cmdline | DiskSize | Memory | Cpus | Tpm | MachineType | Accel | Network | Bridge | PortForwards

  function VarName(k: Key): (name: string)
    ensures name != "" && forall c :: c in name ==> 'A' <= c <= 'Z' || c == '_'
  {
    match k
    case Qemu => "VMTEST_QEMU"
    case QemuImg => "VMTEST_QEMU_IMG"
    case Kernel => "VMTEST_KERNEL"
    case Initrd => "VMTEST_INITRD"
    case Iso => "VMTEST_ISO"
    case OvmfCode => "VMTEST_OVMF_CODE"
    case OvmfVars => "VMTEST_OVMF_VARS"
    case Disk => "VMTEST_DISK"
    case Swtpm => "VMTEST_SWTPM"
    case SwtpmSetup => "VMTEST_SWTPM_SETUP"
    case Cmdline => "VMTEST_CMDLINE"
    case DiskSize => "VMTEST_DISK_SIZE"
    case Memory => "VMTEST_MEMORY"
    case Cpus => "VMTEST_CPUS"
    case Tpm => "VMTEST_TPM"
    case MachineType => "VMTEST_MACHINE_TYPE"
    case Accel => "VMTEST_ACCEL"
    case Network => "VMTEST_NETWORK"
    case Bridge => "VMTEST_BRIDGE"
    case PortForwards => "VMTEST_PORT_FORWARDS"
  }

  function KeyOf(name: string): Option<Key> {
    match name
    case "VMTEST_QEMU" => Some(Qemu)
    case "VMTEST_QEMU_IMG" => Some(QemuImg)
    case "VMTEST_KERNEL" => Some(Kernel)
    case "VMTEST_INITRD" => Some(Initrd)
    case "VMTEST_ISO" => Some(Iso)
    case "VMTEST_OVMF_CODE" => Some(OvmfCode)
    case "VMTEST_OVMF_VARS" => Some(OvmfVars)
    case "VMTEST_DISK" => Some(Disk)
    case "VMTEST_SWTPM" => Some(Swtpm)
    case "VMTEST_SWTPM_SETUP" => Some(SwtpmSetup)
    case "VMTEST_CMDLINE" => Some(Cmdline)
    case "VMTEST_DISK_SIZE" => Some(DiskSize)
    case "VMTEST_MEMORY" => Some(Memory)
    case "VMTEST_CPUS" => Some(Cpus)
    case "VMTEST_TPM" => Some(Tpm)
    case "VMTEST_MACHINE_TYPE" => Some(MachineType)
    case "VMTEST_ACCEL" => Some(Accel)
    case "VMTEST_NETWORK" => Some(Network)
    case "VMTEST_BRIDGE" => Some(Bridge)
    case "VMTEST_PORT_FORWARDS" => Some(PortForwards)
    case _ => None
  }

  lemma KeyOfInverts(k: Key)
    ensures KeyOf(VarName(k)) == Some(k)
  {
  }

  lemma VarNamesDiffer(j: Key, k: Key)
    requires VarName(j) == VarName(k)
    ensures j == k
  {
    KeyOfInverts(j);
    KeyOfInverts(k);
  }

  type Env = map<string, string>

  /** `os.Getenv`: empty when unset. */
  function Getenv(env: Env, name: string): string {
    if name in env then env[name] else ""
  }

  function Get(env: Env, k: Key): string {
    Getenv(env, VarName(k))
  }

  // ----- Attributes and the variables they ask for -----

  datatype Attrs = Attrs(
    qemu: Option<string>, qemuImg: Option<string>, kernel: Option<string>, initrd: Option<string>,
    cmdline: string, iso: Option<string>, ovmfCode: Option<string>, ovmfVars: Option<string>,
    toolchainCode: Option<string>, toolchainVars: Option<string>, disk: Option<string>,
    diskSize: string, memory: string, cpus: int32, tpm: bool, swtpm: Option<string>,
    swtpmSetup: Option<string>, machineType: string, accel: string, network: string,
    bridge: string, ports: seq<int32>)

  /** A file, by its short path, or a literal value. */
  datatype Source = Path(short: string) | Literal(value: string)

  datatype Entry = Entry(key: Key, source: Option<Source>)

  function FileEntry(k: Key, p: Option<string>): Entry {
    Entry(k, if p.Some? then Some(Path(p.value)) else None)
  }

  function TextEntry(k: Key, given: bool, v: string): Entry {
    Entry(k, if given then Some(Literal(v)) else None)
  }

  /** Explicit firmware, or the toolchain's unless a kernel is booted directly. */
  function Firmware(explicit: Option<string>, toolchain: Option<string>, kernel: Option<string>): Option<string> {
    if explicit.Some? then explicit else if kernel.None? then toolchain else None
  }

  function When<T>(b: bool, o: Option<T>): Option<T> {
    if b then o else None
  }

  /** What one variable is set to, key by key. */
  function Wanted(a: Attrs, k: Key): (e: Entry)
    ensures e.key == k
  {
    match k
    case Qemu => FileEntry(k, a.qemu)
    case QemuImg => FileEntry(k, a.qemuImg)
    case Kernel => FileEntry(k, a.kernel)
    case Initrd => FileEntry(k, a.initrd)
    case Iso => FileEntry(k, a.iso)
    case OvmfCode => FileEntry(k, Firmware(a.ovmfCode, a.toolchainCode, a.kernel))
    case OvmfVars => FileEntry(k, Firmware(a.ovmfVars, a.toolchainVars, a.kernel))
    case Disk => FileEntry(k, a.disk)
    case Swtpm => FileEntry(k, When(a.tpm, a.swtpm))
    case SwtpmSetup => FileEntry(k, When(a.tpm, a.swtpmSetup))
    case Cmdline => TextEntry(k, a.cmdline != "", a.cmdline)
    case DiskSize => TextEntry(k, a.disk.None? && a.diskSize != "", a.diskSize)
    case Memory => TextEntry(k, true, a.memory)
    case Cpus => TextEntry(k, true, Decimal(a.cpus))
    case Tpm => TextEntry(k, a.tpm, "true")
    case MachineType => TextEntry(k, a.machineType != "", a.machineType)
    case Accel => TextEntry(k, a.accel != "", a.accel)
    case Network => TextEntry(k, true, a.network)
    case Bridge => TextEntry(k, a.network == "bridge", a.bridge)
    case PortForwards => TextEntry(k, a.ports != [], RenderPorts(a.ports))
  }

  /** The order of config.bzl: files that need resolution first, then literals. */
  const CONFIG_ORDER: seq<Key> := [
    Qemu, QemuImg, Kernel, Initrd, Iso, OvmfCode, OvmfVars, Disk, Swtpm, SwtpmSetup,
    Cmdline, DiskSize, Memory, Cpus, Tpm, MachineType, Accel, Network, Bridge, PortForwards]

  /** The order of vm_go_test.bzl. */
  const GO_TEST_ORDER: seq<Key> := [
    Qemu, QemuImg, Kernel, Initrd, Cmdline, Iso, OvmfCode, OvmfVars, Disk, DiskSize,
    Memory, Cpus, Tpm, Swtpm, SwtpmSetup, MachineType, Accel, Network, Bridge, PortForwards]

  predicate Covers(order: seq<Key>) {
    && (forall i, j :: 0 <= i < j < |order| ==> order[i] != order[j])
    && (forall k: Key :: k in order)
  }

  lemma ConfigOrderCovers()
    ensures Covers(CONFIG_ORDER)
  {
    forall k: Key ensures k in CONFIG_ORDER {
      match k {
        case Qemu => assert CONFIG_ORDER[0] == k;
        case QemuImg => assert CONFIG_ORDER[1] == k;
        case Kernel => assert CONFIG_ORDER[2] == k;
        case Initrd => assert CONFIG_ORDER[3] == k;
        case Iso => assert CONFIG_ORDER[4] == k;
        case OvmfCode => assert CONFIG_ORDER[5] == k;
        case OvmfVars => assert CONFIG_ORDER[6] == k;
        case Disk => assert CONFIG_ORDER[7] == k;
        case Swtpm => assert CONFIG_ORDER[8] == k;
        case SwtpmSetup => assert CONFIG_ORDER[9] == k;
        case Cmdline => assert CONFIG_ORDER[10] == k;
        case DiskSize => assert CONFIG_ORDER[11] == k;
        case Memory => assert CONFIG_ORDER[12] == k;
        case Cpus => assert CONFIG_ORDER[13] == k;
        case Tpm => assert CONFIG_ORDER[14] == k;
        case MachineType => assert CONFIG_ORDER[15] == k;
        case Accel => assert CONFIG_ORDER[16] == k;
        case Network => assert CONFIG_ORDER[17] == k;
        case Bridge => assert CONFIG_ORDER[18] == k;
        case PortForwards => assert CONFIG_ORDER[19] == k;
      }
    }
  }

  lemma GoTestOrderCovers()
    ensures Covers(GO_TEST_ORDER)
  {
    forall k: Key ensures k in GO_TEST_ORDER {
      match k {
        case Qemu => assert GO_TEST_ORDER[0] == k;
        case QemuImg => assert GO_TEST_ORDER[1] == k;
        case Kernel => assert GO_TEST_ORDER[2] == k;
        case Initrd => assert GO_TEST_ORDER[3] == k;
        case Iso => assert GO_TEST_ORDER[5] == k;
        case OvmfCode => assert GO_TEST_ORDER[6] == k;
        case OvmfVars => assert GO_TEST_ORDER[7] == k;
        case Disk => assert GO_TEST_ORDER[8] == k;
        case Swtpm => assert GO_TEST_ORDER[13] == k;
        case SwtpmSetup => assert GO_TEST_ORDER[14] == k;
        case Cmdline => assert GO_TEST_ORDER[4] == k;
        case DiskSize => assert GO_TEST_ORDER[9] == k;
        case Memory => assert GO_TEST_ORDER[10] == k;
        case Cpus => assert GO_TEST_ORDER[11] == k;
        case Tpm => assert GO_TEST_ORDER[12] == k;
        case MachineType => assert GO_TEST_ORDER[15] == k;
        case Accel => assert GO_TEST_ORDER[16] == k;
        case Network => assert GO_TEST_ORDER[17] == k;
        case Bridge => assert GO_TEST_ORDER[18] == k;
        case PortForwards => assert GO_TEST_ORDER[19] == k;
      }
    }
  }

  lemma BothOrdersCover()
    ensures Covers(CONFIG_ORDER) && Covers(GO_TEST_ORDER)
  {
    ConfigOrderCovers();
    GoTestOrderCovers();
  }

  // ----- Bindings in the order of a rule -----

  datatype Binding = Binding(key: Key, source: Source)

  function BindingsOf(e: Entry): seq<Binding> {
    if e.source.Some? then [Binding(e.key, e.source.value)] else []
  }

  function Bindings(a: Attrs, order: seq<Key>): seq<Binding> {
    if order == [] then [] else BindingsOf(Wanted(a, order[0])) + Bindings(a, order[1..])
  }

  lemma {:induction false} BindingsAppend(a: Attrs, x: seq<Key>, y: seq<Key>)
    ensures Bindings(a, x + y) == Bindings(a, x) + Bindings(a, y)
  {
    if x == [] {
      assert x + y == y;
    } else {
      assert (x + y)[1..] == x[1..] + y;
      BindingsAppend(a, x[1..], y);
    }
  }

  function ValueOf(s: Source, resolve: string -> string): string {
    if s.Path? then resolve(s.short) else s.value
  }

  function AssignAll(env: Env, bs: seq<Binding>, resolve: string -> string): Env
    decreases |bs|
  {
    if bs == [] then env
    else AssignAll(env[VarName(bs[0].key) := ValueOf(bs[0].source, resolve)], bs[1..], resolve)
  }

  lemma {:induction false} AssignAppend(env: Env, x: seq<Binding>, y: seq<Binding>, resolve: string -> string)
    ensures AssignAll(env, x + y, resolve) == AssignAll(AssignAll(env, x, resolve), y, resolve)
    decreases |x|
  {
    if x == [] {
      assert x + y == y;
    } else {
      assert (x + y)[1..] == x[1..] + y;
      AssignAppend(env[VarName(x[0].key) := ValueOf(x[0].source, resolve)], x[1..], y, resolve);
    }
  }

  /** The value a variable ends up with: what the attributes want, else what it was before. */
  function Wish(a: Attrs, k: Key, before: string, resolve: string -> string): string {
    var source := Wanted(a, k).source;
    if source.Some? then ValueOf(source.value, resolve) else before
  }

  /** One binding sets its own variable and no other. */
  lemma OneAssigned(b: Binding, env: Env, k: Key, resolve: string -> string)
    ensures Get(AssignAll(env, [b], resolve), k) == if k == b.key then ValueOf(b.source, resolve) else Get(env, k)
  {
    assert [b][1..] == [];
    if k != b.key && VarName(k) == VarName(b.key) {
      VarNamesDiffer(k, b.key);
    }
  }

  lemma BindingSets(a: Attrs, j: Key, env: Env, k: Key, resolve: string -> string)
    ensures Get(AssignAll(env, BindingsOf(Wanted(a, j)), resolve), k) == if k == j then Wish(a, j, Get(env, j), resolve) else Get(env, k)
  {
    var e := Wanted(a, j);
    if e.source.Some? {
      OneAssigned(Binding(e.key, e.source.value), env, k, resolve);
    }
  }

  /** The order of the assignments does not matter, because no variable is set twice. */
  lemma {:induction false} AssignedValue(a: Attrs, order: seq<Key>, env: Env, k: Key, resolve: string -> string)
    requires forall i, j :: 0 <= i < j < |order| ==> order[i] != order[j]
    ensures Get(AssignAll(env, Bindings(a, order), resolve), k)
      == if k in order then Wish(a, k, Get(env, k), resolve) else Get(env, k)
  {
    if order != [] {
      var first := BindingsOf(Wanted(a, order[0]));
      AssignAppend(env, first, Bindings(a, order[1..]), resolve);
      AssignedValue(a, order[1..], AssignAll(env, first, resolve), k, resolve);
      BindingSets(a, order[0], env, k, resolve);
    }
  }

  // ----- The decoder -----

  function ToLower(s: string): string {
    if s == "" then "" else [if 'A' <= s[0] <= 'Z' then s[0] - 'A' + 'a' else s[0]] + ToLower(s[1..])
  }

  /** Lower case of a character: the letters `A` to `Z` are 32 below theirs. */
  predicate IsLowerOf(l: char, c: char) {
    if 'A' <= c <= 'Z' then l as int == c as int + 32 else l == c
  }

  lemma {:induction false} ToLowerMeans(s: string)
    ensures |ToLower(s)| == |s| && forall i :: 0 <= i < |s| ==> IsLowerOf(ToLower(s)[i], s[i])
  {
    if s != "" {
      ToLowerMeans(s[1..]);
      assert forall i :: 1 <= i < |s| ==> ToLower(s)[i] == ToLower(s[1..])[i - 1];
    }
  }

  function Forwards(ports: seq<int>): (r: seq<VMOption>)
    ensures |r| == |ports| && forall i :: 0 <= i < |r| ==> r[i] == WithPortForward(ports[i])
  {
    seq(|ports|, i requires 0 <= i < |ports| => WithPortForward(ports[i]))
  }

  function FromEnvTools(env: Env): seq<VMOption> {
    If(Get(env, Qemu) != "", WithQemuBinary(Get(env, Qemu)))
    + If(Get(env, QemuImg) != "", WithQemuImg(Get(env, QemuImg)))
    + If(Get(env, MachineType) != "", WithMachineType(Get(env, MachineType)))
    + If(Get(env, Accel) != "", WithAccel(Get(env, Accel)))
  }

  function FromEnvBoot(env: Env): seq<VMOption> {
    If(Get(env, Kernel) != "", WithKernelBoot(Get(env, Kernel), Get(env, Initrd), Get(env, Cmdline)))
    + If(Get(env, OvmfCode) != "" && Get(env, OvmfVars) != "", WithUEFI(Get(env, OvmfCode), Get(env, OvmfVars)))
  }

  function FromEnvDisks(env: Env): seq<VMOption> {
    If(Get(env, Iso) != "", WithISO(Get(env, Iso)))
    + If(Get(env, Disk) != "", WithExistingDisk(Get(env, Disk)))
    + If(Get(env, DiskSize) != "", WithDisk(Get(env, DiskSize)))
    + If(Get(env, Memory) != "", WithMemory(Get(env, Memory)))
  }

  function NetworkOption(mode: string): seq<VMOption> {
    if mode == "none" then [WithNoNetwork] else if mode == "bridge" then [] else [WithUserNet]
  }

  function TpmOption(enabled: bool, swtpm: string, setup: string): seq<VMOption> {
    If(enabled && swtpm != "" && setup != "", WithTPM(swtpm, setup))
  }

  function FromEnvTail(env: Env): seq<VMOption> {
    TpmOption(Get(env, Tpm) == "true", Get(env, Swtpm), Get(env, SwtpmSetup)) + NetworkOption(ToLower(Get(env, Network)))
  }

  /** buildVMOptsFromEnv; None is a fatal test failure on a malformed number. */
  function FromEnv(env: Env): Option<seq<VMOption>> {
    var cpus := if Get(env, Cpus) == "" then Some(0) else Atoi(Get(env, Cpus));
    var ports := if Get(env, PortForwards) == "" then Some([]) else ParsePorts(Get(env, PortForwards));
    if cpus.None? || ports.None? then None
    else Some(FromEnvTools(env) + FromEnvBoot(env) + FromEnvDisks(env) + If(Get(env, Cpus) != "", WithCPUs(cpus.value))
              + FromEnvTail(env) + Forwards(ports.value))
  }

  // ----- What the attributes mean -----

  function Resolved(p: Option<string>, resolve: string -> string): string {
    if p.Some? then resolve(p.value) else ""
  }

  function MeaningTools(a: Attrs, resolve: string -> string): seq<VMOption> {
    If(a.qemu.Some?, WithQemuBinary(Resolved(a.qemu, resolve)))
    + If(a.qemuImg.Some?, WithQemuImg(Resolved(a.qemuImg, resolve)))
    + If(a.machineType != "", WithMachineType(a.machineType))
    + If(a.accel != "", WithAccel(a.accel))
  }

  function MeaningBoot(a: Attrs, resolve: string -> string): seq<VMOption> {
    var code, vars := Firmware(a.ovmfCode, a.toolchainCode, a.kernel), Firmware(a.ovmfVars, a.toolchainVars, a.kernel);
    If(a.kernel.Some?, WithKernelBoot(Resolved(a.kernel, resolve), Resolved(a.initrd, resolve), a.cmdline))
    + If(code.Some? && vars.Some?, WithUEFI(Resolved(code, resolve), Resolved(vars, resolve)))
  }

  function MeaningDisks(a: Attrs, resolve: string -> string): seq<VMOption> {
    If(a.iso.Some?, WithISO(Resolved(a.iso, resolve)))
    + If(a.disk.Some?, WithExistingDisk(Resolved(a.disk, resolve)))
    + If(a.disk.None? && a.diskSize != "", WithDisk(a.diskSize))
    + If(a.memory != "", WithMemory(a.memory))
  }

  /** TPM needs both swtpm programs; a port list forces user networking on top of the mode. */
  function MeaningTail(a: Attrs, resolve: string -> string): seq<VMOption> {
    If(a.tpm && a.swtpm.Some? && a.swtpmSetup.Some?, WithTPM(Resolved(a.swtpm, resolve), Resolved(a.swtpmSetup, resolve)))
    + NetworkOption(a.network)
  }

  /** The virtual machine the attributes ask for, files named by `resolve`. */
  function Meaning(a: Attrs, resolve: string -> string): seq<VMOption> {
    MeaningTools(a, resolve) + MeaningBoot(a, resolve) + MeaningDisks(a, resolve) + [WithCPUs(a.cpus)] + MeaningTail(a, resolve) + Forwards(a.ports)
  }

  /** The environment holds exactly the wishes, everything else unset. */
  ghost predicate Grants(env: Env, a: Attrs, resolve: string -> string) {
    forall k: Key :: Get(env, k) == Wish(a, k, "", resolve)
  }

  ghost predicate ValidAttrs(a: Attrs) {
    a.network in ["user", "bridge", "none"]
  }

  /** Every file that is given resolves to a path. */
  ghost predicate Usable(a: Attrs, resolve: string -> string) {
    forall k: Key :: var s := Wanted(a, k).source; s.Some? && s.value.Path? ==> resolve(s.value.short) != ""
  }

  lemma GrantedFile(env: Env, a: Attrs, k: Key, resolve: string -> string)
    requires Grants(env, a, resolve) && Usable(a, resolve)
    requires Wanted(a, k).source.Some? ==> Wanted(a, k).source.value.Path?
    ensures var s := Wanted(a, k).source;
      Get(env, k) == (if s.Some? then resolve(s.value.short) else "") && (s.Some? <==> Get(env, k) != "")
  {
  }

  lemma GrantedTools(env: Env, a: Attrs, resolve: string -> string)
    requires Grants(env, a, resolve) && Usable(a, resolve)
    ensures FromEnvTools(env) == MeaningTools(a, resolve)
  {
    GrantedFile(env, a, Qemu, resolve);
    GrantedFile(env, a, QemuImg, resolve);
    assert Get(env, MachineType) == a.machineType && Get(env, Accel) == a.accel;
  }

  lemma GrantedBoot(env: Env, a: Attrs, resolve: string -> string)
    requires Grants(env, a, resolve) && Usable(a, resolve)
    ensures FromEnvBoot(env) == MeaningBoot(a, resolve)
  {
    GrantedFile(env, a, Kernel, resolve);
    GrantedFile(env, a, Initrd, resolve);
    GrantedFile(env, a, OvmfCode, resolve);
    GrantedFile(env, a, OvmfVars, resolve);
    assert Get(env, Cmdline) == a.cmdline;
  }

  lemma GrantedDisks(env: Env, a: Attrs, resolve: string -> string)
    requires Grants(env, a, resolve) && Usable(a, resolve)
    ensures FromEnvDisks(env) == MeaningDisks(a, resolve)
  {
    GrantedFile(env, a, Iso, resolve);
    GrantedFile(env, a, Disk, resolve);
    assert Get(env, DiskSize) == (if a.disk.None? then a.diskSize else "") && Get(env, Memory) == a.memory;
  }

  lemma NetworkLower(n: string)
    requires n in ["user", "bridge", "none"]
    ensures ToLower(n) == n
  {
    AlreadyLower(n);
  }

  lemma {:induction false} AlreadyLower(s: string)
    requires forall c :: c in s ==> !('A' <= c <= 'Z')
    ensures ToLower(s) == s
  {
    if s != "" {
      assert s[0] in s && forall c :: c in s[1..] ==> c in s;
      AlreadyLower(s[1..]);
    }
  }

  lemma GrantedTpm(env: Env, a: Attrs, resolve: string -> string)
    requires Grants(env, a, resolve) && Usable(a, resolve)
    ensures TpmOption(Get(env, Tpm) == "true", Get(env, Swtpm), Get(env, SwtpmSetup))
      == If(a.tpm && a.swtpm.Some? && a.swtpmSetup.Some?, WithTPM(Resolved(a.swtpm, resolve), Resolved(a.swtpmSetup, resolve)))
  {
    assert Get(env, Tpm) == if a.tpm then "true" else "";
    GrantedFile(env, a, Swtpm, resolve);
    GrantedFile(env, a, SwtpmSetup, resolve);
  }

  lemma GrantedNetwork(env: Env, a: Attrs, resolve: string -> string)
    requires Grants(env, a, resolve) && ValidAttrs(a)
    ensures ToLower(Get(env, Network)) == a.network
  {
    assert Wanted(a, Network) == TextEntry(Network, true, a.network);
    NetworkLower(a.network);
  }

  lemma GrantedTail(env: Env, a: Attrs, resolve: string -> string)
    requires Grants(env, a, resolve) && Usable(a, resolve) && ValidAttrs(a)
    ensures FromEnvTail(env) == MeaningTail(a, resolve)
  {
    GrantedTpm(env, a, resolve);
    GrantedNetwork(env, a, resolve);
    assert NetworkOption(ToLower(Get(env, Network))) == NetworkOption(a.network);
  }

  lemma GrantedPorts(env: Env, a: Attrs, resolve: string -> string)
    requires Grants(env, a, resolve)
    ensures (if Get(env, PortForwards) == "" then Some([]) else ParsePorts(Get(env, PortForwards))) == Some(a.ports)
  {
    var ports: seq<int> := a.ports;
    assert Get(env, PortForwards) == if a.ports == [] then "" else RenderPorts(a.ports);
    if ports != [] {
      PortsRoundTrip(ports);
    }
  }

  lemma GrantedCpus(env: Env, a: Attrs, resolve: string -> string)
    requires Grants(env, a, resolve)
    ensures Get(env, Cpus) != "" && Atoi(Get(env, Cpus)) == Some(a.cpus)
  {
    assert Get(env, Cpus) == Decimal(a.cpus);
    DecimalRoundTrip(a.cpus);
  }

  /** The decoder turns an environment that grants the wishes into exactly the options meant. */
  lemma GrantedMeaning(env: Env, a: Attrs, resolve: string -> string)
    requires Grants(env, a, resolve) && Usable(a, resolve) && ValidAttrs(a)
    ensures FromEnv(env) == Some(Meaning(a, resolve))
  {
    GrantedTools(env, a, resolve);
    GrantedBoot(env, a, resolve);
    GrantedDisks(env, a, resolve);
    GrantedCpus(env, a, resolve);
    GrantedTail(env, a, resolve);
    GrantedPorts(env, a, resolve);
  }
}
