/** The options of the external vm package that the repository builds. */
module VMOptions {
  datatype VMOption =
    | WithMemory(size: string)
    | WithCPUs(n: int)
    | WithQemuImg(path: string)
    | WithName(name: string)
    | WithSerialCapture
    | WithQemuBinary(path: string)
    | WithMachineType(machine: string)
    | WithAccel(accel: string)
    | WithWorkDir(path: string)
    | WithKernelBoot(kernel: string, initrd: string, cmdline: string)
    | WithUEFI(code: string, vars: string)
    | WithISO(path: string)
    | WithExistingDisk(path: string)
    | WithDisk(size: string)
    | WithTPM(swtpm: string, setup: string)
    | WithNoNetwork
    | WithUserNet
    | With9PShare(share: string, path: string)
    | WithPortForward(port: int)

  function If<T>(b: bool, x: T): seq<T> {
    if b then [x] else []
  }

  /** One branch of a list of options. */
  method Append(opts: seq<VMOption>, b: bool, o: VMOption) returns (r: seq<VMOption>)
    ensures r == opts + If(b, o)
  {
    r := opts;
    if b {
      r := r + [o];
    }
  }

  /** The firmware options of a list. */
  function Firmwares(opts: seq<VMOption>): seq<VMOption> {
    if opts == [] then [] else (if opts[0].WithUEFI? then [opts[0]] else []) + Firmwares(opts[1..])
  }

  lemma {:induction false} FirmwaresAppend(a: seq<VMOption>, b: seq<VMOption>)
    ensures Firmwares(a + b) == Firmwares(a) + Firmwares(b)
  {
    if a == [] {
      assert a + b == b;
    } else {
      assert (a + b)[1..] == a[1..] + b;
      FirmwaresAppend(a[1..], b);
    }
  }

  lemma {:induction false} NoFirmwares(opts: seq<VMOption>)
    requires forall o :: o in opts ==> !o.WithUEFI?
    ensures Firmwares(opts) == []
  {
    if opts != [] {
      assert opts[0] in opts;
      NoFirmwares(opts[1..]);
    }
  }

  lemma FirmwaresOfOne(b: bool, o: VMOption)
    ensures Firmwares(If(b, o)) == If(b && o.WithUEFI?, o)
  {
    assert [o][1..] == [];
  }

  /** A firmware option behind options of other kinds. */
  lemma FirmwareBehind(before: seq<VMOption>, b: bool, o: VMOption)
    requires o.WithUEFI? && forall p :: p in before ==> !p.WithUEFI?
    ensures Firmwares(before + If(b, o)) == If(b, o)
  {
    NoFirmwares(before);
    FirmwaresAppend(before, If(b, o));
    FirmwaresOfOne(b, o);
  }

  /** Options of other kinds at both ends. */
  lemma FirmwaresWithin(before: seq<VMOption>, opts: seq<VMOption>, after: seq<VMOption>)
    requires Firmwares(before) == [] && Firmwares(after) == []
    ensures Firmwares(before + opts + after) == Firmwares(opts)
  {
    FirmwaresAppend(before, opts);
    FirmwaresAppend(before + opts, after);
  }
}
