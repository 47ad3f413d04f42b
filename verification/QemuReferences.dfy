/** What refers to what in the arguments of a virtual machine. */
module QemuReferences {
  import opened Sequences
  import opened QemuArgs

  /** A question about the arguments: how often does a property have a value, in the arguments with one
      flag or in all, of one driver or of all? */
  datatype Query = Query(flag: Option<Flag>, driver: Option<string>, key: Key, value: string) {
    predicate Covers(f: Flag, name: Option<string>) {
      (flag.None? || flag.value == f) && (driver.None? || driver == name)
    }

    predicate Asks(k: Key, v: string) {
      key == k && value == v
    }
  }

  function One(cond: bool): nat {
    if cond then 1 else 0
  }

  function ItemCount(item: Item, q: Query): nat {
    One(item.Pair? && q.Asks(item.key, item.value))
  }

  function ItemsCount(items: seq<Item>, q: Query): nat {
    if items == [] then 0 else ItemCount(items[0], q) + ItemsCount(items[1..], q)
  }

  /** The driver of a device, or the like: the first part if it has no key. */
  function DriverOf(items: seq<Item>): Option<string> {
    if items != [] && items[0].Bare? then Some(items[0].text) else None
  }

  function ArgCount(arg: Arg, q: Query): nat {
    if arg.Props? && q.Covers(arg.flag, DriverOf(arg.items)) then ItemsCount(arg.items, q) else 0
  }

  function Count(args: seq<Arg>, q: Query): nat {
    if args == [] then 0 else ArgCount(args[0], q) + Count(args[1..], q)
  }

  // ----- Short lists -----

  lemma Items2(a: Item, b: Item, q: Query)
    ensures ItemsCount([a, b], q) == ItemCount(a, q) + ItemCount(b, q)
  {
    assert [a, b][1..] == [b] && [b][1..] == [];
    assert ItemsCount([b], q) == ItemCount(b, q);
  }

  lemma Items3(a: Item, b: Item, c: Item, q: Query)
    ensures ItemsCount([a, b, c], q) == ItemCount(a, q) + ItemCount(b, q) + ItemCount(c, q)
  {
    assert [a, b, c][1..] == [b, c];
    Items2(b, c, q);
  }

  lemma Items4(a: Item, b: Item, c: Item, d: Item, q: Query)
    ensures ItemsCount([a, b, c, d], q) == ItemCount(a, q) + ItemCount(b, q) + ItemCount(c, q) + ItemCount(d, q)
  {
    assert [a, b, c, d][1..] == [b, c, d];
    Items3(b, c, d, q);
  }

  lemma Items5(a: Item, b: Item, c: Item, d: Item, e: Item, q: Query)
    ensures ItemsCount([a, b, c, d, e], q)
      == ItemCount(a, q) + ItemCount(b, q) + ItemCount(c, q) + ItemCount(d, q) + ItemCount(e, q)
  {
    assert [a, b, c, d, e][1..] == [b, c, d, e];
    Items4(b, c, d, e, q);
  }

  lemma Items6(a: Item, b: Item, c: Item, d: Item, e: Item, f: Item, q: Query)
    ensures ItemsCount([a, b, c, d, e, f], q)
      == ItemCount(a, q) + ItemCount(b, q) + ItemCount(c, q) + ItemCount(d, q) + ItemCount(e, q) + ItemCount(f, q)
  {
    assert [a, b, c, d, e, f][1..] == [b, c, d, e, f];
    Items5(b, c, d, e, f, q);
  }

  lemma Args2(a: Arg, b: Arg, q: Query)
    ensures Count([a, b], q) == ArgCount(a, q) + ArgCount(b, q)
  {
    assert [a, b][1..] == [b] && [b][1..] == [];
    assert Count([b], q) == ArgCount(b, q);
  }

  lemma Args3(a: Arg, b: Arg, c: Arg, q: Query)
    ensures Count([a, b, c], q) == ArgCount(a, q) + ArgCount(b, q) + ArgCount(c, q)
  {
    assert [a, b, c][1..] == [b, c];
    Args2(b, c, q);
  }

  lemma {:induction false} CountAppend(a: seq<Arg>, b: seq<Arg>, q: Query)
    ensures Count(a + b, q) == Count(a, q) + Count(b, q)
  {
    if a == [] {
      assert a + b == b;
    } else {
      assert (a + b)[1..] == a[1..] + b;
      CountAppend(a[1..], b, q);
    }
  }

  lemma {:induction false} NoCount(args: seq<Arg>, q: Query)
    requires forall arg :: arg in args ==> !arg.Props?
    ensures Count(args, q) == 0
  {
    if args != [] {
      NoCount(args[1..], q);
    }
  }

  // ----- The groups of arguments -----

  function NicExpected(id: string, q: Query): nat {
    One(q.Covers(Netdev, Some("tap")) && q.Asks(Id, id)) + One(q.Covers(Device, Some("virtio-net-pci")) && q.Asks(NetdevRef, id))
  }

  function NetExpected(inp: Inputs, q: Query): nat {
    NicExpected("net0", q)
    + if inp.secondTap == "" then 0
      else NicExpected("net1", q) + One(q.Covers(Device, Some("virtio-net-pci")) && q.Asks(Addr, "0x6"))
  }

  function TpmExpected(q: Query): nat {
    One(q.Covers(Chardev, Some("socket")) && q.Asks(Id, "char0"))
    + One(q.Covers(Tpmdev, Some("emulator")) && q.Asks(Id, "tpm0"))
    + One(q.Covers(Tpmdev, Some("emulator")) && q.Asks(ChardevRef, "char0"))
    + One(q.Covers(Device, Some("tpm-tis")) && q.Asks(TpmdevRef, "tpm0"))
  }

  function CdExpected(q: Query): nat {
    One(q.Covers(Device, Some("virtio-scsi-pci")) && q.Asks(Id, "scsi0"))
    + One(q.Covers(Device, Some("virtio-scsi-pci")) && q.Asks(Addr, "0x4"))
    + One(q.Covers(Drive, None) && q.Asks(Id, "cd0"))
    + One(q.Covers(Device, Some("scsi-cd")) && q.Asks(Bus, "scsi0.0"))
    + One(q.Covers(Device, Some("scsi-cd")) && q.Asks(DriveRef, "cd0"))
    + One(q.Covers(Device, Some("scsi-cd")) && q.Asks(BootIndex, "0"))
  }

  function DiskExpected(inp: Inputs, q: Query): nat {
    One(q.Covers(Drive, None) && q.Asks(Id, "disk"))
    + One(q.Covers(Device, Some("virtio-blk-pci")) && q.Asks(DriveRef, "disk"))
    + One(q.Covers(Device, Some("virtio-blk-pci")) && q.Asks(Addr, "0x5"))
    + One(q.Covers(Device, Some("virtio-blk-pci")) && q.Asks(BootIndex, if BootsISO(inp) then "1" else "0"))
  }

  lemma BaseCount(inp: Inputs, q: Query)
    ensures Count(BaseArgs(inp), q) == 0
  {
    var args := BaseArgs(inp);
    var items := [Bare("virtio-rng-pci")];
    var rng := Props(Device, items);
    assert items[1..] == [] && [rng][1..] == [] && ItemCount(items[0], q) == 0;
    assert ItemsCount(items, q) == 0;
    assert Count([rng], q) == ArgCount(rng, q) == 0;
    NoCount(args[..5], q);
    CountAppend(args[..5], [rng], q);
    assert args == args[..5] + [rng];
  }

  lemma TapCount(id: string, tap: string, q: Query)
    requires !q.key.Other?
    ensures ArgCount(Props(Netdev, TapItems(id, tap)), q) == One(q.Covers(Netdev, Some("tap")) && q.Asks(Id, id))
  {
    Items5(Bare("tap"), P(Id, id), O("ifname", tap), O("script", "no"), O("downscript", "no"), q);
  }

  lemma NicCount(inp: Inputs, q: Query)
    requires !q.key.Other?
    ensures ArgCount(NetArgs(inp)[1], q) == One(q.Covers(Device, Some("virtio-net-pci")) && q.Asks(NetdevRef, "net0"))
  {
    var nic := [Bare("virtio-net-pci"), P(NetdevRef, "net0")];
    if inp.mac != "" {
      Items3(Bare("virtio-net-pci"), P(NetdevRef, "net0"), O("mac", inp.mac), q);
      assert nic + [O("mac", inp.mac)] == [Bare("virtio-net-pci"), P(NetdevRef, "net0"), O("mac", inp.mac)];
    } else {
      Items2(Bare("virtio-net-pci"), P(NetdevRef, "net0"), q);
      assert nic + [] == nic;
    }
  }

  lemma NetCount(inp: Inputs, q: Query)
    requires !q.key.Other?
    ensures Count(NetArgs(inp), q) == NicExpected("net0", q)
  {
    Args2(NetArgs(inp)[0], NetArgs(inp)[1], q);
    TapCount("net0", inp.tap, q);
    NicCount(inp, q);
  }

  lemma SecondNetCount(inp: Inputs, q: Query)
    requires !q.key.Other?
    ensures Count(SecondNetArgs(inp), q)
      == if inp.secondTap == "" then 0
         else NicExpected("net1", q) + One(q.Covers(Device, Some("virtio-net-pci")) && q.Asks(Addr, "0x6"))
  {
    if inp.secondTap != "" {
      Args2(SecondNetArgs(inp)[0], SecondNetArgs(inp)[1], q);
      TapCount("net1", inp.secondTap, q);
      Items3(Bare("virtio-net-pci"), P(NetdevRef, "net1"), P(Addr, "0x6"), q);
    }
  }

  lemma TpmCount(inp: Inputs, q: Query)
    requires !q.key.Other?
    ensures Count(TpmArgs(inp), q) == TpmExpected(q)
  {
    Args3(TpmArgs(inp)[0], TpmArgs(inp)[1], TpmArgs(inp)[2], q);
    Items3(Bare("socket"), P(Id, "char0"), O("path", inp.socket), q);
    Items3(Bare("emulator"), P(Id, "tpm0"), P(ChardevRef, "char0"), q);
    Items2(Bare("tpm-tis"), P(TpmdevRef, "tpm0"), q);
  }

  lemma FirmwareCount(inp: Inputs, q: Query)
    requires !q.key.Other?
    ensures Count(FirmwareArgs(inp), q) == 0
  {
    Args3(FirmwareArgs(inp)[0], FirmwareArgs(inp)[1], FirmwareArgs(inp)[2], q);
    Items5(O("if", "pflash"), O("format", "raw"), O("unit", "0"), O("file", inp.code), O("readonly", "on"), q);
    Items4(O("if", "pflash"), O("format", "raw"), O("unit", "1"), O("file", inp.vars), q);
  }

  lemma CdCount(inp: Inputs, q: Query)
    requires !q.key.Other?
    ensures Count(CdArgs(inp), q) == if BootsISO(inp) then CdExpected(q) else 0
  {
    if BootsISO(inp) {
      Args3(CdArgs(inp)[0], CdArgs(inp)[1], CdArgs(inp)[2], q);
      Items3(Bare("virtio-scsi-pci"), P(Id, "scsi0"), P(Addr, "0x4"), q);
      Items6(O("file", inp.iso), O("format", "raw"), O("cache", "none"), O("media", "cdrom"), O("if", "none"), P(Id, "cd0"), q);
      Items4(Bare("scsi-cd"), P(Bus, "scsi0.0"), P(DriveRef, "cd0"), P(BootIndex, "0"), q);
    }
  }

  lemma DiskCount(inp: Inputs, q: Query)
    requires !q.key.Other?
    ensures Count(DiskArgs(inp), q) == DiskExpected(inp, q)
  {
    Args2(DiskArgs(inp)[0], DiskArgs(inp)[1], q);
    Items4(O("file", inp.disk), O("format", "raw"), O("if", "none"), P(Id, "disk"), q);
    Items4(Bare("virtio-blk-pci"), P(DriveRef, "disk"), P(Addr, "0x5"), P(BootIndex, if BootsISO(inp) then "1" else "0"), q);
  }

  // ----- All arguments -----

  lemma AllCount(inp: Inputs, q: Query)
    requires !q.key.Other?
    ensures Count(AllArgs(inp), q)
      == Count(NetArgs(inp), q) + Count(SecondNetArgs(inp), q) + Count(TpmArgs(inp), q)
         + Count(CdArgs(inp), q) + Count(DiskArgs(inp), q)
  {
    var disk := DiskArgs(inp) + ConsoleArgs(inp);
    var cd := CdArgs(inp) + disk;
    var firmware := FirmwareArgs(inp) + cd;
    var tpm := TpmArgs(inp) + firmware;
    var second := SecondNetArgs(inp) + tpm;
    CountAppend(BaseArgs(inp), NetArgs(inp) + second, q);
    CountAppend(NetArgs(inp), second, q);
    CountAppend(SecondNetArgs(inp), tpm, q);
    CountAppend(TpmArgs(inp), firmware, q);
    CountAppend(FirmwareArgs(inp), cd, q);
    CountAppend(CdArgs(inp), disk, q);
    CountAppend(DiskArgs(inp), ConsoleArgs(inp), q);
    BaseCount(inp, q);
    FirmwareCount(inp, q);
    NoCount(ConsoleArgs(inp), q);
  }

  // ----- Main results -----

  /** The inputs that go into comma-separated arguments hold no comma. */
  predicate Plain(inp: Inputs) {
    && ',' !in inp.tap && ',' !in inp.mac && ',' !in inp.socket && ',' !in inp.code && ',' !in inp.vars && ',' !in inp.disk
    && ',' !in inp.secondTap && (BootsISO(inp) ==> ',' !in inp.iso)
  }

  /** The name of a property that is not one of the special ones. */
  predicate NameOk(name: string) {
    KeyOf(name) == Other(name) && '=' !in name && ',' !in name
  }

  lemma NamesOk1()
    ensures NameOk("if") && NameOk("format") && NameOk("unit") && NameOk("file")
  {
  }

  lemma NamesOk2()
    ensures NameOk("readonly") && NameOk("ifname") && NameOk("script") && NameOk("downscript")
  {
  }

  lemma NamesOk3()
    ensures NameOk("path") && NameOk("cache") && NameOk("media") && NameOk("mac")
  {
  }

  predicate NoComma(item: Item) {
    ',' !in ItemText(item)
  }

  /** Readable, and without a comma exactly if `plain`. */
  ghost predicate ItemIs(item: Item, plain: bool) {
    ItemOk(item) && (NoComma(item) <==> plain)
  }

  lemma OtherItem(name: string, value: string)
    requires NameOk(name)
    ensures ItemIs(O(name, value), ',' !in value)
  {
  }

  lemma KnownItem(key: Key, value: string)
    requires !key.Other?
    ensures ItemIs(P(key, value), ',' !in value)
  {
  }

  lemma BareItem(text: string)
    requires '=' !in text
    ensures ItemIs(Bare(text), ',' !in text)
  {
  }

  /** All have one property, and all have another exactly if `plain`. */
  ghost predicate Are<T>(items: seq<T>, ok: T -> bool, free: T -> bool, plain: bool) {
    && (forall item :: item in items ==> ok(item))
    && ((forall item :: item in items ==> free(item)) <==> plain)
  }

  lemma Are1<T>(ok: T -> bool, free: T -> bool, a: T, p: bool)
    requires ok(a) && (free(a) <==> p)
    ensures Are([a], ok, free, p)
  {
    assert a in [a];
  }

  lemma AreMore<T>(ok: T -> bool, free: T -> bool, a: T, p: bool, items: seq<T>, q: bool)
    requires ok(a) && (free(a) <==> p) && Are(items, ok, free, q)
    ensures Are([a] + items, ok, free, p && q)
  {
    assert forall item :: item in [a] + items <==> item == a || item in items;
  }

  lemma Are2<T>(ok: T -> bool, free: T -> bool, a: T, p: bool, b: T, q: bool)
    requires ok(a) && ok(b) && (free(a) <==> p) && (free(b) <==> q)
    ensures Are([a, b], ok, free, p && q)
  {
    Are1(ok, free, b, q);
    AreMore(ok, free, a, p, [b], q);
    assert [a] + [b] == [a, b];
  }

  lemma Are3<T>(ok: T -> bool, free: T -> bool, a: T, p: bool, b: T, q: bool, c: T, r: bool)
    requires ok(a) && ok(b) && ok(c) && (free(a) <==> p) && (free(b) <==> q) && (free(c) <==> r)
    ensures Are([a, b, c], ok, free, p && q && r)
  {
    Are2(ok, free, b, q, c, r);
    AreMore(ok, free, a, p, [b, c], q && r);
    assert [a] + [b, c] == [a, b, c];
  }

  lemma Are4<T>(ok: T -> bool, free: T -> bool, a: T, p: bool, b: T, q: bool, c: T, r: bool, d: T, t: bool)
    requires ok(a) && ok(b) && ok(c) && ok(d) && (free(a) <==> p) && (free(b) <==> q) && (free(c) <==> r) && (free(d) <==> t)
    ensures Are([a, b, c, d], ok, free, p && q && r && t)
  {
    Are3(ok, free, b, q, c, r, d, t);
    AreMore(ok, free, a, p, [b, c, d], q && r && t);
    assert [a] + [b, c, d] == [a, b, c, d];
  }

  lemma Are5<T>(ok: T -> bool, free: T -> bool, a: T, p: bool, b: T, q: bool, c: T, r: bool, d: T, t: bool, e: T, u: bool)
    requires ok(a) && ok(b) && ok(c) && ok(d) && ok(e)
    requires (free(a) <==> p) && (free(b) <==> q) && (free(c) <==> r) && (free(d) <==> t) && (free(e) <==> u)
    ensures Are([a, b, c, d, e], ok, free, p && q && r && t && u)
  {
    Are4(ok, free, b, q, c, r, d, t, e, u);
    AreMore(ok, free, a, p, [b, c, d, e], q && r && t && u);
    assert [a] + [b, c, d, e] == [a, b, c, d, e];
  }

  /** Readable by itself, and in a comma-separated list exactly if `plain`. */
  ghost predicate ArgIs(arg: Arg, plain: bool) {
    ArgOk(arg) && (CommaFree(arg) <==> plain)
  }

  lemma PropsAre(flag: Flag, items: seq<Item>, plain: bool)
    requires TakesProps(flag) && items != [] && Are(items, ItemOk, NoComma, plain)
    ensures ArgIs(Props(flag, items), plain)
  {
    assert forall item :: NoComma(item) <==> ',' !in ItemText(item);
  }

  lemma TapIs(id: string, tap: string)
    requires ',' !in id
    ensures ArgIs(Props(Netdev, TapItems(id, tap)), ',' !in tap)
  {
    NamesOk2();
    BareItem("tap");
    KnownItem(Id, id);
    OtherItem("ifname", tap);
    OtherItem("script", "no");
    OtherItem("downscript", "no");
    Are5(ItemOk, NoComma, Bare("tap"), true, P(Id, id), true, O("ifname", tap), ',' !in tap, O("script", "no"), true, O("downscript", "no"), true);
    PropsAre(Netdev, TapItems(id, tap), ',' !in tap);
  }

  lemma NicIs(inp: Inputs)
    ensures ArgIs(NetArgs(inp)[1], ',' !in inp.mac)
  {
    var nic := [Bare("virtio-net-pci"), P(NetdevRef, "net0")];
    BareItem("virtio-net-pci");
    KnownItem(NetdevRef, "net0");
    Are2(ItemOk, NoComma, nic[0], true, nic[1], true);
    assert nic + [] == nic;
    if inp.mac != "" {
      NicWithMac(nic[0], nic[1], inp.mac);
      assert nic + [O("mac", inp.mac)] == [nic[0], nic[1], O("mac", inp.mac)];
    }
    PropsAre(Device, NetArgs(inp)[1].items, ',' !in inp.mac);
  }

  lemma NicWithMac(a: Item, b: Item, mac: string)
    requires ItemIs(a, true) && ItemIs(b, true)
    ensures Are([a, b, O("mac", mac)], ItemOk, NoComma, ',' !in mac)
  {
    NamesOk3();
    OtherItem("mac", mac);
    Are3(ItemOk, NoComma, a, true, b, true, O("mac", mac), ',' !in mac);
  }

  lemma SecondNicIs(inp: Inputs)
    requires inp.secondTap != ""
    ensures ArgIs(SecondNetArgs(inp)[1], true)
  {
    BareItem("virtio-net-pci");
    KnownItem(NetdevRef, "net1");
    KnownItem(Addr, "0x6");
    Are3(ItemOk, NoComma, Bare("virtio-net-pci"), true, P(NetdevRef, "net1"), true, P(Addr, "0x6"), true);
    PropsAre(Device, SecondNetArgs(inp)[1].items, true);
  }

  lemma ChardevIs(inp: Inputs)
    ensures ArgIs(TpmArgs(inp)[0], ',' !in inp.socket)
  {
    NamesOk3();
    BareItem("socket");
    KnownItem(Id, "char0");
    OtherItem("path", inp.socket);
    Are3(ItemOk, NoComma, Bare("socket"), true, P(Id, "char0"), true, O("path", inp.socket), ',' !in inp.socket);
    PropsAre(Chardev, TpmArgs(inp)[0].items, ',' !in inp.socket);
  }

  lemma TpmIs(inp: Inputs)
    ensures ArgIs(TpmArgs(inp)[1], true) && ArgIs(TpmArgs(inp)[2], true)
  {
    BareItem("emulator");
    KnownItem(Id, "tpm0");
    KnownItem(ChardevRef, "char0");
    Are3(ItemOk, NoComma, Bare("emulator"), true, P(Id, "tpm0"), true, P(ChardevRef, "char0"), true);
    PropsAre(Tpmdev, TpmArgs(inp)[1].items, true);
    BareItem("tpm-tis");
    KnownItem(TpmdevRef, "tpm0");
    Are2(ItemOk, NoComma, Bare("tpm-tis"), true, P(TpmdevRef, "tpm0"), true);
    PropsAre(Device, TpmArgs(inp)[2].items, true);
  }

  lemma CodeIs(inp: Inputs)
    ensures ArgIs(FirmwareArgs(inp)[1], ',' !in inp.code)
  {
    NamesOk1();
    NamesOk2();
    OtherItem("if", "pflash");
    OtherItem("format", "raw");
    OtherItem("unit", "0");
    OtherItem("file", inp.code);
    OtherItem("readonly", "on");
    Are5(ItemOk, NoComma, O("if", "pflash"), true, O("format", "raw"), true, O("unit", "0"), true, O("file", inp.code), ',' !in inp.code,
         O("readonly", "on"), true);
    PropsAre(Drive, FirmwareArgs(inp)[1].items, ',' !in inp.code);
  }

  lemma VarsIs(inp: Inputs)
    ensures ArgIs(FirmwareArgs(inp)[2], ',' !in inp.vars)
  {
    NamesOk1();
    OtherItem("if", "pflash");
    OtherItem("format", "raw");
    OtherItem("unit", "1");
    OtherItem("file", inp.vars);
    Are4(ItemOk, NoComma, O("if", "pflash"), true, O("format", "raw"), true, O("unit", "1"), true, O("file", inp.vars), ',' !in inp.vars);
    PropsAre(Drive, FirmwareArgs(inp)[2].items, ',' !in inp.vars);
  }

  lemma CdDriveEndIs()
    ensures Are([O("format", "raw"), O("cache", "none"), O("media", "cdrom"), O("if", "none"), P(Id, "cd0")], ItemOk, NoComma, true)
  {
    NamesOk1();
    NamesOk3();
    OtherItem("format", "raw");
    OtherItem("cache", "none");
    OtherItem("media", "cdrom");
    OtherItem("if", "none");
    KnownItem(Id, "cd0");
    Are5(ItemOk, NoComma, O("format", "raw"), true, O("cache", "none"), true, O("media", "cdrom"), true, O("if", "none"), true,
         P(Id, "cd0"), true);
  }

  lemma CdDriveIs(inp: Inputs)
    requires BootsISO(inp)
    ensures ArgIs(CdArgs(inp)[1], ',' !in inp.iso)
  {
    var rest := [O("format", "raw"), O("cache", "none"), O("media", "cdrom"), O("if", "none"), P(Id, "cd0")];
    NamesOk1();
    OtherItem("file", inp.iso);
    CdDriveEndIs();
    AreMore(ItemOk, NoComma, O("file", inp.iso), ',' !in inp.iso, rest, true);
    assert CdArgs(inp)[1].items == [O("file", inp.iso)] + rest;
    PropsAre(Drive, CdArgs(inp)[1].items, ',' !in inp.iso);
  }

  lemma ControllerIs(inp: Inputs)
    requires BootsISO(inp)
    ensures ArgIs(CdArgs(inp)[0], true)
  {
    BareItem("virtio-scsi-pci");
    KnownItem(Id, "scsi0");
    KnownItem(Addr, "0x4");
    Are3(ItemOk, NoComma, Bare("virtio-scsi-pci"), true, P(Id, "scsi0"), true, P(Addr, "0x4"), true);
    PropsAre(Device, CdArgs(inp)[0].items, true);
  }

  lemma CdDeviceIs(inp: Inputs)
    requires BootsISO(inp)
    ensures ArgIs(CdArgs(inp)[2], true)
  {
    BareItem("scsi-cd");
    KnownItem(Bus, "scsi0.0");
    KnownItem(DriveRef, "cd0");
    KnownItem(BootIndex, "0");
    Are4(ItemOk, NoComma, Bare("scsi-cd"), true, P(Bus, "scsi0.0"), true, P(DriveRef, "cd0"), true, P(BootIndex, "0"), true);
    PropsAre(Device, CdArgs(inp)[2].items, true);
  }

  lemma DiskDriveIs(inp: Inputs)
    ensures ArgIs(DiskArgs(inp)[0], ',' !in inp.disk)
  {
    NamesOk1();
    OtherItem("file", inp.disk);
    OtherItem("format", "raw");
    OtherItem("if", "none");
    KnownItem(Id, "disk");
    Are4(ItemOk, NoComma, O("file", inp.disk), ',' !in inp.disk, O("format", "raw"), true, O("if", "none"), true, P(Id, "disk"), true);
    PropsAre(Drive, DiskArgs(inp)[0].items, ',' !in inp.disk);
  }

  lemma DiskDeviceIs(inp: Inputs)
    ensures ArgIs(DiskArgs(inp)[1], true)
  {
    var index := if BootsISO(inp) then "1" else "0";
    BareItem("virtio-blk-pci");
    KnownItem(DriveRef, "disk");
    KnownItem(Addr, "0x5");
    KnownItem(BootIndex, index);
    Are4(ItemOk, NoComma, Bare("virtio-blk-pci"), true, P(DriveRef, "disk"), true, P(Addr, "0x5"), true, P(BootIndex, index), true);
    PropsAre(Device, DiskArgs(inp)[1].items, true);
  }

  ghost predicate ArgsAre(args: seq<Arg>, plain: bool) {
    Are(args, arg => ArgOk(arg), arg => CommaFree(arg), plain)
  }

  lemma Both(a: seq<Arg>, p: bool, b: seq<Arg>, q: bool)
    requires ArgsAre(a, p) && ArgsAre(b, q)
    ensures ArgsAre(a + b, p && q)
  {
    assert forall arg :: arg in a + b <==> arg in a || arg in b;
  }

  lemma Two(a: Arg, p: bool, b: Arg, q: bool)
    requires ArgIs(a, p) && ArgIs(b, q)
    ensures ArgsAre([a, b], p && q)
  {
    Are2(arg => ArgOk(arg), arg => CommaFree(arg), a, p, b, q);
  }

  lemma Three(a: Arg, p: bool, b: Arg, q: bool, c: Arg, r: bool)
    requires ArgIs(a, p) && ArgIs(b, q) && ArgIs(c, r)
    ensures ArgsAre([a, b, c], p && q && r)
  {
    Are3(arg => ArgOk(arg), arg => CommaFree(arg), a, p, b, q, c, r);
  }

  lemma Eight(a: seq<Arg>, p: bool, b: seq<Arg>, q: bool, c: seq<Arg>, r: bool, d: seq<Arg>, t: bool,
              e: seq<Arg>, u: bool, f: seq<Arg>, v: bool, g: seq<Arg>, w: bool, h: seq<Arg>, x: bool)
    requires ArgsAre(a, p) && ArgsAre(b, q) && ArgsAre(c, r) && ArgsAre(d, t)
    requires ArgsAre(e, u) && ArgsAre(f, v) && ArgsAre(g, w) && ArgsAre(h, x)
    ensures ArgsAre(a + (b + (c + (d + (e + (f + (g + h)))))), p && q && r && t && u && v && w && x)
  {
    Both(g, w, h, x);
    Both(f, v, g + h, w && x);
    Both(e, u, f + (g + h), v && w && x);
    Both(d, t, e + (f + (g + h)), u && v && w && x);
    Both(c, r, d + (e + (f + (g + h))), t && u && v && w && x);
    Both(b, q, c + (d + (e + (f + (g + h)))), r && t && u && v && w && x);
    Both(a, p, b + (c + (d + (e + (f + (g + h))))), q && r && t && u && v && w && x);
  }

  /** The arguments that are not comma-separated. */
  lemma PlainArgs(inp: Inputs)
    ensures ArgsAre(ConsoleArgs(inp), true) && ArgIs(FirmwareArgs(inp)[0], true)
  {
  }

  lemma BaseTexts(inp: Inputs)
    ensures ArgsAre(BaseArgs(inp)[..5], true)
  {
  }

  lemma BaseIs(inp: Inputs)
    ensures ArgsAre(BaseArgs(inp), true)
  {
    var rng := Props(Device, [Bare("virtio-rng-pci")]);
    BareItem("virtio-rng-pci");
    Are1(ItemOk, NoComma, Bare("virtio-rng-pci"), true);
    PropsAre(Device, [Bare("virtio-rng-pci")], true);
    Are1(arg => ArgOk(arg), arg => CommaFree(arg), rng, true);
    BaseTexts(inp);
    Both(BaseArgs(inp)[..5], true, [rng], true);
    assert BaseArgs(inp) == BaseArgs(inp)[..5] + [rng];
  }

  lemma NetworkIs(inp: Inputs)
    ensures ArgsAre(NetArgs(inp), ',' !in inp.tap && ',' !in inp.mac)
    ensures ArgsAre(SecondNetArgs(inp), ',' !in inp.secondTap)
  {
    TapIs("net0", inp.tap);
    NicIs(inp);
    Two(NetArgs(inp)[0], ',' !in inp.tap, NetArgs(inp)[1], ',' !in inp.mac);
    if inp.secondTap != "" {
      TapIs("net1", inp.secondTap);
      SecondNicIs(inp);
      Two(SecondNetArgs(inp)[0], ',' !in inp.secondTap, SecondNetArgs(inp)[1], true);
    }
  }

  lemma StorageIs(inp: Inputs)
    ensures ArgsAre(CdArgs(inp), BootsISO(inp) ==> ',' !in inp.iso) && ArgsAre(DiskArgs(inp), ',' !in inp.disk)
  {
    DiskDriveIs(inp);
    DiskDeviceIs(inp);
    Two(DiskArgs(inp)[0], ',' !in inp.disk, DiskArgs(inp)[1], true);
    if BootsISO(inp) {
      ControllerIs(inp);
      CdDriveIs(inp);
      CdDeviceIs(inp);
      Three(CdArgs(inp)[0], true, CdArgs(inp)[1], ',' !in inp.iso, CdArgs(inp)[2], true);
    }
  }

  lemma TpmAndFirmwareAre(inp: Inputs)
    ensures ArgsAre(TpmArgs(inp), ',' !in inp.socket)
    ensures ArgsAre(FirmwareArgs(inp), ',' !in inp.code && ',' !in inp.vars)
  {
    ChardevIs(inp);
    TpmIs(inp);
    Three(TpmArgs(inp)[0], ',' !in inp.socket, TpmArgs(inp)[1], true, TpmArgs(inp)[2], true);
    PlainArgs(inp);
    CodeIs(inp);
    VarsIs(inp);
    Three(FirmwareArgs(inp)[0], true, FirmwareArgs(inp)[1], ',' !in inp.code, FirmwareArgs(inp)[2], ',' !in inp.vars);
  }

  /** QEMU reads the command line as it was meant exactly if the inputs that go into comma-separated
      arguments hold no comma. */
  lemma CommandLineReadIff(inp: Inputs)
    ensures Read(Words(AllArgs(inp))) == Some(AllArgs(inp)) <==> Plain(inp)
  {
    PlainArgs(inp);
    BaseIs(inp);
    NetworkIs(inp);
    StorageIs(inp);
    TpmAndFirmwareAre(inp);
    Eight(BaseArgs(inp), true, NetArgs(inp), ',' !in inp.tap && ',' !in inp.mac, SecondNetArgs(inp), ',' !in inp.secondTap,
          TpmArgs(inp), ',' !in inp.socket, FirmwareArgs(inp), ',' !in inp.code && ',' !in inp.vars,
          CdArgs(inp), BootsISO(inp) ==> ',' !in inp.iso, DiskArgs(inp), ',' !in inp.disk, ConsoleArgs(inp), true);
    ReadInvertsWordsIff(AllArgs(inp));
  }

  /** How often the arguments give a special property a value. */
  function Expected(inp: Inputs, q: Query): nat {
    NetExpected(inp, q) + TpmExpected(q) + (if BootsISO(inp) then CdExpected(q) else 0) + DiskExpected(inp, q)
  }

  lemma CountsAreExpected(inp: Inputs, q: Query)
    requires !q.key.Other?
    ensures Count(AllArgs(inp), q) == Expected(inp, q)
  {
    AllCount(inp, q);
    NetCount(inp, q);
    SecondNetCount(inp, q);
    TpmCount(inp, q);
    CdCount(inp, q);
    DiskCount(inp, q);
  }
}
