/** The command line as `buildQEMUArgs` of runner/qemu.go writes it, format string by format string, and
    what QEMU finds in it. */
module QemuCommandLine {
  import opened Sequences
  import opened Numbers
  import opened QemuArgs
  import opened QemuReferences

  // ----- The text of an argument, by its parts -----

  function PropsText(items: seq<Item>): string {
    Join(ItemTexts(items), ',')
  }

  lemma Text1(a: Item)
    ensures PropsText([a]) == ItemText(a)
  {
    assert [a][1..] == [];
    assert ItemTexts([a]) == [ItemText(a)];
  }

  lemma TextMore(a: Item, items: seq<Item>)
    requires items != []
    ensures PropsText([a] + items) == ItemText(a) + "," + PropsText(items)
  {
    assert ([a] + items)[1..] == items;
    assert ItemTexts([a] + items)[1..] == ItemTexts(items);
  }

  lemma Text2(a: Item, b: Item)
    ensures PropsText([a, b]) == ItemText(a) + "," + ItemText(b)
  {
    Text1(b);
    TextMore(a, [b]);
    assert [a] + [b] == [a, b];
  }

  lemma Text3(a: Item, b: Item, c: Item)
    ensures PropsText([a, b, c]) == ItemText(a) + "," + (ItemText(b) + "," + ItemText(c))
  {
    Text2(b, c);
    TextMore(a, [b, c]);
    assert [a] + [b, c] == [a, b, c];
  }

  lemma Text4(a: Item, b: Item, c: Item, d: Item)
    ensures PropsText([a, b, c, d]) == ItemText(a) + "," + (ItemText(b) + "," + (ItemText(c) + "," + ItemText(d)))
  {
    Text3(b, c, d);
    TextMore(a, [b, c, d]);
    assert [a] + [b, c, d] == [a, b, c, d];
  }

  lemma Text5(a: Item, b: Item, c: Item, d: Item, e: Item)
    ensures PropsText([a, b, c, d, e])
      == ItemText(a) + "," + (ItemText(b) + "," + (ItemText(c) + "," + (ItemText(d) + "," + ItemText(e))))
  {
    Text4(b, c, d, e);
    TextMore(a, [b, c, d, e]);
    assert [a] + [b, c, d, e] == [a, b, c, d, e];
  }

  /** Properties written in a row, and one of them with an open value. */
  lemma Run3(a: string, b: string, c: string, x: string)
    ensures a + "," + (b + "," + (c + "," + x)) == (a + "," + b + "," + c + ",") + x
  {
  }

  lemma OpenValue(a: string, k: string, v: string, x: string)
    ensures a + "," + ((k + ['='] + v) + "," + x) == (a + "," + k + "=") + v + "," + x
  {
  }

  lemma TapText(id: string, tap: string)
    ensures PropsText(TapItems(id, tap)) == "tap,id=" + id + ",ifname=" + tap + ",script=no,downscript=no"
  {
    var ifname, script := "ifname" + ['='] + tap, "script=no" + "," + "downscript=no";
    Text5(Bare("tap"), P(Id, id), O("ifname", tap), O("script", "no"), O("downscript", "no"));
    assert ItemText(O("script", "no")) == "script=no" && ItemText(O("downscript", "no")) == "downscript=no";
    OpenValue("tap", "id", id, ifname + "," + script);
    assert "tap" + "," + "id" + "=" == "tap,id=";
    TapEnd("tap,id=" + id, tap, script);
    assert "," + script == ",script=no,downscript=no";
  }

  lemma TapEnd(front: string, tap: string, script: string)
    ensures front + "," + (("ifname" + ['='] + tap) + "," + script) == front + ",ifname=" + tap + ("," + script)
  {
    assert ",ifname=" == "," + "ifname" + "=";
    OpenValue(front, "ifname", tap, script);
  }

  // ----- The words of each group -----

  lemma Words2(a: Arg, b: Arg)
    ensures Words([a, b]) == ArgWords(a) + ArgWords(b)
  {
    assert [a, b][1..] == [b] && [b][1..] == [];
    assert Words([b]) == ArgWords(b) + [];
  }

  lemma Words3(a: Arg, b: Arg, c: Arg)
    ensures Words([a, b, c]) == ArgWords(a) + ArgWords(b) + ArgWords(c)
  {
    assert [a, b, c][1..] == [b, c];
    Words2(b, c);
  }

  lemma {:induction false} WordsAppend(a: seq<Arg>, b: seq<Arg>)
    ensures Words(a + b) == Words(a) + Words(b)
  {
    if a == [] {
      assert a + b == b;
    } else {
      assert (a + b)[1..] == a[1..] + b && (a + b)[0] == a[0];
      WordsAppend(a[1..], b);
      Assoc(ArgWords(a[0]), Words(a[1..]), Words(b));
    }
  }

  lemma Words6(a: Arg, b: Arg, c: Arg, d: Arg, e: Arg, f: Arg)
    ensures Words([a, b, c, d, e, f]) == ArgWords(a) + ArgWords(b) + ArgWords(c) + (ArgWords(d) + ArgWords(e) + ArgWords(f))
  {
    Words3(a, b, c);
    Words3(d, e, f);
    WordsAppend([a, b, c], [d, e, f]);
    assert [a, b, c] + [d, e, f] == [a, b, c, d, e, f];
  }

  method BaseArguments(inp: Inputs) returns (args: seq<string>)
    ensures args == Words(BaseArgs(inp))
  {
    var memory := inp.memory;
    if memory == "" {
      memory := "6G";
    }
    var cpus := inp.cpus;
    if cpus == 0 {
      cpus := 2;
    }
    var machineType := inp.machineType;
    if machineType == "" {
      machineType := inp.hostMachine;
    }
    var cpuModel := "host";
    if Contains(machineType, "accel=tcg") {
      cpuModel := "max";
    }
    args := [
      "-name", inp.serverName,
      "-machine", machineType,
      "-cpu", cpuModel,
      "-m", memory,
      "-smp", Decimal(cpus),
      "-device", "virtio-rng-pci"];
    BaseWords(inp.serverName, machineType, cpuModel, memory, Decimal(cpus));
    assert BaseArgs(inp) == [Text(Name, inp.serverName), Text(Machine, machineType), Text(Cpu, cpuModel), Text(Memory, memory),
                             Text(Smp, Decimal(cpus)), Props(Device, [Bare("virtio-rng-pci")])];
  }

  lemma BaseWords(name: string, machineType: string, cpuModel: string, memory: string, cpus: string)
    ensures Words([Text(Name, name), Text(Machine, machineType), Text(Cpu, cpuModel), Text(Memory, memory), Text(Smp, cpus),
                   Props(Device, [Bare("virtio-rng-pci")])])
      == ["-name", name, "-machine", machineType, "-cpu", cpuModel, "-m", memory, "-smp", cpus, "-device", "virtio-rng-pci"]
  {
    Text1(Bare("virtio-rng-pci"));
    Words6(Text(Name, name), Text(Machine, machineType), Text(Cpu, cpuModel), Text(Memory, memory), Text(Smp, cpus),
           Props(Device, [Bare("virtio-rng-pci")]));
  }

  lemma NicText(mac: string)
    ensures PropsText([Bare("virtio-net-pci"), P(NetdevRef, "net0")]) == "virtio-net-pci,netdev=net0"
    ensures PropsText([Bare("virtio-net-pci"), P(NetdevRef, "net0"), O("mac", mac)]) == "virtio-net-pci,netdev=net0,mac=" + mac
  {
    Text2(Bare("virtio-net-pci"), P(NetdevRef, "net0"));
    Text3(Bare("virtio-net-pci"), P(NetdevRef, "net0"), O("mac", mac));
  }

  lemma NicItems(mac: string)
    ensures [Bare("virtio-net-pci"), P(NetdevRef, "net0")] + (if mac != "" then [O("mac", mac)] else [])
      == if mac != "" then [Bare("virtio-net-pci"), P(NetdevRef, "net0"), O("mac", mac)] else [Bare("virtio-net-pci"), P(NetdevRef, "net0")]
  {
  }

  method NetworkArguments(inp: Inputs) returns (args: seq<string>)
    ensures args == Words(NetArgs(inp))
  {
    var netdevArg := "tap,id=net0,ifname=" + inp.tap + ",script=no,downscript=no";
    var deviceArg := "virtio-net-pci,netdev=net0";
    if inp.mac != "" {
      deviceArg := "virtio-net-pci,netdev=net0,mac=" + inp.mac;
    }
    args := ["-netdev", netdevArg, "-device", deviceArg];
    TapText("net0", inp.tap);
    assert "tap,id=" + "net0" + ",ifname=" == "tap,id=net0,ifname=";
    NicText(inp.mac);
    NicItems(inp.mac);
    Words2(NetArgs(inp)[0], NetArgs(inp)[1]);
  }

  lemma SecondNicText()
    ensures PropsText([Bare("virtio-net-pci"), P(NetdevRef, "net1"), P(Addr, "0x6")]) == "virtio-net-pci,netdev=net1,addr=0x6"
  {
    Text3(Bare("virtio-net-pci"), P(NetdevRef, "net1"), P(Addr, "0x6"));
  }

  method SecondNetworkArguments(inp: Inputs) returns (args: seq<string>)
    requires inp.secondTap != ""
    ensures args == Words(SecondNetArgs(inp))
  {
    var netdevArg2 := "tap,id=net1,ifname=" + inp.secondTap + ",script=no,downscript=no";
    var deviceArg2 := "virtio-net-pci,netdev=net1,addr=0x6";
    args := ["-netdev", netdevArg2, "-device", deviceArg2];
    TapText("net1", inp.secondTap);
    assert "tap,id=" + "net1" + ",ifname=" == "tap,id=net1,ifname=";
    SecondNicText();
    Words2(SecondNetArgs(inp)[0], SecondNetArgs(inp)[1]);
  }

  lemma ChardevText(socket: string)
    ensures PropsText([Bare("socket"), P(Id, "char0"), O("path", socket)]) == "socket,id=char0,path=" + socket
  {
    Text3(Bare("socket"), P(Id, "char0"), O("path", socket));
  }

  lemma TpmTexts(socket: string)
    ensures PropsText([Bare("socket"), P(Id, "char0"), O("path", socket)]) == "socket,id=char0,path=" + socket
    ensures PropsText([Bare("emulator"), P(Id, "tpm0"), P(ChardevRef, "char0")]) == "emulator,id=tpm0,chardev=char0"
    ensures PropsText([Bare("tpm-tis"), P(TpmdevRef, "tpm0")]) == "tpm-tis,tpmdev=tpm0"
  {
    ChardevText(socket);
    Text3(Bare("emulator"), P(Id, "tpm0"), P(ChardevRef, "char0"));
    Text2(Bare("tpm-tis"), P(TpmdevRef, "tpm0"));
  }

  method TpmArguments(inp: Inputs) returns (args: seq<string>)
    ensures args == Words(TpmArgs(inp))
  {
    args := [
      "-chardev", "socket,id=char0,path=" + inp.socket,
      "-tpmdev", "emulator,id=tpm0,chardev=char0",
      "-device", "tpm-tis,tpmdev=tpm0"];
    TpmTexts(inp.socket);
    Words3(TpmArgs(inp)[0], TpmArgs(inp)[1], TpmArgs(inp)[2]);
  }

  lemma FlashFront(unit: string, x: string)
    requires unit == "0" || unit == "1"
    ensures ItemText(O("if", "pflash")) + "," + (ItemText(O("format", "raw")) + "," + (ItemText(O("unit", unit)) + "," + x))
      == "if=pflash,format=raw,unit=" + unit + "," + x
  {
    var u := ItemText(O("unit", unit));
    Run3("if=pflash", "format=raw", u, x);
    assert ItemText(O("if", "pflash")) == "if=pflash" && ItemText(O("format", "raw")) == "format=raw" && u == "unit=" + unit;
    assert "if=pflash" + "," + "format=raw" + "," + u + "," == "if=pflash,format=raw,unit=" + unit + ",";
  }

  lemma CodeText(code: string)
    ensures PropsText([O("if", "pflash"), O("format", "raw"), O("unit", "0"), O("file", code), O("readonly", "on")])
      == "if=pflash,format=raw,unit=0,file=" + code + ",readonly=on"
  {
    Text5(O("if", "pflash"), O("format", "raw"), O("unit", "0"), O("file", code), O("readonly", "on"));
    var x := "file=" + code + ",readonly=on";
    assert ItemText(O("file", code)) + "," + ItemText(O("readonly", "on")) == x by {
      assert "," + ItemText(O("readonly", "on")) == ",readonly=on";
    }
    FlashFront("0", x);
    assert "if=pflash,format=raw,unit=" + "0" + "," + "file=" == "if=pflash,format=raw,unit=0,file=";
  }

  lemma VarsText(vars: string)
    ensures PropsText([O("if", "pflash"), O("format", "raw"), O("unit", "1"), O("file", vars)])
      == "if=pflash,format=raw,unit=1,file=" + vars
  {
    Text4(O("if", "pflash"), O("format", "raw"), O("unit", "1"), O("file", vars));
    assert ItemText(O("file", vars)) == "file=" + vars;
    FlashFront("1", "file=" + vars);
    var front := "if=pflash,format=raw,unit=" + "1" + ",";
    Assoc(front, "file=", vars);
    assert front + "file=" == "if=pflash,format=raw,unit=1,file=";
  }

  method FirmwareArguments(inp: Inputs) returns (args: seq<string>)
    ensures args == Words(FirmwareArgs(inp))
  {
    args := [
      "-global", "driver=cfi.pflash01,property=secure,value=on",
      "-drive", "if=pflash,format=raw,unit=0,file=" + inp.code + ",readonly=on",
      "-drive", "if=pflash,format=raw,unit=1,file=" + inp.vars];
    CodeText(inp.code);
    VarsText(inp.vars);
    Words3(FirmwareArgs(inp)[0], FirmwareArgs(inp)[1], FirmwareArgs(inp)[2]);
  }

  lemma ControllerText()
    ensures PropsText([Bare("virtio-scsi-pci"), P(Id, "scsi0"), P(Addr, "0x4")]) == "virtio-scsi-pci,id=scsi0,addr=0x4"
  {
    Text3(Bare("virtio-scsi-pci"), P(Id, "scsi0"), P(Addr, "0x4"));
  }

  lemma CdDeviceText()
    ensures PropsText([Bare("scsi-cd"), P(Bus, "scsi0.0"), P(DriveRef, "cd0"), P(BootIndex, "0")])
      == "scsi-cd,bus=scsi0.0,drive=cd0,bootindex=0"
  {
    Text4(Bare("scsi-cd"), P(Bus, "scsi0.0"), P(DriveRef, "cd0"), P(BootIndex, "0"));
  }

  /** A file, and fixed properties behind it. */
  lemma FileFront(file: string, items: seq<Item>, text: string)
    requires items != [] && PropsText(items) == text
    ensures PropsText([O("file", file)] + items) == "file=" + file + "," + text
  {
    TextMore(O("file", file), items);
    assert ItemText(O("file", file)) == "file=" + file;
  }

  lemma CdDriveText(iso: string)
    ensures PropsText([O("file", iso), O("format", "raw"), O("cache", "none"), O("media", "cdrom"), O("if", "none"), P(Id, "cd0")])
      == "file=" + iso + "," + "format=raw,cache=none,media=cdrom,if=none,id=cd0"
  {
    var items := [O("format", "raw"), O("cache", "none"), O("media", "cdrom"), O("if", "none"), P(Id, "cd0")];
    CdDriveEnd();
    FileFront(iso, items, "format=raw,cache=none,media=cdrom,if=none,id=cd0");
    assert [O("file", iso)] + items
      == [O("file", iso), O("format", "raw"), O("cache", "none"), O("media", "cdrom"), O("if", "none"), P(Id, "cd0")];
  }

  lemma CdDriveItems()
    ensures ItemText(O("format", "raw")) == "format=raw" && ItemText(O("cache", "none")) == "cache=none"
    ensures ItemText(O("media", "cdrom")) == "media=cdrom" && ItemText(O("if", "none")) == "if=none" && ItemText(P(Id, "cd0")) == "id=cd0"
  {
  }

  lemma CdDriveEnd()
    ensures PropsText([O("format", "raw"), O("cache", "none"), O("media", "cdrom"), O("if", "none"), P(Id, "cd0")])
      == "format=raw,cache=none,media=cdrom,if=none,id=cd0"
  {
    CdDriveItems();
    CdDriveLiteral();
    Text5(O("format", "raw"), O("cache", "none"), O("media", "cdrom"), O("if", "none"), P(Id, "cd0"));
  }

  lemma CdDriveLiteral()
    ensures "format=raw" + "," + ("cache=none" + "," + ("media=cdrom" + "," + ("if=none" + "," + "id=cd0")))
      == "format=raw,cache=none,media=cdrom,if=none,id=cd0"
  {
  }

  method CdArguments(inp: Inputs) returns (args: seq<string>)
    requires BootsISO(inp)
    ensures args == Words(CdArgs(inp))
  {
    args := [
      "-device", "virtio-scsi-pci,id=scsi0,addr=0x4",
      "-drive", "file=" + inp.iso + "," + "format=raw,cache=none,media=cdrom,if=none,id=cd0",
      "-device", "scsi-cd,bus=scsi0.0,drive=cd0,bootindex=0"];
    ControllerText();
    CdDeviceText();
    CdDriveText(inp.iso);
    Words3(CdArgs(inp)[0], CdArgs(inp)[1], CdArgs(inp)[2]);
  }

  lemma DiskDriveText(disk: string)
    ensures PropsText([O("file", disk), O("format", "raw"), O("if", "none"), P(Id, "disk")])
      == "file=" + disk + "," + "format=raw,if=none,id=disk"
  {
    var items := [O("format", "raw"), O("if", "none"), P(Id, "disk")];
    DiskDriveEnd();
    FileFront(disk, items, "format=raw,if=none,id=disk");
    assert [O("file", disk)] + items == [O("file", disk), O("format", "raw"), O("if", "none"), P(Id, "disk")];
  }

  lemma DiskDriveEnd()
    ensures PropsText([O("format", "raw"), O("if", "none"), P(Id, "disk")]) == "format=raw,if=none,id=disk"
  {
    Text3(O("format", "raw"), O("if", "none"), P(Id, "disk"));
  }

  lemma DiskDeviceText(index: string)
    requires index == "0" || index == "1"
    ensures PropsText([Bare("virtio-blk-pci"), P(DriveRef, "disk"), P(Addr, "0x5"), P(BootIndex, index)])
      == "virtio-blk-pci,drive=disk,addr=0x5,bootindex=" + index
  {
    Text4(Bare("virtio-blk-pci"), P(DriveRef, "disk"), P(Addr, "0x5"), P(BootIndex, index));
  }

  /** The disk, which both branches of the source write alike but for its boot index. */
  method DiskArguments(inp: Inputs, device: string) returns (args: seq<string>)
    requires device == "virtio-blk-pci,drive=disk,addr=0x5,bootindex=" + if BootsISO(inp) then "1" else "0"
    ensures args == Words(DiskArgs(inp))
  {
    args := ["-drive", "file=" + inp.disk + "," + "format=raw,if=none,id=disk", "-device", device];
    DiskDriveText(inp.disk);
    DiskDeviceText(if BootsISO(inp) then "1" else "0");
    Words2(DiskArgs(inp)[0], DiskArgs(inp)[1]);
  }

  method StorageArguments(inp: Inputs) returns (args: seq<string>)
    ensures args == Words(CdArgs(inp)) + Words(DiskArgs(inp))
  {
    if inp.bootFromISO && inp.iso != "" {
      var cd := CdArguments(inp);
      assert "virtio-blk-pci,drive=disk,addr=0x5,bootindex=" + "1" == "virtio-blk-pci,drive=disk,addr=0x5,bootindex=1";
      var disk := DiskArguments(inp, "virtio-blk-pci,drive=disk,addr=0x5,bootindex=1");
      args := cd + disk;
    } else {
      assert "virtio-blk-pci,drive=disk,addr=0x5,bootindex=" + "0" == "virtio-blk-pci,drive=disk,addr=0x5,bootindex=0";
      args := DiskArguments(inp, "virtio-blk-pci,drive=disk,addr=0x5,bootindex=0");
      assert [] + args == args;
    }
  }

  method ConsoleArguments(inp: Inputs) returns (args: seq<string>)
    ensures args == Words(ConsoleArgs(inp))
  {
    if inp.direct {
      args := ["-nographic"];
      assert [Switch][1..] == [] && args + [] == args;
    } else {
      args := ["-serial", "stdio", "-display", "none"];
      Words2(Text(Serial, "stdio"), Text(Display, "none"));
    }
  }

  lemma WordsOfAll(inp: Inputs)
    ensures Words(AllArgs(inp))
      == Words(BaseArgs(inp)) + (Words(NetArgs(inp)) + (Words(SecondNetArgs(inp)) + (Words(TpmArgs(inp)) + (Words(FirmwareArgs(inp))
         + (Words(CdArgs(inp)) + (Words(DiskArgs(inp)) + Words(ConsoleArgs(inp))))))))
  {
    var disk := DiskArgs(inp) + ConsoleArgs(inp);
    var cd := CdArgs(inp) + disk;
    var firmware := FirmwareArgs(inp) + cd;
    var tpm := TpmArgs(inp) + firmware;
    var second := SecondNetArgs(inp) + tpm;
    WordsAppend(BaseArgs(inp), NetArgs(inp) + second);
    WordsAppend(NetArgs(inp), second);
    WordsAppend(SecondNetArgs(inp), tpm);
    WordsAppend(TpmArgs(inp), firmware);
    WordsAppend(FirmwareArgs(inp), cd);
    WordsAppend(CdArgs(inp), disk);
    WordsAppend(DiskArgs(inp), ConsoleArgs(inp));
  }

  lemma LeftToRight(a: seq<string>, b: seq<string>, c: seq<string>, d: seq<string>, e: seq<string>, f: seq<string>, g: seq<string>,
                    h: seq<string>)
    ensures a + b + c + d + e + (f + g) + h == a + (b + (c + (d + (e + (f + (g + h))))))
  {
    Assoc(f, g, h);
    Assoc(a + b + c + d, e, f + g);
    Assoc(a + b + c + d, e + (f + g), h);
    Assoc(e, f + g, h);
    Assoc(a + b + c, d, e + (f + (g + h)));
    Assoc(a + b, c, d + (e + (f + (g + h))));
    Assoc(a, b, c + (d + (e + (f + (g + h)))));
  }

  /** The words that the source's format strings make, appended branch by branch, are those of the
      structured arguments; QEMU reads these from them exactly if the inputs hold no comma. */
  method BuildQEMUArgs(inp: Inputs) returns (args: seq<string>)
    ensures args == Words(AllArgs(inp))
    ensures Read(args) == Some(AllArgs(inp)) <==> Plain(inp)
  {
    var base := BaseArguments(inp);
    var network := NetworkArguments(inp);
    var second: seq<string> := [];
    if inp.secondTap != "" {
      second := SecondNetworkArguments(inp);
    }
    var tpm := TpmArguments(inp);
    var firmware := FirmwareArguments(inp);
    var storage := StorageArguments(inp);
    var console := ConsoleArguments(inp);
    args := base + network + second + tpm + firmware + storage + console;
    LeftToRight(base, network, second, tpm, firmware, Words(CdArgs(inp)), Words(DiskArgs(inp)), console);
    WordsOfAll(inp);
    CommandLineReadIff(inp);
  }

  // ----- What QEMU finds on the line -----

  /** How often the arguments that QEMU reads from a line answer a query. */
  function CountOn(line: seq<string>, q: Query): nat {
    var args := Read(line);
    if args.None? then 0 else Count(args.value, q)
  }

  /** How often arguments of a flag declare an id, and how often a property has a value. */
  function Declares(line: seq<string>, flag: Flag, id: string): nat {
    CountOn(line, Query(Some(flag), None, Id, id))
  }

  function Uses(line: seq<string>, key: Key, value: string): nat {
    CountOn(line, Query(None, None, key, value))
  }

  function Boots(line: seq<string>, driver: string, index: string): nat {
    CountOn(line, Query(Some(Device), Some(driver), BootIndex, index))
  }

  lemma OnTheLine(inp: Inputs, line: seq<string>, q: Query)
    requires Plain(inp) && line == Words(AllArgs(inp)) && !q.key.Other?
    ensures CountOn(line, q) == Expected(inp, q)
  {
    CommandLineReadIff(inp);
    CountsAreExpected(inp, q);
  }

  /** The texts that a flag is given on a line. */
  function Texts(args: seq<Arg>, flag: Flag): seq<string> {
    if args == [] then []
    else (if args[0].Text? && args[0].flag == flag then [args[0].text] else []) + Texts(args[1..], flag)
  }

  function TextsOn(line: seq<string>, flag: Flag): seq<string> {
    var args := Read(line);
    if args.None? then [] else Texts(args.value, flag)
  }

  lemma {:induction false} TextsAppend(a: seq<Arg>, b: seq<Arg>, flag: Flag)
    ensures Texts(a + b, flag) == Texts(a, flag) + Texts(b, flag)
  {
    if a == [] {
      assert a + b == b;
    } else {
      assert (a + b)[1..] == a[1..] + b;
      TextsAppend(a[1..], b, flag);
    }
  }

  lemma {:induction false} NoTexts(args: seq<Arg>, flag: Flag)
    requires forall a :: a in args ==> !a.Text? || a.flag != flag
    ensures Texts(args, flag) == []
  {
    if args != [] {
      assert args[0] in args;
      NoTexts(args[1..], flag);
    }
  }

  predicate IsBaseFlag(flag: Flag) {
    flag.Name? || flag.Machine? || flag.Cpu? || flag.Memory? || flag.Smp?
  }

  /** Arguments that follow the first group hold none of its texts. */
  lemma Following(a: seq<Arg>, b: seq<Arg>, flag: Flag)
    requires Texts(a, flag) == [] && Texts(b, flag) == []
    ensures Texts(a + b, flag) == []
  {
    TextsAppend(a, b, flag);
  }

  lemma NetworkHasNoTexts(inp: Inputs, flag: Flag)
    requires IsBaseFlag(flag)
    ensures Texts(NetArgs(inp), flag) == [] && Texts(SecondNetArgs(inp), flag) == [] && Texts(TpmArgs(inp), flag) == []
  {
    NoTexts(NetArgs(inp), flag);
    NoTexts(SecondNetArgs(inp), flag);
    NoTexts(TpmArgs(inp), flag);
  }

  lemma StorageHasNoTexts(inp: Inputs, flag: Flag)
    requires IsBaseFlag(flag)
    ensures Texts(FirmwareArgs(inp), flag) == [] && Texts(CdArgs(inp), flag) == []
    ensures Texts(DiskArgs(inp), flag) == [] && Texts(ConsoleArgs(inp), flag) == []
  {
    NoTexts(FirmwareArgs(inp), flag);
    NoTexts(CdArgs(inp), flag);
    NoTexts(DiskArgs(inp), flag);
    NoTexts(ConsoleArgs(inp), flag);
  }

  lemma TextsOfAll(inp: Inputs, flag: Flag)
    requires IsBaseFlag(flag)
    ensures Texts(AllArgs(inp), flag) == Texts(BaseArgs(inp), flag)
  {
    var disk := DiskArgs(inp) + ConsoleArgs(inp);
    var cd := CdArgs(inp) + disk;
    var firmware := FirmwareArgs(inp) + cd;
    var tpm := TpmArgs(inp) + firmware;
    var second := SecondNetArgs(inp) + tpm;
    NetworkHasNoTexts(inp, flag);
    StorageHasNoTexts(inp, flag);
    Following(DiskArgs(inp), ConsoleArgs(inp), flag);
    Following(CdArgs(inp), disk, flag);
    Following(FirmwareArgs(inp), cd, flag);
    Following(TpmArgs(inp), firmware, flag);
    Following(SecondNetArgs(inp), tpm, flag);
    Following(NetArgs(inp), second, flag);
    TextsAppend(BaseArgs(inp), NetArgs(inp) + second, flag);
  }

  /** One text between arguments that hold none. */
  lemma OneTextBetween(before: seq<Arg>, a: Arg, after: seq<Arg>, flag: Flag)
    requires a.Text? && a.flag == flag && Texts(before, flag) == [] && Texts(after, flag) == []
    ensures Texts(before + ([a] + after), flag) == [a.text]
  {
    TextsAppend(before, [a] + after, flag);
    TextsAppend([a], after, flag);
    assert [a][1..] == [];
  }

  lemma OnlyText(args: seq<Arg>, i: nat, flag: Flag)
    requires i < |args| && args[i].Text? && args[i].flag == flag
    requires forall j :: 0 <= j < |args| && j != i ==> !args[j].Text? || args[j].flag != flag
    ensures Texts(args, flag) == [args[i].text]
  {
    NoTexts(args[..i], flag);
    NoTexts(args[i + 1..], flag);
    OneTextBetween(args[..i], args[i], args[i + 1..], flag);
    assert args == args[..i] + ([args[i]] + args[i + 1..]);
  }

  lemma TextsOfBase(inp: Inputs)
    ensures var b := BaseArgs(inp);
      && Texts(b, Name) == [b[0].text] && Texts(b, Machine) == [b[1].text] && Texts(b, Cpu) == [b[2].text]
      && Texts(b, Memory) == [b[3].text] && Texts(b, Smp) == [b[4].text]
  {
    OnlyText(BaseArgs(inp), 0, Name);
    OnlyText(BaseArgs(inp), 1, Machine);
    OnlyText(BaseArgs(inp), 2, Cpu);
    OnlyText(BaseArgs(inp), 3, Memory);
    OnlyText(BaseArgs(inp), 4, Smp);
  }

  /** The machine on the line: its name, type, memory, processors and processor model, each given once,
      with the defaults of a configuration that does not set them. */
  lemma MachineOnTheLine(inp: Inputs, line: seq<string>)
    requires Plain(inp) && line == Words(AllArgs(inp))
    ensures TextsOn(line, Name) == [inp.serverName]
    ensures TextsOn(line, Machine) == [if inp.machineType != "" then inp.machineType else inp.hostMachine]
    ensures inp.memory != "" ==> TextsOn(line, Memory) == [inp.memory]
    ensures inp.memory == "" ==> TextsOn(line, Memory) == ["6G"]
    ensures inp.cpus != 0 ==> TextsOn(line, Smp) == [Decimal(inp.cpus)]
    ensures inp.cpus == 0 ==> TextsOn(line, Smp) == [Decimal(2)]
    ensures TextsOn(line, Cpu) == if Contains(TextsOn(line, Machine)[0], "accel=tcg") then ["max"] else ["host"]
  {
    CommandLineReadIff(inp);
    forall flag | IsBaseFlag(flag) ensures TextsOn(line, flag) == Texts(BaseArgs(inp), flag) {
      TextsOfAll(inp, flag);
    }
    TextsOfBase(inp);
  }

  lemma NetdevsMatch(inp: Inputs, id: string)
    ensures Expected(inp, Query(None, None, NetdevRef, id)) == Expected(inp, Query(Some(Netdev), None, Id, id)) <= 1
  {
  }

  lemma ChardevsMatch(inp: Inputs, id: string)
    ensures Expected(inp, Query(None, None, ChardevRef, id)) == Expected(inp, Query(Some(Chardev), None, Id, id)) <= 1
  {
  }

  lemma TpmdevsMatch(inp: Inputs, id: string)
    ensures Expected(inp, Query(None, None, TpmdevRef, id)) == Expected(inp, Query(Some(Tpmdev), None, Id, id)) <= 1
  {
  }

  lemma DrivesMatch(inp: Inputs, id: string)
    ensures Expected(inp, Query(None, None, DriveRef, id)) == Expected(inp, Query(Some(Drive), None, Id, id)) <= 1
  {
  }

  /** References to backends and their declarations on the line match one to one: what is referred to is
      declared exactly once, and what is declared is used exactly once. */
  lemma ReferencesResolve(inp: Inputs, line: seq<string>, id: string)
    requires Plain(inp) && line == Words(AllArgs(inp))
    ensures Uses(line, NetdevRef, id) == Declares(line, Netdev, id) <= 1
    ensures Uses(line, ChardevRef, id) == Declares(line, Chardev, id) <= 1
    ensures Uses(line, TpmdevRef, id) == Declares(line, Tpmdev, id) <= 1
    ensures Uses(line, DriveRef, id) == Declares(line, Drive, id) <= 1
  {
    OnTheLine(inp, line, Query(None, None, NetdevRef, id));
    OnTheLine(inp, line, Query(Some(Netdev), None, Id, id));
    NetdevsMatch(inp, id);
    OnTheLine(inp, line, Query(None, None, ChardevRef, id));
    OnTheLine(inp, line, Query(Some(Chardev), None, Id, id));
    OnTheLine(inp, line, Query(None, None, TpmdevRef, id));
    OnTheLine(inp, line, Query(Some(Tpmdev), None, Id, id));
    ChardevsMatch(inp, id);
    TpmdevsMatch(inp, id);
    OnTheLine(inp, line, Query(None, None, DriveRef, id));
    OnTheLine(inp, line, Query(Some(Drive), None, Id, id));
    DrivesMatch(inp, id);
  }

  lemma BusExpected(inp: Inputs, bus: string)
    ensures Expected(inp, Query(None, None, Bus, bus)) == One(BootsISO(inp) && bus == "scsi0.0")
  {
  }

  lemma ControllerExpected(inp: Inputs)
    ensures Expected(inp, Query(Some(Device), None, Id, "scsi0")) == One(BootsISO(inp))
  {
  }

  /** The one bus that is used is the first of a controller that is declared exactly once. */
  lemma BusResolves(inp: Inputs, line: seq<string>, bus: string)
    requires Plain(inp) && line == Words(AllArgs(inp)) && Uses(line, Bus, bus) > 0
    ensures bus == "scsi0" + ".0" && Declares(line, Device, "scsi0") == 1
  {
    OnTheLine(inp, line, Query(None, None, Bus, bus));
    OnTheLine(inp, line, Query(Some(Device), None, Id, "scsi0"));
    BusExpected(inp, bus);
    ControllerExpected(inp);
  }

  /** No two devices are given the same PCI address. */
  lemma AddressesDistinct(inp: Inputs, line: seq<string>, addr: string)
    requires Plain(inp) && line == Words(AllArgs(inp))
    ensures Uses(line, Addr, addr) <= 1
  {
    OnTheLine(inp, line, Query(None, None, Addr, addr));
  }

  /** No two devices share a boot index. */
  lemma BootOrderDistinct(inp: Inputs, line: seq<string>, index: string)
    requires Plain(inp) && line == Words(AllArgs(inp))
    ensures Uses(line, BootIndex, index) <= 1
  {
    OnTheLine(inp, line, Query(None, None, BootIndex, index));
  }

  lemma BootExpected(inp: Inputs, driver: string)
    requires driver == "scsi-cd" || driver == "virtio-blk-pci"
    ensures Expected(inp, Query(Some(Device), Some(driver), BootIndex, "0")) == One((driver == "scsi-cd") == BootsISO(inp))
  {
  }

  lemma OneBoots(inp: Inputs)
    ensures Expected(inp, Query(None, None, BootIndex, "0")) == 1
  {
  }

  /** The first device to boot from is the CD exactly when an image is booted, and the disk otherwise. */
  lemma FirstBootDevice(inp: Inputs, line: seq<string>)
    requires Plain(inp) && line == Words(AllArgs(inp))
    ensures Uses(line, BootIndex, "0") == 1
    ensures Boots(line, "scsi-cd", "0") == 1 <==> BootsISO(inp)
    ensures Boots(line, "virtio-blk-pci", "0") == 1 <==> !BootsISO(inp)
  {
    OnTheLine(inp, line, Query(None, None, BootIndex, "0"));
    OnTheLine(inp, line, Query(Some(Device), Some("scsi-cd"), BootIndex, "0"));
    OnTheLine(inp, line, Query(Some(Device), Some("virtio-blk-pci"), BootIndex, "0"));
    OneBoots(inp);
    BootExpected(inp, "scsi-cd");
    BootExpected(inp, "virtio-blk-pci");
  }
}
