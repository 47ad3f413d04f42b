/** `buildQEMUArgs` of runner/qemu.go, and how QEMU reads the arguments back. */
module QemuArgs {
  import opened Sequences
  import opened Numbers

  datatype Flag =
    | Name | Machine | Cpu | Memory | Smp | Device | Netdev | Chardev | Tpmdev | Global | Drive | Serial | Display | Nographic

  function FlagText(f: Flag): string {
    match f
    case Name => "-name"
    case Machine => "-machine"
    case Cpu => "-cpu"
    case Memory => "-m"
    case Smp => "-smp"
    case Device => "-device"
    case Netdev => "-netdev"
    case Chardev => "-chardev"
    case Tpmdev => "-tpmdev"
    case Global => "-global"
    case Drive => "-drive"
    case Serial => "-serial"
    case Display => "-display"
    case Nographic => "-nographic"
  }

  function FlagOf(text: string): Option<Flag> {
    match text
    case "-name" => Some(Name)
    case "-machine" => Some(Machine)
    case "-cpu" => Some(Cpu)
    case "-m" => Some(Memory)
    case "-smp" => Some(Smp)
    case "-device" => Some(Device)
    case "-netdev" => Some(Netdev)
    case "-chardev" => Some(Chardev)
    case "-tpmdev" => Some(Tpmdev)
    case "-global" => Some(Global)
    case "-drive" => Some(Drive)
    case "-serial" => Some(Serial)
    case "-display" => Some(Display)
    case "-nographic" => Some(Nographic)
    case _ => None
  }

  /** The properties that declare or refer to something, or order devices; and all others. */
  datatype Key = Id | NetdevRef | ChardevRef | TpmdevRef | DriveRef | Bus | Addr | BootIndex | Other(name: string)

  function KeyText(k: Key): string {
    match k
    case Id => "id"
    case NetdevRef => "netdev"
    case ChardevRef => "chardev"
    case TpmdevRef => "tpmdev"
    case DriveRef => "drive"
    case Bus => "bus"
    case Addr => "addr"
    case BootIndex => "bootindex"
    case Other(name) => name
  }

  function KeyOf(text: string): Key {
    match text
    case "id" => Id
    case "netdev" => NetdevRef
    case "chardev" => ChardevRef
    case "tpmdev" => TpmdevRef
    case "drive" => DriveRef
    case "bus" => Bus
    case "addr" => Addr
    case "bootindex" => BootIndex
    case _ => Other(text)
  }

  /** One part of a comma-separated argument. */
  datatype Item = Bare(text: string) | Pair(key: Key, value: string)

  datatype Arg = Text(flag: Flag, text: string) | Switch | Props(flag: Flag, items: seq<Item>)

  predicate TakesProps(f: Flag) {
    f.Device? || f.Netdev? || f.Chardev? || f.Tpmdev? || f.Drive?
  }

  // ----- Rendering -----

  function ItemText(item: Item): string {
    if item.Bare? then item.text else KeyText(item.key) + ['='] + item.value
  }

  function ItemTexts(items: seq<Item>): (texts: seq<string>)
    ensures |texts| == |items|
  {
    if items == [] then [] else [ItemText(items[0])] + ItemTexts(items[1..])
  }

  function ArgWords(arg: Arg): seq<string> {
    match arg
    case Text(flag, text) => [FlagText(flag), text]
    case Switch => [FlagText(Nographic)]
    case Props(flag, items) => [FlagText(flag), Join(ItemTexts(items), ',')]
  }

  /** The command line of a list of arguments. */
  function Words(args: seq<Arg>): seq<string> {
    if args == [] then [] else ArgWords(args[0]) + Words(args[1..])
  }

  // ----- Reading -----

  function ReadItem(text: string): Item {
    var parts := Split(text, '=');
    if |parts| == 1 then Bare(text) else Pair(KeyOf(parts[0]), Join(parts[1..], '='))
  }

  function ReadItems(texts: seq<string>): (items: seq<Item>)
    ensures |items| == |texts|
  {
    if texts == [] then [] else [ReadItem(texts[0])] + ReadItems(texts[1..])
  }

  function ReadProps(text: string): seq<Item> {
    ReadItems(Split(text, ','))
  }

  /** QEMU's reading of its command line, None where it is not one of these arguments. */
  function Read(words: seq<string>): Option<seq<Arg>> {
    if words == [] then Some([])
    else
      var flag := FlagOf(words[0]);
      if flag.None? then None
      else if flag.value.Nographic? then Prepend(Switch, Read(words[1..]))
      else if |words| == 1 then None
      else if TakesProps(flag.value) then Prepend(Props(flag.value, ReadProps(words[1])), Read(words[2..]))
      else Prepend(Text(flag.value, words[1]), Read(words[2..]))
  }

  function Prepend(arg: Arg, rest: Option<seq<Arg>>): Option<seq<Arg>> {
    if rest.None? then None else Some([arg] + rest.value)
  }

  // ----- Reading undoes rendering -----

  predicate ItemOk(item: Item) {
    && (item.Bare? ==> '=' !in item.text)
    && (item.Pair? ==> KeyOf(KeyText(item.key)) == item.key && '=' !in KeyText(item.key))
  }

  ghost predicate ArgOk(arg: Arg) {
    && (arg.Text? ==> !TakesProps(arg.flag) && !arg.flag.Nographic?)
    && (arg.Props? ==> TakesProps(arg.flag) && arg.items != [] && forall item :: item in arg.items ==> ItemOk(item))
  }

  ghost predicate CommaFree(arg: Arg) {
    arg.Props? ==> forall item :: item in arg.items ==> ',' !in ItemText(item)
  }

  lemma ReadItemInverts(item: Item)
    requires ItemOk(item)
    ensures ReadItem(ItemText(item)) == item
  {
    if item.Bare? {
      SplitWhole(item.text, '=');
    } else {
      SplitAtSeparator(KeyText(item.key), item.value, '=');
      SplitInverts(item.value, '=');
    }
  }

  lemma {:induction false} ReadItemsInvert(items: seq<Item>)
    requires forall item :: item in items ==> ItemOk(item)
    ensures ReadItems(ItemTexts(items)) == items
  {
    if items != [] {
      ReadItemInverts(items[0]);
      ReadItemsInvert(items[1..]);
      assert items == [items[0]] + items[1..];
    }
  }

  lemma {:induction false} TextsOf(items: seq<Item>)
    ensures (forall t :: t in ItemTexts(items) ==> ',' !in t) <==> (forall item :: item in items ==> ',' !in ItemText(item))
  {
    if items != [] {
      TextsOf(items[1..]);
      assert items == [items[0]] + items[1..];
    }
  }

  lemma {:induction false} SplitLonger<T>(a: seq<T>, b: seq<T>, sep: T)
    ensures |Split(a + b, sep)| == |Split(a, sep)| + |Split(b, sep)| - 1
  {
    if a == [] {
      assert a + b == b;
    } else {
      assert (a + b)[1..] == a[1..] + b;
      SplitLonger(a[1..], b, sep);
    }
  }

  lemma {:induction false} OnePiece<T>(s: seq<T>, sep: T)
    ensures |Split(s, sep)| == 1 <==> sep !in s
  {
    if s != [] {
      OnePiece(s[1..], sep);
    }
  }

  lemma {:induction false} MorePieces<T>(parts: seq<seq<T>>, sep: T)
    requires parts != []
    ensures |Split(Join(parts, sep), sep)| >= |parts|
    ensures |Split(Join(parts, sep), sep)| == |parts| ==> forall p :: p in parts ==> sep !in p
  {
    OnePiece(parts[0], sep);
    if |parts| > 1 {
      var rest := Join(parts[1..], sep);
      MorePieces(parts[1..], sep);
      SplitLonger(parts[0] + [sep], rest, sep);
      SplitLonger(parts[0], [sep], sep);
      assert [sep][1..] == [] && |Split([sep], sep)| == 2;
      assert parts == [parts[0]] + parts[1..];
    }
  }

  /** An argument's properties are read as they were meant exactly if none of them holds a comma. */
  lemma PropsReadIff(items: seq<Item>)
    requires items != [] && forall item :: item in items ==> ItemOk(item)
    ensures ReadProps(Join(ItemTexts(items), ',')) == items <==> forall item :: item in items ==> ',' !in ItemText(item)
  {
    TextsOf(items);
    if forall t :: t in ItemTexts(items) ==> ',' !in t {
      JoinInverts(ItemTexts(items), ',');
      ReadItemsInvert(items);
    } else {
      MorePieces(ItemTexts(items), ',');
    }
  }

  lemma FlagInverts(f: Flag)
    ensures FlagOf(FlagText(f)) == Some(f)
  {
  }

  /** Every command line of such arguments is read as it was meant exactly if no property holds a comma. */
  lemma {:induction false} ReadInvertsWordsIff(args: seq<Arg>)
    requires forall arg :: arg in args ==> ArgOk(arg)
    ensures Read(Words(args)) == Some(args) <==> forall arg :: arg in args ==> CommaFree(arg)
  {
    if args != [] {
      ReadInvertsWordsIff(args[1..]);
      ReadOne(args[0], Words(args[1..]));
      assert args == [args[0]] + args[1..];
    }
  }

  /** The argument that one argument's words are read as. */
  function Reread(arg: Arg): Arg {
    if arg.Props? then Props(arg.flag, ReadProps(Join(ItemTexts(arg.items), ','))) else arg
  }

  lemma ReadOne(arg: Arg, rest: seq<string>)
    requires ArgOk(arg)
    ensures Read(ArgWords(arg) + rest) == Prepend(Reread(arg), Read(rest))
    ensures Reread(arg) == arg <==> CommaFree(arg)
  {
    var words := ArgWords(arg) + rest;
    match arg
    case Switch =>
      FlagInverts(Nographic);
      assert words[1..] == rest;
    case Text(flag, text) =>
      FlagInverts(flag);
      assert words[2..] == rest;
    case Props(flag, items) =>
      FlagInverts(flag);
      PropsReadIff(items);
      assert words[2..] == rest;
  }

  // ----- The arguments of a virtual machine -----

  /** The configuration and the paths that the arguments are made of. Empty strings and a zero are not
      set. `hostMachine` is the machine type of the host's system and architecture. */
  datatype Inputs = Inputs(
    serverName: string, machineType: string, hostMachine: string, memory: string, cpus: int, mac: string,
    code: string, vars: string, disk: string, iso: string, bootFromISO: bool, socket: string,
    tap: string, secondTap: string, direct: bool)

  function P(key: Key, value: string): Item {
    Pair(key, value)
  }

  function O(name: string, value: string): Item {
    Pair(Other(name), value)
  }

  function BaseArgs(inp: Inputs): seq<Arg> {
    var machine := if inp.machineType == "" then inp.hostMachine else inp.machineType;
    [ Text(Name, inp.serverName), Text(Machine, machine),
      Text(Cpu, if Contains(machine, "accel=tcg") then "max" else "host"),
      Text(Memory, if inp.memory == "" then "6G" else inp.memory),
      Text(Smp, Decimal(if inp.cpus == 0 then 2 else inp.cpus)),
      Props(Device, [Bare("virtio-rng-pci")]) ]
  }

  function TapItems(id: string, tap: string): seq<Item> {
    [Bare("tap"), P(Id, id), O("ifname", tap), O("script", "no"), O("downscript", "no")]
  }

  function NetArgs(inp: Inputs): seq<Arg> {
    [ Props(Netdev, TapItems("net0", inp.tap)),
      Props(Device, [Bare("virtio-net-pci"), P(NetdevRef, "net0")] + if inp.mac != "" then [O("mac", inp.mac)] else []) ]
  }

  function SecondNetArgs(inp: Inputs): seq<Arg> {
    if inp.secondTap == "" then []
    else
      [ Props(Netdev, TapItems("net1", inp.secondTap)),
        Props(Device, [Bare("virtio-net-pci"), P(NetdevRef, "net1"), P(Addr, "0x6")]) ]
  }

  function TpmArgs(inp: Inputs): seq<Arg> {
    [ Props(Chardev, [Bare("socket"), P(Id, "char0"), O("path", inp.socket)]),
      Props(Tpmdev, [Bare("emulator"), P(Id, "tpm0"), P(ChardevRef, "char0")]),
      Props(Device, [Bare("tpm-tis"), P(TpmdevRef, "tpm0")]) ]
  }

  function FirmwareArgs(inp: Inputs): seq<Arg> {
    [ Text(Global, "driver=cfi.pflash01,property=secure,value=on"),
      Props(Drive, [O("if", "pflash"), O("format", "raw"), O("unit", "0"), O("file", inp.code), O("readonly", "on")]),
      Props(Drive, [O("if", "pflash"), O("format", "raw"), O("unit", "1"), O("file", inp.vars)]) ]
  }

  predicate BootsISO(inp: Inputs) {
    inp.bootFromISO && inp.iso != ""
  }

  function CdArgs(inp: Inputs): seq<Arg> {
    if !BootsISO(inp) then []
    else
      [ Props(Device, [Bare("virtio-scsi-pci"), P(Id, "scsi0"), P(Addr, "0x4")]),
        Props(Drive, [O("file", inp.iso), O("format", "raw"), O("cache", "none"), O("media", "cdrom"), O("if", "none"), P(Id, "cd0")]),
        Props(Device, [Bare("scsi-cd"), P(Bus, "scsi0.0"), P(DriveRef, "cd0"), P(BootIndex, "0")]) ]
  }

  function DiskArgs(inp: Inputs): seq<Arg> {
    [ Props(Drive, [O("file", inp.disk), O("format", "raw"), O("if", "none"), P(Id, "disk")]),
      Props(Device, [Bare("virtio-blk-pci"), P(DriveRef, "disk"), P(Addr, "0x5"),
                     P(BootIndex, if BootsISO(inp) then "1" else "0")]) ]
  }

  function ConsoleArgs(inp: Inputs): seq<Arg> {
    if inp.direct then [Switch] else [Text(Serial, "stdio"), Text(Display, "none")]
  }

  function AllArgs(inp: Inputs): seq<Arg> {
    BaseArgs(inp) + (NetArgs(inp) + (SecondNetArgs(inp) + (TpmArgs(inp) + (FirmwareArgs(inp)
      + (CdArgs(inp) + (DiskArgs(inp) + ConsoleArgs(inp)))))))
  }
}
