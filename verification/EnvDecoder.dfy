/** buildVMOptsFromEnv of machine/machine.go, which appends option after option. */
module EnvDecoder {
  import opened Sequences
  import opened Numbers
  import opened VMOptions
  import opened EnvConfig

  method CollectTools(env: Env) returns (opts: seq<VMOption>)
    ensures opts == FromEnvTools(env)
  {
    opts := [];
    opts := Append(opts, Get(env, Qemu) != "", WithQemuBinary(Get(env, Qemu)));
    opts := Append(opts, Get(env, QemuImg) != "", WithQemuImg(Get(env, QemuImg)));
    opts := Append(opts, Get(env, MachineType) != "", WithMachineType(Get(env, MachineType)));
    opts := Append(opts, Get(env, Accel) != "", WithAccel(Get(env, Accel)));
  }

  method CollectBoot(env: Env) returns (opts: seq<VMOption>)
    ensures opts == FromEnvBoot(env)
  {
    opts := [];
    opts := Append(opts, Get(env, Kernel) != "", WithKernelBoot(Get(env, Kernel), Get(env, Initrd), Get(env, Cmdline)));
    var code, vars := Get(env, OvmfCode), Get(env, OvmfVars);
    opts := Append(opts, code != "" && vars != "", WithUEFI(code, vars));
  }

  method CollectDisks(env: Env) returns (opts: seq<VMOption>)
    ensures opts == FromEnvDisks(env)
  {
    opts := [];
    opts := Append(opts, Get(env, Iso) != "", WithISO(Get(env, Iso)));
    opts := Append(opts, Get(env, Disk) != "", WithExistingDisk(Get(env, Disk)));
    opts := Append(opts, Get(env, DiskSize) != "", WithDisk(Get(env, DiskSize)));
    opts := Append(opts, Get(env, Memory) != "", WithMemory(Get(env, Memory)));
  }

  method CollectTail(env: Env) returns (opts: seq<VMOption>)
    ensures opts == FromEnvTail(env)
  {
    var swtpm, setup := Get(env, Swtpm), Get(env, SwtpmSetup);
    opts := Append([], Get(env, Tpm) == "true" && swtpm != "" && setup != "", WithTPM(swtpm, setup));
    var mode := ToLower(Get(env, Network));
    if mode == "none" {
      opts := opts + [WithNoNetwork];
    } else if mode != "bridge" {
      opts := opts + [WithUserNet];
    }
  }

  lemma ParseFails(items: seq<string>, i: nat)
    requires i < |items| && Atoi(TrimSpace(items[i])).None?
    ensures ParseItems(items).None?
  {
    if i > 0 {
      ParseFails(items[1..], i - 1);
    }
  }

  lemma {:induction false} ParseItemsAppend(items: seq<string>, item: string)
    ensures ParseItems(items + [item])
      == if ParseItems(items).None? || Atoi(TrimSpace(item)).None? then None
         else Some(ParseItems(items).value + [Atoi(TrimSpace(item)).value])
  {
    if items == [] {
      assert items + [item] == [item] && [item][1..] == [] && ParseItems([]) == Some([]);
      var n := Atoi(TrimSpace(item));
      if n.Some? {
        assert [n.value] + [] == [] + [n.value];
      }
    } else {
      assert (items + [item])[1..] == items[1..] + [item] && (items + [item])[0] == items[0];
      ParseItemsAppend(items[1..], item);
      var first, rest := Atoi(TrimSpace(items[0])), ParseItems(items[1..]);
      if first.Some? && rest.Some? && Atoi(TrimSpace(item)).Some? {
        Assoc([first.value], rest.value, [Atoi(TrimSpace(item)).value]);
      }
    }
  }

  /** The loop over the port forwards; None is the fatal failure at the first malformed port. */
  method CollectForwards(items: seq<string>) returns (opts: Option<seq<VMOption>>)
    ensures opts == if ParseItems(items).None? then None else Some(Forwards(ParseItems(items).value))
  {
    var forwards: seq<VMOption> := [];
    for i := 0 to |items|
      invariant ParseItems(items[..i]).Some? && forwards == Forwards(ParseItems(items[..i]).value)
    {
      var port := Atoi(TrimSpace(items[i]));
      if port.None? {
        ParseFails(items, i);
        return None;
      }
      ParseItemsAppend(items[..i], items[i]);
      assert items[..i + 1] == items[..i] + [items[i]];
      forwards := forwards + [WithPortForward(port.value)];
    }
    assert items[..|items|] == items;
    return Some(forwards);
  }

  method BuildVMOptsFromEnv(env: Env) returns (opts: Option<seq<VMOption>>)
    ensures opts == FromEnv(env)
  {
    var tools := CollectTools(env);
    var boot := CollectBoot(env);
    var disks := CollectDisks(env);
    var cpus: seq<VMOption> := [];
    if Get(env, Cpus) != "" {
      var n := Atoi(Get(env, Cpus));
      if n.None? {
        return None;
      }
      cpus := [WithCPUs(n.value)];
    }
    var tail := CollectTail(env);
    var forwards: seq<VMOption> := [];
    if Get(env, PortForwards) != "" {
      var collected := CollectForwards(Split(Get(env, PortForwards), ','));
      if collected.None? {
        return None;
      }
      forwards := collected.value;
    }
    return Some(tools + boot + disks + cpus + tail + forwards);
  }
}
