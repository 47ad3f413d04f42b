/** The jobs of an orchestrated cluster: what the macros of vmtest/rules.bzl put into the binary, and
    what orchestrator/main.go makes of it. */
module Jobs {
  import opened Sequences
  import opened Numbers

  datatype Job = Job(id: string, command: string)

  ghost predicate Distinct(names: seq<string>) {
    forall i, j :: 0 <= i < j < |names| ==> names[i] != names[j]
  }

  // ----- Reading the job list -----

  /** The window name of a runfile path. */
  function LastPart(path: string): string {
    Last(Split(path, '/'))
  }

  lemma LastPartIsPlain(path: string)
    ensures '/' !in LastPart(path)
    ensures '/' !in path ==> LastPart(path) == path
  {
    SplitInverts(path, '/');
    if '/' !in path {
      SplitWhole(path, '/');
    }
  }

  /** The name is what follows the last slash. */
  lemma LastPartOfPath(dir: string, name: string)
    requires '/' !in name
    ensures LastPart(dir + ['/'] + name) == name
  {
    SplitLast(dir, name, '/');
  }

  lemma {:induction false} SplitLast(a: string, b: string, sep: char)
    requires sep !in b
    ensures Last(Split(a + [sep] + b, sep)) == b
  {
    var s := a + [sep] + b;
    if a == "" {
      SplitAtSeparator("", b, sep);
      SplitWhole(b, sep);
      assert s == "" + [sep] + b;
    } else {
      assert s[1..] == a[1..] + [sep] + b;
      SplitLast(a[1..], b, sep);
      SplitsInTwo(a[1..], b, sep);
    }
  }

  lemma SplitsInTwo(a: string, b: string, sep: char)
    ensures |Split(a + [sep] + b, sep)| > 1
  {
    var s := a + [sep] + b;
    SplitInverts(s, sep);
    assert s[|a|] == sep && Split(s, sep)[0] in Split(s, sep);
    assert Join([Split(s, sep)[0]], sep) == Split(s, sep)[0];
  }

  function Trimmed(parts: seq<string>): (r: seq<string>)
    ensures |r| == |parts|
  {
    if parts == [] then [] else [TrimSpace(parts[0])] + Trimmed(parts[1..])
  }

  /** The parts that are not blank, trimmed. */
  function Kept(parts: seq<string>): seq<string> {
    NonEmpty(Trimmed(parts))
  }

  /** The paths in the dependency string. */
  function Paths(dependencies: string): seq<string> {
    Kept(Split(dependencies, ','))
  }

  function Names(paths: seq<string>): (names: seq<string>)
    ensures |names| == |paths| && forall i :: 0 <= i < |paths| ==> names[i] == LastPart(paths[i])
  {
    seq(|paths|, i requires 0 <= i < |paths| => LastPart(paths[i]))
  }

  /** The job of every path in order, None if a path does not resolve. */
  function JobsOf(paths: seq<string>, resolve: string -> Option<string>): Option<seq<Job>> {
    if paths == [] then Some([])
    else
      var front := JobsOf(Front(paths), resolve);
      var command := resolve(Last(paths));
      if front.None? || command.None? then None else Some(front.value + [Job(LastPart(Last(paths)), command.value)])
  }

  /** The path of every window name; a later path replaces an earlier one of the same name. */
  function ByName(paths: seq<string>): map<string, string> {
    if paths == [] then map[] else ByName(Front(paths))[LastPart(Last(paths)) := Last(paths)]
  }

  lemma {:induction false} KeptAppend(a: seq<string>, b: seq<string>)
    ensures Kept(a + b) == Kept(a) + Kept(b)
  {
    if a == [] {
      assert a + b == b;
    } else {
      assert (a + b)[1..] == a[1..] + b && (a + b)[0] == a[0];
      KeptAppend(a[1..], b);
      KeptFirst(a);
      KeptFirst(a + b);
      Assoc(if TrimSpace(a[0]) == "" then [] else [TrimSpace(a[0])], Kept(a[1..]), Kept(b));
    }
  }

  lemma KeptFirst(parts: seq<string>)
    requires parts != []
    ensures Kept(parts) == (if TrimSpace(parts[0]) == "" then [] else [TrimSpace(parts[0])]) + Kept(parts[1..])
  {
    assert Trimmed(parts)[1..] == Trimmed(parts[1..]);
  }

  lemma KeptStep(parts: seq<string>, i: nat)
    requires i < |parts|
    ensures Kept(parts[..i + 1]) == Kept(parts[..i]) + if TrimSpace(parts[i]) == "" then [] else [TrimSpace(parts[i])]
  {
    var one := [parts[i]];
    KeptFirst(one);
    assert one[1..] == [] && Kept([]) == [];
    KeptAppend(parts[..i], one);
    assert parts[..i + 1] == parts[..i] + one;
  }

  lemma OneMore(paths: seq<string>, path: string, resolve: string -> Option<string>)
    ensures ByName(paths + [path]) == ByName(paths)[LastPart(path) := path]
    ensures JobsOf(paths + [path], resolve)
      == if JobsOf(paths, resolve).None? || resolve(path).None? then None
         else Some(JobsOf(paths, resolve).value + [Job(LastPart(path), resolve(path).value)])
  {
    assert Front(paths + [path]) == paths && Last(paths + [path]) == path;
  }

  /** One pass of the loop over the parts. */
  lemma ReadStep(parts: seq<string>, i: nat, resolve: string -> Option<string>)
    requires i < |parts| && JobsOf(Kept(parts[..i]), resolve).Some?
    ensures var dep, before, after := TrimSpace(parts[i]), Kept(parts[..i]), Kept(parts[..i + 1]);
      (&& (dep == "" ==> after == before)
       && (dep != "" ==> ByName(after) == ByName(before)[LastPart(dep) := dep])
       && (dep != "" && resolve(dep).None? ==> JobsOf(after, resolve) == None)
       && (dep != "" && resolve(dep).Some? ==>
           JobsOf(after, resolve) == Some(JobsOf(before, resolve).value + [Job(LastPart(dep), resolve(dep).value)])))
  {
    KeptStep(parts, i);
    OneMore(Kept(parts[..i]), TrimSpace(parts[i]), resolve);
  }

  lemma FailsFrom(parts: seq<string>, i: nat, resolve: string -> Option<string>)
    requires i <= |parts| && JobsOf(Kept(parts[..i]), resolve).None?
    ensures JobsOf(Kept(parts), resolve).None?
  {
    KeptAppend(parts[..i], parts[i..]);
    PrefixFails(Kept(parts[..i]), Kept(parts[i..]), resolve);
    assert parts == parts[..i] + parts[i..];
  }

  /** The loop over the parts of the dependency string. */
  method ReadParts(parts: seq<string>, resolve: string -> Option<string>)
    returns (jobs: Option<seq<Job>>, allJobs: map<string, string>)
    ensures jobs == JobsOf(Kept(parts), resolve)
    ensures jobs.Some? ==> allJobs == ByName(Kept(parts))
  {
    jobs, allJobs := Some([]), map[];
    var i := 0;
    while i < |parts|
      invariant 0 <= i <= |parts|
      invariant jobs.Some? && jobs == JobsOf(Kept(parts[..i]), resolve) && allJobs == ByName(Kept(parts[..i]))
    {
      ReadStep(parts, i, resolve);
      var dep := TrimSpace(parts[i]);
      i := i + 1;
      if dep != "" {
        allJobs := allJobs[LastPart(dep) := dep];
        var binary := resolve(dep);
        if binary.None? {
          FailsFrom(parts, i, resolve);
          return None, allJobs;
        }
        jobs := Some(jobs.value + [Job(LastPart(dep), binary.value)]);
      }
    }
    assert parts[..i] == parts;
  }

  /** The job list of main: the dependencies, then the primary. */
  method ReadJobs(dependencies: string, primary: string, resolve: string -> Option<string>)
    returns (jobs: Option<seq<Job>>, allJobs: map<string, string>)
    ensures primary == "" ==> jobs == None
    ensures primary != "" ==> jobs == JobsOf(Paths(dependencies) + [primary], resolve)
    ensures jobs.Some? ==> allJobs == ByName(Paths(dependencies) + [primary])
  {
    if primary == "" {
      return None, map[];
    }
    jobs, allJobs := ReadParts(Split(dependencies, ','), resolve);
    OneMore(Paths(dependencies), primary, resolve);
    if jobs.None? {
      return;
    }
    allJobs := allJobs[LastPart(primary) := primary];
    var binary := resolve(primary);
    if binary.None? {
      return None, allJobs;
    }
    jobs := Some(jobs.value + [Job(LastPart(primary), binary.value)]);
  }

  lemma {:induction false} PrefixFails(a: seq<string>, b: seq<string>, resolve: string -> Option<string>)
    requires JobsOf(a, resolve).None?
    ensures JobsOf(a + b, resolve).None?
  {
    if b == [] {
      assert a + b == a;
    } else {
      assert Front(a + b) == a + Front(b);
      PrefixFails(a, Front(b), resolve);
    }
  }

  /** With distinct names, the map finds the path of every job, and nothing else. */
  lemma {:induction false} ByNameFinds(paths: seq<string>)
    requires Distinct(Names(paths))
    ensures forall i :: 0 <= i < |paths| ==> LastPart(paths[i]) in ByName(paths) && ByName(paths)[LastPart(paths[i])] == paths[i]
    ensures forall name :: name in ByName(paths) ==> name in Names(paths)
  {
    if paths != [] {
      assert forall i :: 0 <= i < |paths| - 1 ==> Names(Front(paths))[i] == Names(paths)[i];
      ByNameFinds(Front(paths));
      assert Names(paths)[|paths| - 1] == LastPart(Last(paths));
    }
  }

  // ----- The cluster macros -----

  /** `"_%s_node%d" % (name, i)`. */
  function NodeName(name: string, i: nat): string {
    "_" + name + "_node" + Decimal(i)
  }

  function Label(name: string, i: nat): string {
    ":" + NodeName(name, i)
  }

  function Labels(name: string, n: nat): (labels: seq<string>)
    ensures |labels| == n && forall i :: 0 <= i < n ==> labels[i] == Label(name, i)
  {
    seq(n, i requires 0 <= i < n => Label(name, i))
  }

  function Located(labels: seq<string>, loc: string -> string): (paths: seq<string>)
    ensures |paths| == |labels| && forall i :: 0 <= i < |labels| ==> paths[i] == loc(labels[i])
  {
    seq(|labels|, i requires 0 <= i < |labels| => loc(labels[i]))
  }

  /** The targets that come before the nodes. */
  function Servers(bgp: Option<string>): seq<string> {
    if bgp.Some? && bgp.value != "" then [bgp.value] else []
  }

  /** A server that is given comes first; an empty label is none. */
  lemma ServerFirst(bgp: Option<string>, labels: seq<string>, loc: string -> string)
    ensures bgp.None? || bgp.value == "" ==> Located(Servers(bgp) + labels, loc) == Located(labels, loc)
    ensures bgp.Some? && bgp.value != "" ==> Located(Servers(bgp) + labels, loc) == [loc(bgp.value)] + Located(labels, loc)
  {
    if Servers(bgp) == [] {
      assert [] + labels == labels;
    }
  }

  /** The dependency string and the primary of qemu_cluster_build and qemu_cluster_run, None where
      they fail. `loc` is Bazel's expansion of `$(rlocationpath ...)`. */
  method ClusterTargets(name: string, nodes: nat, bgp: Option<string>, loc: string -> string)
    returns (r: Option<(string, string)>)
    ensures r.None? <==> nodes == 0
    ensures r.Some? ==>
      r.value == (Join(Located(Servers(bgp) + Front(Labels(name, nodes)), loc), ','), loc(Last(Labels(name, nodes))))
    ensures r.Some? && (bgp.None? || bgp.value == "") ==> r.value.0 == Join(Located(Front(Labels(name, nodes)), loc), ',')
    ensures r.Some? && bgp.Some? && bgp.value != "" ==>
      r.value.0 == Join([loc(bgp.value)] + Located(Front(Labels(name, nodes)), loc), ',')
  {
    if nodes == 0 {
      return None;
    }
    var targets: seq<string> := [];
    for i := 0 to nodes
      invariant targets == Labels(name, i)
    {
      var nodeName := NodeName(name, i);
      targets := targets + [":" + nodeName];
    }
    var deps: seq<string> := [];
    if bgp.Some? && bgp.value != "" {
      deps := deps + [bgp.value];
    }
    deps := deps + targets[..nodes - 1];
    assert deps == Servers(bgp) + Front(Labels(name, nodes));
    ServerFirst(bgp, Front(Labels(name, nodes)), loc);
    return Some((Join(Located(deps, loc), ','), loc(targets[nodes - 1])));
  }

  lemma NodeNamesDistinct(name: string, i: nat, j: nat)
    requires NodeName(name, i) == NodeName(name, j)
    ensures i == j
  {
    var prefix := "_" + name + "_node";
    assert NodeName(name, i) == prefix + Decimal(i) && NodeName(name, j) == prefix + Decimal(j);
    assert Decimal(i) == (prefix + Decimal(i))[|prefix|..] && Decimal(j) == (prefix + Decimal(j))[|prefix|..];
    DecimalInjective(i, j);
  }

  lemma {:induction false} PaddedAreKept(texts: seq<string>, cores: seq<string>)
    requires |texts| == |cores| && forall i :: 0 <= i < |cores| ==> Pads(texts[i], cores[i])
    ensures Kept(texts) == NonEmpty(cores)
  {
    if texts != [] {
      TrimsToCore(texts[0], cores[0]);
      KeptFirst(texts);
      PaddedAreKept(texts[1..], cores[1..]);
    }
  }

  /** A dependency list with space around its paths, or blank entries, is read as its paths in order. */
  lemma PaddedPathsAreRead(texts: seq<string>, cores: seq<string>)
    requires |texts| == |cores| > 0 && (forall text :: text in texts ==> ',' !in text)
    requires forall i :: 0 <= i < |cores| ==> Pads(texts[i], cores[i])
    ensures Paths(Join(texts, ',')) == NonEmpty(cores)
  {
    JoinInverts(texts, ',');
    PaddedAreKept(texts, cores);
  }

  /** A path that survives in a comma-separated list. */
  predicate Listable(path: string) {
    path != "" && ',' !in path && !IsSpace(path[0]) && !IsSpace(Last(path))
  }

  lemma {:induction false} TrimmedAsIs(paths: seq<string>)
    requires forall p :: p in paths ==> Listable(p)
    ensures Kept(paths) == paths
  {
    if paths != [] {
      assert Listable(paths[0]);
      TrimNothing(paths[0]);
      TrimmedAsIs(paths[1..]);
      assert paths == [paths[0]] + paths[1..];
    }
  }

  /** Reading undoes the macro's join, also of an empty list. */
  lemma PathsInvertJoin(paths: seq<string>)
    requires forall p :: p in paths ==> Listable(p)
    ensures Paths(Join(paths, ',')) == paths
  {
    if paths == [] {
      assert Split<char>([], ',') == [[]];
      assert Trimmed([[]])[1..] == [];
    } else {
      JoinInverts(paths, ',');
      TrimmedAsIs(paths);
    }
  }

  /** The expansion of every node's label ends in its target's name. */
  ghost predicate Locates(loc: string -> string, name: string, n: nat) {
    forall i :: 0 <= i < n ==> Listable(loc(Label(name, i))) && LastPart(loc(Label(name, i))) == NodeName(name, i)
  }

  function NodeNames(name: string, n: nat): (names: seq<string>)
    ensures |names| == n && forall i :: 0 <= i < n ==> names[i] == NodeName(name, i)
  {
    seq(n, i requires 0 <= i < n => NodeName(name, i))
  }

  lemma AllNodeNamesDistinct(name: string, n: nat)
    ensures Distinct(NodeNames(name, n))
  {
    forall i: nat, j: nat | i < j < n ensures NodeNames(name, n)[i] != NodeNames(name, n)[j] {
      if NodeName(name, i) == NodeName(name, j) {
        NodeNamesDistinct(name, i, j);
      }
    }
  }

  lemma DistinctPrepend(x: string, names: seq<string>)
    ensures Distinct([x] + names) <==> x !in names && Distinct(names)
  {
    var all := [x] + names;
    assert forall i :: 0 <= i < |names| ==> all[i + 1] == names[i];
    if Distinct(all) {
      assert x == all[0];
      forall i, j | 0 <= i < j < |names| ensures names[i] != names[j] {
        assert names[i] == all[i + 1] && names[j] == all[j + 1];
      }
    }
  }

  lemma NamesAppend(a: seq<string>, b: seq<string>, loc: string -> string)
    ensures Names(Located(a + b, loc)) == Names(Located(a, loc)) + Names(Located(b, loc))
  {
    var all := Names(Located(a + b, loc));
    assert forall i :: 0 <= i < |a + b| ==> all[i] == LastPart(loc((a + b)[i]));
  }

  lemma NodesLocated(name: string, n: nat, loc: string -> string)
    requires Locates(loc, name, n)
    ensures Names(Located(Labels(name, n), loc)) == NodeNames(name, n)
  {
  }

  /** The window names of a cluster, distinct unless the server's is that of a node. */
  lemma ClusterNames(name: string, n: nat, bgp: Option<string>, loc: string -> string)
    requires Locates(loc, name, n)
    ensures Names(Located(Servers(bgp) + Labels(name, n), loc)) == Names(Located(Servers(bgp), loc)) + NodeNames(name, n)
    ensures Distinct(Names(Located(Servers(bgp), loc)) + NodeNames(name, n))
      <==> forall server :: server in Servers(bgp) ==> LastPart(loc(server)) !in NodeNames(name, n)
  {
    AllNodeNamesDistinct(name, n);
    NodesLocated(name, n, loc);
    NamesAppend(Servers(bgp), Labels(name, n), loc);
    var servers := Names(Located(Servers(bgp), loc));
    if Servers(bgp) == [] {
      assert servers + NodeNames(name, n) == NodeNames(name, n);
    } else {
      assert servers == [LastPart(loc(bgp.value))];
      DistinctPrepend(servers[0], NodeNames(name, n));
    }
  }

  lemma AllListable(name: string, n: nat, bgp: Option<string>, loc: string -> string)
    requires n > 0 && Locates(loc, name, n) && forall server :: server in Servers(bgp) ==> Listable(loc(server))
    ensures forall p :: p in Located(Servers(bgp) + Front(Labels(name, n)), loc) ==> Listable(p)
  {
    var labels := Servers(bgp) + Front(Labels(name, n));
    forall i | 0 <= i < |labels| ensures Listable(loc(labels[i])) {
      if i >= |Servers(bgp)| {
        assert labels[i] == Label(name, i - |Servers(bgp)|);
      }
    }
  }

  lemma LastApart<T>(a: seq<T>, b: seq<T>)
    requires b != []
    ensures a + b == a + Front(b) + [Last(b)]
  {
  }

  lemma LocatedAppend(labels: seq<string>, target: string, loc: string -> string)
    ensures Located(labels + [target], loc) == Located(labels, loc) + [loc(target)]
  {
  }

  /** Every cluster: the orchestrator reads one job per target from what the macro wrote, in order and
      with the BGP server first. */
  lemma ClusterJobs(name: string, n: nat, bgp: Option<string>, loc: string -> string)
    requires n > 0 && Locates(loc, name, n)
    requires forall server :: server in Servers(bgp) ==> Listable(loc(server))
    ensures Paths(Join(Located(Servers(bgp) + Front(Labels(name, n)), loc), ',')) + [loc(Last(Labels(name, n)))]
      == Located(Servers(bgp) + Labels(name, n), loc)
  {
    var deps, primary := Servers(bgp) + Front(Labels(name, n)), Last(Labels(name, n));
    AllListable(name, n, bgp, loc);
    PathsInvertJoin(Located(deps, loc));
    LastApart(Servers(bgp), Labels(name, n));
    LocatedAppend(deps, primary, loc);
  }
}
