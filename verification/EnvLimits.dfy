/** What the two environment encodings lose: each assigns its bindings exactly when every value
    survives its quoting, whatever other lines an unsafe value may swallow or make. */
module EnvLimits {
  import opened Sequences
  import opened Shell
  import opened EnvConfig
  import opened EnvPrograms

  // ----- Reading a word conserves weight -----

  predicate Weightless(c: char) {
    IsQuoting(c) || c == '\n'
  }

  /** The characters other than quoting and line breaks, which are all that reading can remove. */
  function Weight(s: string): nat {
    if s == "" then 0 else (if Weightless(s[0]) then 0 else 1) + Weight(s[1..])
  }

  lemma {:induction false} WeightAppend(x: string, y: string)
    ensures Weight(x + y) == Weight(x) + Weight(y)
  {
    if x == "" {
      assert x + y == y;
    } else {
      assert (x + y)[0] == x[0] && (x + y)[1..] == x[1..] + y;
      WeightAppend(x[1..], y);
    }
  }

  lemma WeightOne(c: char)
    ensures Weight([c]) == if Weightless(c) then 0 else 1
  {
    assert [c][1..] == "";
  }

  lemma StepConserves(s: string, mode: Mode, acc: string)
    requires Step(s, mode, acc).Go?
    ensures var m := Step(s, mode, acc); Weight(acc) + Weight(s) == Weight(m.word) + Weight(s[m.n..])
  {
    var m := Step(s, mode, acc);
    WeightOne(s[0]);
    WeightAppend(acc, [s[0]]);
    if m.n == 2 {
      assert s[1..][1..] == s[2..] && s[1..][0] == s[1];
      WeightOne(s[1]);
      WeightAppend(acc, [s[1]]);
    }
  }

  lemma {:induction false} WordConserves(s: string, mode: Mode, acc: string)
    ensures var w := Word(s, mode, acc); w.Some? ==> Weight(acc) + Weight(s) == Weight(w.value.0) + Weight(w.value.1)
    decreases |s|
  {
    var m := Step(s, mode, acc);
    if m.Go? {
      StepConserves(s, mode, acc);
      WordConserves(s[m.n..], m.mode, m.word);
    }
  }

  /** What a list of assignments weighs as export commands. */
  function LogWeight(ps: seq<(string, string)>): nat {
    if ps == [] then 0 else PairWeight(ps[0]) + LogWeight(ps[1..])
  }

  function PairWeight(p: (string, string)): (w: nat)
    ensures w > 0
  {
    Weight(EXPORT) + Weight(p.0) + 1 + Weight(p.1)
  }

  lemma {:induction false} CutJoins(s: string)
    ensures var r := CutAssignment(s); r.Some? ==> s == r.value.0 + "=" + r.value.1
  {
    if s != "" && s[0] != '=' {
      CutJoins(s[1..]);
    }
  }

  lemma AssignmentWeight(name: string, value: string)
    ensures Weight(EXPORT + (name + "=" + value)) == PairWeight((name, value))
  {
    WeightAppend(EXPORT, name + "=" + value);
    WeightAppend(name + "=", value);
    WeightAppend(name, "=");
    WeightOne('=');
  }

  lemma ExportedStart(s: string)
    requires s != "" && Exported(s).Some?
    ensures EXPORT <= s
    ensures var w := Word(s[|EXPORT|..], Unquoted, "");
      w.Some? && Exported(s).value != [] && CutAssignment(w.value.0) == Some(Exported(s).value[0])
  {
  }

  lemma CommandWeight(t: string)
    requires Word(t, Unquoted, "").Some? && CutAssignment(Word(t, Unquoted, "").value.0).Some?
    ensures var w := Word(t, Unquoted, "").value;
      Weight(EXPORT + t) == PairWeight(CutAssignment(w.0).value) + Weight(w.1)
  {
    var w := Word(t, Unquoted, "").value;
    var p := CutAssignment(w.0).value;
    WordConserves(t, Unquoted, "");
    CutJoins(w.0);
    AssignmentWeight(p.0, p.1);
    WeightAppend(EXPORT, t);
    WeightAppend(EXPORT, w.0);
  }

  /** A script weighs as much as the assignments that it makes, however they are cut from it. */
  lemma {:induction false} ExportedConserves(s: string)
    ensures var log := Exported(s); log.Some? ==> LogWeight(log.value) == Weight(s)
    decreases |s|
  {
    if Exported(s).Some? && s != "" {
      ExportedStart(s);
      var t := s[|EXPORT|..];
      var w := Word(t, Unquoted, "").value;
      WordConsumes(t, Unquoted, "");
      CommandWeight(t);
      assert EXPORT + t == s;
      ExportedConserves(if w.1 == "" then "" else w.1[1..]);
    }
  }

  lemma LineWeight(b: Binding)
    ensures Weight(ExportLine(VarName(b.key), Plain(b.source))) == PairWeight(Pair(b))
  {
    var name, v := VarName(b.key), Plain(b.source);
    WeightAppend(EXPORT, Assignment(name, v));
    WeightAppend(name + "=\"" + v, "\"");
    WeightAppend(name + "=\"", v);
    WeightAppend(name, "=\"");
    assert "=\""[1..] == "\"";
    WeightOne('"');
  }

  /** The generated script weighs what its bindings do, safe or not. */
  lemma {:induction false} ScriptWeight(bs: seq<Binding>)
    ensures Weight(ExportScript(bs)) == LogWeight(Pairs(bs))
  {
    if bs != [] {
      ExportScriptStep(bs);
      LineWeight(bs[0]);
      WeightAppend(ExportLine(VarName(bs[0].key), Plain(bs[0].source)), RestScript(bs[1..]));
      WeightAppend("\n", ExportScript(bs[1..]));
      WeightOne('\n');
      ScriptWeight(bs[1..]);
      PairsStep(bs);
      assert Pairs(bs)[1..] == Pairs(bs[1..]);
    }
  }

  // ----- The first line of a script -----

  /** A word that leaves double quotes has taken a quote that it does not hold. */
  lemma {:induction false} WordIsNoLonger(s: string, mode: Mode, acc: string)
    ensures var w := Word(s, mode, acc); w.Some? ==> |w.value.0| + |w.value.1| + (if mode.Double? then 1 else 0) <= |acc| + |s|
    decreases |s|
  {
    var m := Step(s, mode, acc);
    if m.Go? {
      WordIsNoLonger(s[m.n..], m.mode, m.word);
    }
  }

  lemma SuffixIsLighter(s: string, n: nat)
    requires n <= |s|
    ensures Weight(s[n..]) <= Weight(s)
    ensures n > 0 && !Weightless(s[0]) ==> Weight(s[n..]) < Weight(s)
  {
    assert s[..n] + s[n..] == s;
    WeightAppend(s[..n], s[n..]);
  }

  /** A word cannot stop within the next line without taking part of its weight. */
  lemma StopsAtTheLine(bs: seq<Binding>, n: nat)
    requires n <= |RestScript(bs)|
    requires var after := RestScript(bs)[n..]; (after == "" || EndsWord(after[0])) && Weight(after) == Weight(RestScript(bs))
    ensures n == 0
  {
    if bs != [] && n > 0 {
      var script := ExportScript(bs);
      ExportScriptStep(bs);
      assert script[0] == 'e';
      assert RestScript(bs)[n..] == script[n - 1..];
      WeightAppend("\n", script);
      WeightOne('\n');
      SuffixIsLighter(script, n - 1);
    }
  }

  /** If the first command of the script assigns the first value, this value is safe. */
  lemma FirstWordSafe(b: Binding, bs: seq<Binding>, after: string)
    requires var v := Plain(b.source); var acc := VarName(b.key) + "=";
      Word(v + "\"" + RestScript(bs), Double, acc) == Some((acc + v, after))
    ensures DoubleSafe(Plain(b.source))
  {
    var v, acc, rest := Plain(b.source), VarName(b.key) + "=", RestScript(bs);
    var s := v + "\"" + rest;
    WordConsumes(s, Double, acc);
    WordIsNoLonger(s, Double, acc);
    WordConserves(s, Double, acc);
    WeightAppend(acc, v);
    WeightAppend(v + "\"", rest);
    WeightAppend(v, "\"");
    WeightOne('"');
    assert after == rest[|rest| - |after|..];
    StopsAtTheLine(bs, |rest| - |after|);
    if !DoubleSafe(v) {
      UnsafeInsideDouble(v, rest, acc);
    }
  }

  /** Behind the first name and its opening quote. */
  lemma ScriptOpens(bs: seq<Binding>)
    requires bs != []
    ensures var t := Plain(bs[0].source) + "\"" + RestScript(bs[1..]);
      var s := ExportScript(bs); EXPORT <= s && Word(s[|EXPORT|..], Unquoted, "") == Word(t, Double, VarName(bs[0].key) + "=")
  {
    var name, t := VarName(bs[0].key), Plain(bs[0].source) + "\"" + RestScript(bs[1..]);
    VarNameIsName(bs[0].key);
    ExportScriptStep(bs);
    LineText(name, Plain(bs[0].source), RestScript(bs[1..]));
    AssignmentOpens(name, t);
  }

  lemma LineText(name: string, value: string, rest: string)
    ensures var s := ExportLine(name, value) + rest;
      EXPORT <= s && s[|EXPORT|..] == name + "=\"" + (value + "\"" + rest)
  {
    Assoc(EXPORT, Assignment(name, value), rest);
    Assoc(name + "=\"" + value, "\"", rest);
    Assoc(name + "=\"", value, "\"" + rest);
    Assoc(value, "\"", rest);
    assert (EXPORT + (Assignment(name, value) + rest))[|EXPORT|..] == Assignment(name, value) + rest;
  }

  lemma WordStarts(t: string, name: string)
    requires '=' !in name && Word(t, Double, name + "=").Some?
    ensures var w := Word(t, Double, name + "=").value; |name| < |w.0| && w.0 == name + "=" + w.0[|name| + 1..]
    ensures var w := Word(t, Double, name + "=").value; CutAssignment(w.0) == Some((name, w.0[|name| + 1..]))
  {
    WordExtends(t, Double, name + "=");
    var w := Word(t, Double, name + "=").value;
    assert w.0 == name + "=" + w.0[|name| + 1..];
    CutsAtName(name, w.0[|name| + 1..]);
  }

  /** Every run of the script starts by assigning some value to the first name. */
  lemma FirstAssignment(bs: seq<Binding>)
    requires bs != [] && Exported(ExportScript(bs)).Some?
    ensures var log := Exported(ExportScript(bs)).value;
      log != [] && log[0].0 == VarName(bs[0].key) && (log[0].1 == Plain(bs[0].source) ==> DoubleSafe(Plain(bs[0].source)))
  {
    var name, v := VarName(bs[0].key), Plain(bs[0].source);
    var t := v + "\"" + RestScript(bs[1..]);
    VarNameIsName(bs[0].key);
    ScriptOpens(bs);
    ScriptIsNotEmpty(bs);
    ExportedStart(ExportScript(bs));
    WordStarts(t, name);
    var w := Word(t, Double, name + "=").value;
    if w.0[|name| + 1..] == v {
      FirstWordSafe(bs[0], bs[1..], w.1);
    }
  }

  lemma ScriptIsNotEmpty(bs: seq<Binding>)
    requires bs != []
    ensures ExportScript(bs) != ""
  {
    ExportScriptStep(bs);
  }

  lemma PrependIs<T>(x: T, more: Option<seq<T>>, y: T, l: seq<T>)
    ensures Prepend(x, more) == Some([y] + l) <==> x == y && more == Some(l)
  {
    if more.Some? && [x] + more.value == [y] + l {
      assert ([x] + more.value)[0] == x && ([x] + more.value)[1..] == more.value;
    }
  }

  lemma SafeStep(bs: seq<Binding>)
    requires bs != []
    ensures DoubleSafeAll(bs) <==> DoubleSafe(Plain(bs[0].source)) && DoubleSafeAll(bs[1..])
  {
    assert forall b :: b in bs <==> b == bs[0] || b in bs[1..];
  }

  /** The script makes exactly its assignments, one after the other, if and only if double quotes
      protect every value. */
  lemma {:induction false} ExportsDecodeIff(bs: seq<Binding>)
    ensures Exported(ExportScript(bs)) == Some(Pairs(bs)) <==> DoubleSafeAll(bs)
  {
    if bs != [] {
      PairsStep(bs);
      SafeStep(bs);
      ExportsDecodeIff(bs[1..]);
      if DoubleSafe(Plain(bs[0].source)) {
        FirstExport(bs);
        PrependIs(Pair(bs[0]), Exported(ExportScript(bs[1..])), Pair(bs[0]), Pairs(bs[1..]));
      } else if Exported(ExportScript(bs)).Some? {
        FirstAssignment(bs);
      }
    }
  }

  // ----- The environment afterwards -----

  predicate Distinct<T(==)>(s: seq<T>) {
    forall i, j :: 0 <= i < j < |s| ==> s[i] != s[j]
  }

  lemma {:induction false} LogWeightAppend(x: seq<(string, string)>, y: seq<(string, string)>)
    ensures LogWeight(x + y) == LogWeight(x) + LogWeight(y)
  {
    if x == [] {
      assert x + y == y;
    } else {
      assert (x + y)[1..] == x[1..] + y;
      LogWeightAppend(x[1..], y);
    }
  }

  /** Different assignments that all occur weigh no more than the whole. */
  lemma {:induction false} DistinctFit(ps: seq<(string, string)>, log: seq<(string, string)>)
    requires Distinct(ps) && forall p :: p in ps ==> p in log
    ensures LogWeight(ps) <= LogWeight(log)
    decreases |ps|
  {
    if ps != [] {
      assert ps[0] in ps;
      var i :| 0 <= i < |log| && log[i] == ps[0];
      var others := log[..i] + log[i + 1..];
      assert log == log[..i] + ([log[i]] + log[i + 1..]);
      LogWeightAppend(log[..i], [log[i]] + log[i + 1..]);
      LogWeightAppend(log[..i], log[i + 1..]);
      assert ([log[i]] + log[i + 1..])[1..] == log[i + 1..];
      forall p | p in ps[1..] ensures p in others {
        assert p in ps && p != ps[0];
        assert p in log[..i] + [log[i]] + log[i + 1..];
      }
      DistinctFit(ps[1..], others);
    }
  }

  /** A variable that was unset has its value from an assignment. */
  lemma {:induction false} ValuesAreAssigned(ps: seq<(string, string)>, env: Env, name: string)
    requires name in Assign(env, ps)
    ensures (name, Assign(env, ps)[name]) in ps || (name in env && Assign(env, ps)[name] == env[name])
    decreases |ps|
  {
    if ps != [] {
      ValuesAreAssigned(ps[1..], env[ps[0].0 := ps[0].1], name);
    }
  }

  predicate DistinctKeys(bs: seq<Binding>) {
    forall i, j :: 0 <= i < j < |bs| ==> bs[i].key != bs[j].key
  }

  predicate NoneSet(bs: seq<Binding>, env: Env) {
    forall b :: b in bs ==> VarName(b.key) !in env
  }

  lemma {:induction false} OthersKeep(bs: seq<Binding>, env: Env, name: string, resolve: string -> string)
    requires forall b :: b in bs ==> VarName(b.key) != name
    ensures var all := AssignAll(env, bs, resolve); (name in all <==> name in env) && (name in env ==> all[name] == env[name])
    decreases |bs|
  {
    if bs != [] {
      assert bs[0] in bs && forall b :: b in bs[1..] ==> b in bs;
      OthersKeep(bs[1..], env[VarName(bs[0].key) := ValueOf(bs[0].source, resolve)], name, resolve);
    }
  }

  lemma {:induction false} BindingsHold(bs: seq<Binding>, env: Env, b: Binding, resolve: string -> string)
    requires DistinctKeys(bs) && b in bs
    ensures var all := AssignAll(env, bs, resolve); VarName(b.key) in all && all[VarName(b.key)] == ValueOf(b.source, resolve)
    decreases |bs|
  {
    var env' := env[VarName(bs[0].key) := ValueOf(bs[0].source, resolve)];
    if b == bs[0] {
      forall c | c in bs[1..] ensures VarName(c.key) != VarName(b.key) {
        if VarName(c.key) == VarName(b.key) {
          VarNamesDiffer(c.key, b.key);
        }
      }
      OthersKeep(bs[1..], env', VarName(b.key), resolve);
    } else {
      BindingsHold(bs[1..], env', b, resolve);
    }
  }

  lemma PairsDistinct(bs: seq<Binding>)
    requires DistinctKeys(bs)
    ensures Distinct(Pairs(bs))
  {
    forall i, j | 0 <= i < j < |bs| ensures Pairs(bs)[i] != Pairs(bs)[j] {
      if Pairs(bs)[i] == Pairs(bs)[j] {
        VarNamesDiffer(bs[i].key, bs[j].key);
      }
    }
  }

  /** Assignments that give unset variables their values include every one of the bindings. */
  lemma AllAreMade(bs: seq<Binding>, env: Env, log: seq<(string, string)>)
    requires DistinctKeys(bs) && NoneSet(bs, env) && Assign(env, log) == AssignAll(env, bs, IDENTITY)
    ensures forall p :: p in Pairs(bs) ==> p in log
  {
    forall i | 0 <= i < |bs| ensures Pairs(bs)[i] in log {
      assert bs[i] in bs;
      BindingsHold(bs, env, bs[i], IDENTITY);
      ValuesAreAssigned(log, env, VarName(bs[i].key));
    }
  }

  lemma ScriptLog(bs: seq<Binding>)
    requires Exported(ExportScript(bs)).Some?
    ensures LogWeight(Exported(ExportScript(bs)).value) == LogWeight(Pairs(bs))
  {
    ExportedConserves(ExportScript(bs));
    ScriptWeight(bs);
  }

  /** If every variable gets its value, then so does the first one at once: assigning it twice would
      take more weight than the script has. */
  lemma FirstValueSafe(bs: seq<Binding>, env: Env)
    requires bs != [] && DistinctKeys(bs) && NoneSet(bs, env)
    requires RunExports(ExportScript(bs), env) == Some(AssignAll(env, bs, IDENTITY))
    ensures DoubleSafe(Plain(bs[0].source))
  {
    var log := Exported(ExportScript(bs)).value;
    FirstAssignment(bs);
    ScriptLog(bs);
    AllAreMade(bs, env, log);
    if log[0].1 != Plain(bs[0].source) {
      TwiceIsTooMuch(bs, log);
    }
  }

  lemma TwiceIsTooMuch(bs: seq<Binding>, log: seq<(string, string)>)
    requires bs != [] && DistinctKeys(bs) && log != [] && (forall p :: p in Pairs(bs) ==> p in log)
    requires log[0].0 == VarName(bs[0].key) && log[0].1 != Plain(bs[0].source)
    ensures LogWeight(Pairs(bs)) < LogWeight(log)
  {
    var all := [log[0]] + Pairs(bs);
    PairsDistinct(bs);
    forall i | 0 <= i < |bs| ensures Pairs(bs)[i] != log[0] {
      if Pairs(bs)[i] == log[0] {
        VarNamesDiffer(bs[i].key, bs[0].key);
      }
    }
    assert Distinct(all);
    DistinctFit(all, log);
    assert all[1..] == Pairs(bs);
  }

  /** Where none of the variables is set before, the exports have the effect of the bindings if and
      only if double quotes protect every value. */
  lemma {:induction false} ExportsAssignIff(bs: seq<Binding>, env: Env)
    requires DistinctKeys(bs) && NoneSet(bs, env)
    ensures RunExports(ExportScript(bs), env) == Some(AssignAll(env, bs, IDENTITY)) <==> DoubleSafeAll(bs)
    decreases |bs|
  {
    if DoubleSafeAll(bs) {
      ExportsAssign(bs, env);
    } else if RunExports(ExportScript(bs), env) == Some(AssignAll(env, bs, IDENTITY)) {
      FirstValueSafe(bs, env);
      FirstExport(bs);
      RestUnset(bs, env);
      ExportsAssignIff(bs[1..], env[VarName(bs[0].key) := Plain(bs[0].source)]);
    }
  }

  lemma RestUnset(bs: seq<Binding>, env: Env)
    requires bs != [] && DistinctKeys(bs) && NoneSet(bs, env)
    ensures NoneSet(bs[1..], env[VarName(bs[0].key) := Plain(bs[0].source)])
  {
    forall b | b in bs[1..] ensures VarName(b.key) !in env && VarName(b.key) != VarName(bs[0].key) {
      assert b in bs;
      if VarName(b.key) == VarName(bs[0].key) {
        VarNamesDiffer(b.key, bs[0].key);
      }
    }
  }

  /** The bindings of a rule set no variable twice. */
  lemma {:induction false} BindingsDistinct(a: Attrs, order: seq<Key>)
    requires Distinct(order)
    ensures DistinctKeys(Bindings(a, order)) && forall b :: b in Bindings(a, order) ==> b.key in order
  {
    if order != [] {
      BindingsDistinct(a, order[1..]);
      assert order[0] !in order[1..];
    }
  }

  // ----- A lost export that the environment hides -----

  /** A second value whose own line is read as part of the first, but for an assignment that it holds. */
  function Hidden(name: string): string {
    "\n" + (EXPORT + (name + "=\"" + "\\\\"))
  }

  function Swallowed(j: Key, k: Key): seq<Binding> {
    [Binding(j, Literal("\\")), Binding(k, Literal(Hidden(VarName(j))))]
  }

  lemma {:induction false} TameIsDoubleSafe(v: string)
    requires forall c :: c in v ==> c !in "$`\"\\"
    ensures DoubleSafe(v)
  {
    if v != "" {
      assert v[0] in v && forall c :: c in v[1..] ==> c in v;
      TameIsDoubleSafe(v[1..]);
    }
  }

  /** The first word: up to the quote that should open the second value. */
  lemma SwallowsName(acc: string, name: string, after: string)
    requires IsName(name) && after != "" && after[0] == '\n'
    ensures Word("\\\"" + ("\n" + (EXPORT + (name + "=\"" + after))), Double, acc)
      == Some((acc + "\"" + ("\n" + (EXPORT + (name + "="))), after))
  {
    var body := "\n" + (EXPORT + (name + "="));
    var rest := "\n" + (EXPORT + (name + "=\"" + after));
    var s := "\\\"" + rest;
    assert s[0] == '\\' && s[1] == '"' && s[2..] == rest;
    assert rest == body + "\"" + after;
    BodyIsSafe(name);
    InsideDouble(body, after, acc + "\"");
  }

  lemma BodyIsSafe(name: string)
    requires IsName(name)
    ensures DoubleSafe("\n" + (EXPORT + (name + "=")))
  {
    var body := "\n" + (EXPORT + (name + "="));
    forall c | c in body ensures c !in "$`\"\\" {
      assert c in "\n" || c in EXPORT || c in name || c in "=";
    }
    TameIsDoubleSafe(body);
  }

  lemma LastLineText(name: string, value: string)
    ensures ExportLine(name, value) == EXPORT + (name + "=\"" + (value + "\""))
    ensures ExportLine(name, value)[|EXPORT|..] == name + "=\"" + (value + "\"")
  {
    Assoc(name + "=\"", value, "\"");
  }

  lemma BackslashWord(acc: string)
    ensures Word("\\\\" + "\"", Double, acc) == Some((acc + "\\", ""))
  {
    var t := "\\\\" + "\"";
    assert t[0] == '\\' && t[1] == '\\' && t[2..] == "\"";
    assert "\""[1..] == "";
    assert Word("", Unquoted, acc + "\\") == Some((acc + "\\", ""));
    assert Word("\"", Double, acc + "\\") == Word("", Unquoted, acc + "\\");
  }

  lemma ExportedIs(s: string, word: string, after: string, p: (string, string))
    requires EXPORT <= s && Word(s[|EXPORT|..], Unquoted, "") == Some((word, after))
    requires CutAssignment(word) == Some(p) && (after == "" || after[0] == '\n')
    ensures Exported(s) == Prepend(p, Exported(if after == "" then "" else after[1..]))
  {
  }

  /** An escaped backslash before the closing quote. */
  lemma BackslashExport(name: string)
    requires IsName(name) && '=' !in name
    ensures Exported(ExportLine(name, "\\\\")) == Some([(name, "\\")])
  {
    var line := ExportLine(name, "\\\\");
    LastLineText(name, "\\\\");
    AssignmentOpens(name, "\\\\" + "\"");
    BackslashWord(name + "=");
    CutsAtName(name, "\\");
    ExportedIs(line, name + "=" + "\\", "", (name, "\\"));
    PrependIs((name, "\\"), Exported(""), (name, "\\"), []);
    assert [(name, "\\")] + [] == [(name, "\\")];
  }

  lemma SwallowedText(j: Key, k: Key)
    ensures RestScript(Swallowed(j, k)[1..]) == "\n" + (EXPORT + (VarName(k) + "=\"" + (Hidden(VarName(j)) + "\"")))
    ensures Hidden(VarName(j)) + "\"" == "\n" + ExportLine(VarName(j), "\\\\")
  {
    var h := Hidden(VarName(j));
    var last := Swallowed(j, k)[1..];
    ExportScriptStep(last);
    LastLineText(VarName(k), h);
    assert ExportLine(VarName(k), h) + "" == ExportLine(VarName(k), h);
    HiddenText(VarName(j));
  }

  lemma HiddenText(name: string)
    ensures Hidden(name) + "\"" == "\n" + ExportLine(name, "\\\\")
  {
    Assoc("\n", EXPORT + (name + "=\"" + "\\\\"), "\"");
    Assoc(EXPORT, name + "=\"" + "\\\\", "\"");
  }

  /** What the first variable of the two gets at first. */
  function Swallow(name: string): string {
    "\"" + ("\n" + (EXPORT + (name + "=")))
  }

  lemma SwallowedWord(j: Key, k: Key)
    ensures var s := ExportScript(Swallowed(j, k));
      EXPORT <= s && Word(s[|EXPORT|..], Unquoted, "") == Some((VarName(j) + "=" + Swallow(VarName(k)), Hidden(VarName(j)) + "\""))
  {
    var acc, after := VarName(j) + "=", Hidden(VarName(j)) + "\"";
    VarNameIsName(k);
    SwallowedText(j, k);
    ScriptOpens(Swallowed(j, k));
    SwallowsName(acc, VarName(k), after);
    assert "\\" + "\"" == "\\\"";
    Assoc(acc, "\"", "\n" + (EXPORT + (VarName(k) + "=")));
  }

  /** What the script assigns instead: the first name twice. */
  lemma SwallowedLog(j: Key, k: Key)
    ensures Exported(ExportScript(Swallowed(j, k))) == Some([(VarName(j), Swallow(VarName(k))), (VarName(j), "\\")])
  {
    var a, x := VarName(j), Swallow(VarName(k));
    VarNameIsName(j);
    SwallowedWord(j, k);
    CutsAtName(a, x);
    HiddenText(a);
    ExportedIs(ExportScript(Swallowed(j, k)), a + "=" + x, Hidden(a) + "\"", (a, x));
    assert ("\n" + ExportLine(a, "\\\\"))[1..] == ExportLine(a, "\\\\");
    BackslashExport(a);
    PrependIs((a, x), Some([(a, "\\")]), (a, x), [(a, "\\")]);
    assert [(a, x)] + [(a, "\\")] == [(a, x), (a, "\\")];
  }

  lemma HiddenEffect(a: string, b: string, x: string, y: string, h: string, env: Env)
    requires a != b && b in env && env[b] == h
    ensures Assign(env, [(a, x), (a, y)]) == Assign(env, [(a, y), (b, h)])
  {
    assert [(a, x), (a, y)][1..] == [(a, y)] && [(a, y), (b, h)][1..] == [(b, h)];
    assert [(a, y)][1..] == [] && [(b, h)][1..] == [];
    assert env[a := x][a := y] == env[a := y][b := h];
  }

  /** Without the assumption on the environment the equivalence fails: here both values are unsafe and
      the second line is lost, yet every variable ends up right since the second had its value before. */
  lemma LossCanBeHidden(j: Key, k: Key, env: Env)
    requires j != k && VarName(k) in env && env[VarName(k)] == Hidden(VarName(j))
    ensures DistinctKeys(Swallowed(j, k)) && !DoubleSafeAll(Swallowed(j, k))
    ensures RunExports(ExportScript(Swallowed(j, k)), env) == Some(AssignAll(env, Swallowed(j, k), IDENTITY))
  {
    var bs := Swallowed(j, k);
    assert bs[0] in bs && !DoubleSafe("\\");
    if VarName(j) == VarName(k) {
      VarNamesDiffer(j, k);
    }
    SwallowedLog(j, k);
    AssignPairs(bs, env);
    assert Pairs(bs) == [(VarName(j), "\\"), (VarName(k), Hidden(VarName(j)))];
    HiddenEffect(VarName(j), VarName(k), Swallow(VarName(k)), "\\", Hidden(VarName(j)), env);
  }

  // ----- The init function -----

  /** What the line of a binding assigns. */
  function LineValue(b: Binding, workspace: string, rlocation: string -> Option<string>): Option<string> {
    match ParseStatement(StatementLine(StatementOf(b, workspace)))
    case Some(Setenv(k, v)) => Some(v)
    case Some(MustSetenv(k, p)) => rlocation(p)
    case _ => None
  }

  /** The call that the line of a binding is, whatever the value it is read with. */
  predicate OfKind(st: Option<Statement>, b: Binding) {
    match st
    case None => true
    case Some(Nothing) => false
    case Some(Setenv(k, v)) => k == VarName(b.key) && b.source.Literal?
    case Some(MustSetenv(k, p)) => k == VarName(b.key) && b.source.Path?
  }

  lemma LineKind(b: Binding, workspace: string)
    ensures OfKind(ParseStatement(StatementLine(StatementOf(b, workspace))), b)
  {
    var line, k, v := StatementLine(StatementOf(b, workspace)), VarName(b.key), Quoted(b, workspace);
    VarNameIsGoSafe(b.key);
    CallArgsParse(k, v);
    if b.source.Path? {
      assert line[..|MUST_SETENV|] == MUST_SETENV && line[|MUST_SETENV|..] == CallArgs(k, v);
      assert line[1] == 'v' && SETENV[1] == 'o';
    } else {
      assert line[..|SETENV|] == SETENV && line[|SETENV|..] == CallArgs(k, v);
    }
  }

  /** Whatever its value, a line assigns to its own variable or stops the program. */
  lemma LineRuns(b: Binding, workspace: string, more: seq<string>, env: Env, rlocation: string -> Option<string>)
    ensures var x := LineValue(b, workspace, rlocation);
      RunInit([StatementLine(StatementOf(b, workspace))] + more, env, rlocation)
      == if x.None? then None else RunInit(more, env[VarName(b.key) := x.value], rlocation)
  {
    LineKind(b, workspace);
    assert ([StatementLine(StatementOf(b, workspace))] + more)[1..] == more;
  }

  /** No two names stand for one file. */
  ghost predicate OneName(rlocation: string -> Option<string>) {
    forall p, q :: rlocation(p).Some? && rlocation(p) == rlocation(q) ==> p == q
  }

  lemma LineValueIff(b: Binding, workspace: string, rlocation: string -> Option<string>, resolve: string -> string)
    requires OneName(rlocation) && Located([b], workspace, rlocation, resolve)
    ensures LineValue(b, workspace, rlocation) == Some(ValueOf(b.source, resolve)) <==> GoSafe(Quoted(b, workspace))
  {
    assert b in [b];
    LineKind(b, workspace);
    if b.source.Path? {
      MustSetenvDecodesIff(b.key, Quoted(b, workspace));
    } else {
      SetenvDecodesIff(b.key, b.source.value);
    }
  }

  lemma {:induction false} LinesKeep(bs: seq<Binding>, workspace: string, env: Env, name: string, rlocation: string -> Option<string>)
    requires forall b :: b in bs ==> VarName(b.key) != name
    ensures var r := RunInit(BindingLines(bs, workspace), env, rlocation);
      r.Some? && name in env ==> name in r.value && r.value[name] == env[name]
    decreases |bs|
  {
    if bs != [] {
      assert bs[0] in bs && forall b :: b in bs[1..] ==> b in bs;
      LineRuns(bs[0], workspace, BindingLines(bs[1..], workspace), env, rlocation);
      var x := LineValue(bs[0], workspace, rlocation);
      if x.Some? {
        LinesKeep(bs[1..], workspace, env[VarName(bs[0].key) := x.value], name, rlocation);
      }
    }
  }

  /** A first line that assigns another value is not made good by the other lines. */
  lemma WrongStays(bs: seq<Binding>, workspace: string, env: Env, rlocation: string -> Option<string>, resolve: string -> string, x: string)
    requires bs != [] && DistinctKeys(bs) && x != ValueOf(bs[0].source, resolve)
    ensures RunInit(BindingLines(bs[1..], workspace), env[VarName(bs[0].key) := x], rlocation) != Some(AssignAll(env, bs, resolve))
  {
    forall b | b in bs[1..] ensures VarName(b.key) != VarName(bs[0].key) {
      if VarName(b.key) == VarName(bs[0].key) {
        VarNamesDiffer(b.key, bs[0].key);
      }
    }
    LinesKeep(bs[1..], workspace, env[VarName(bs[0].key) := x], VarName(bs[0].key), rlocation);
    BindingsHold(bs, env, bs[0], resolve);
  }

  lemma GoSafeStep(bs: seq<Binding>, workspace: string)
    requires bs != []
    ensures GoSafeAll(bs, workspace) <==> GoSafe(Quoted(bs[0], workspace)) && GoSafeAll(bs[1..], workspace)
  {
    assert forall b :: b in bs <==> b == bs[0] || b in bs[1..];
  }

  lemma GoSafeJoin(x: seq<Binding>, y: seq<Binding>, workspace: string)
    ensures GoSafeAll(x + y, workspace) <==> GoSafeAll(x, workspace) && GoSafeAll(y, workspace)
  {
    assert forall b :: b in x + y <==> b in x || b in y;
  }

  lemma {:induction false} LinesAssignIff(bs: seq<Binding>, workspace: string, env: Env, rlocation: string -> Option<string>, resolve: string -> string)
    requires DistinctKeys(bs) && OneName(rlocation) && Located(bs, workspace, rlocation, resolve)
    ensures RunInit(BindingLines(bs, workspace), env, rlocation) == Some(AssignAll(env, bs, resolve)) <==> GoSafeAll(bs, workspace)
    decreases |bs|
  {
    if bs != [] {
      GoSafeStep(bs, workspace);
      assert bs[0] in bs && forall b :: b in bs[1..] ==> b in bs;
      LineRuns(bs[0], workspace, BindingLines(bs[1..], workspace), env, rlocation);
      LineValueIff(bs[0], workspace, rlocation, resolve);
      var x := LineValue(bs[0], workspace, rlocation);
      if x == Some(ValueOf(bs[0].source, resolve)) {
        LinesAssignIff(bs[1..], workspace, env[VarName(bs[0].key) := x.value], rlocation, resolve);
      } else if x.Some? {
        WrongStays(bs, workspace, env, rlocation, resolve, x.value);
      }
    }
  }

  lemma {:induction false} LinesAppend(x: seq<Binding>, y: seq<Binding>, workspace: string)
    ensures BindingLines(x + y, workspace) == BindingLines(x, workspace) + BindingLines(y, workspace)
  {
    if x == [] {
      assert x + y == y;
    } else {
      assert (x + y)[1..] == x[1..] + y;
      LinesAppend(x[1..], y, workspace);
    }
  }

  /** The init function has the effect of the bindings if and only if every value can stand
      unescaped in a Go string, provided that no file has two names. */
  lemma InitAssignsIff(paths: seq<Binding>, literals: seq<Binding>, workspace: string, env: Env, rlocation: string -> Option<string>, resolve: string -> string)
    requires DistinctKeys(paths + literals) && OneName(rlocation) && Located(paths + literals, workspace, rlocation, resolve)
    ensures RunInit(InitLines(paths, literals, workspace), env, rlocation) == Some(AssignAll(env, paths + literals, resolve))
      <==> GoSafeAll(paths, workspace) && GoSafeAll(literals, workspace)
  {
    var p, l := BindingLines(paths, workspace), BindingLines(literals, workspace);
    LinesAppend(paths, literals, workspace);
    LinesAssignIff(paths + literals, workspace, env, rlocation, resolve);
    Assoc([NEW_RUNFILES, CHECK_RUNFILES], p, l);
    RunfilesLines(p + l, env, rlocation);
    if paths == [] {
      assert [] + p == p;
    }
    GoSafeJoin(paths, literals, workspace);
  }
}
