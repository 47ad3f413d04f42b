/** The texts that config.bzl and vm_go_test.bzl generate, and what running them does to the
    environment. */
module EnvPrograms {
  import opened Sequences
  import opened Shell
  import opened VMOptions
  import opened EnvConfig

  // ----- vm_go_test.bzl: `export NAME="value"` lines -----

  const EXPORT := "export "

  function ExportLine(name: string, value: string): string {
    EXPORT + Assignment(name, value)
  }

  function Plain(s: Source): string {
    if s.Path? then s.short else s.value
  }

  function ExportLines(bs: seq<Binding>): (lines: seq<string>)
    ensures |lines| == |bs|
  {
    if bs == [] then [] else [ExportLine(VarName(bs[0].key), Plain(bs[0].source))] + ExportLines(bs[1..])
  }

  function ExportScript(bs: seq<Binding>): string {
    Join(ExportLines(bs), '\n')
  }

  /** The first `=` ends the name. */
  function CutAssignment(s: string): Option<(string, string)> {
    if s == "" then None
    else if s[0] == '=' then Some(("", s[1..]))
    else
      var r := CutAssignment(s[1..]);
      if r.None? then None else Some(([s[0]] + r.value.0, r.value.1))
  }

  /** What a script of export commands, one per line, assigns in order; None is any other text. */
  function Exported(s: string): Option<seq<(string, string)>>
    decreases |s|
  {
    if s == "" then Some([])
    else if !(EXPORT <= s) then None
    else
      var w := Word(s[|EXPORT|..], Unquoted, "");
      WordConsumes(s[|EXPORT|..], Unquoted, "");
      if w.None? then None
      else
        var asg := CutAssignment(w.value.0);
        if asg.None? || (w.value.1 != "" && w.value.1[0] != '\n') then None
        else Prepend(asg.value, Exported(if w.value.1 == "" then "" else w.value.1[1..]))
  }

  function Prepend<T>(x: T, more: Option<seq<T>>): Option<seq<T>> {
    if more.None? then None else Some([x] + more.value)
  }

  function Assign(env: Env, ps: seq<(string, string)>): Env
    decreases |ps|
  {
    if ps == [] then env else Assign(env[ps[0].0 := ps[0].1], ps[1..])
  }

  function RunExports(s: string, env: Env): Option<Env> {
    if Exported(s).None? then None else Some(Assign(env, Exported(s).value))
  }

  lemma {:induction false} CutsAtName(name: string, value: string)
    requires '=' !in name
    ensures CutAssignment(name + "=" + value) == Some((name, value))
  {
    var s := name + "=" + value;
    if name == "" {
      assert s[1..] == value;
    } else {
      assert s[1..] == name[1..] + "=" + value && name[0] in name && s[0] == name[0];
      assert [name[0]] + name[1..] == name;
      CutsAtName(name[1..], value);
    }
  }

  lemma VarNameIsName(k: Key)
    ensures IsName(VarName(k)) && '=' !in VarName(k)
  {
    var name := VarName(k);
    assert forall c :: 'A' <= c <= 'Z' || c == '_' ==> IsPlain(c);
  }

  lemma OneExport(k: Key, value: string, rest: string)
    requires DoubleSafe(value) && (rest == "" || rest[0] == '\n')
    ensures Exported(ExportLine(VarName(k), value) + rest)
      == Prepend((VarName(k), value), Exported(if rest == "" then "" else rest[1..]))
  {
    var s := ExportLine(VarName(k), value) + rest;
    VarNameIsName(k);
    assert s[|EXPORT|..] == Assignment(VarName(k), value) + rest;
    AssignmentIsLiteral(VarName(k), value, rest);
    CutsAtName(VarName(k), value);
  }

  predicate DoubleSafeAll(bs: seq<Binding>) {
    forall b :: b in bs ==> DoubleSafe(Plain(b.source))
  }

  const IDENTITY := (p: string) => p

  function RestScript(bs: seq<Binding>): string {
    if bs == [] then "" else "\n" + ExportScript(bs)
  }

  lemma ExportScriptStep(bs: seq<Binding>)
    requires bs != []
    ensures ExportScript(bs) == ExportLine(VarName(bs[0].key), Plain(bs[0].source)) + RestScript(bs[1..])
  {
    var line := ExportLine(VarName(bs[0].key), Plain(bs[0].source));
    assert ExportLines(bs)[1..] == ExportLines(bs[1..]);
    if |bs| == 1 {
      assert line + "" == line;
    } else {
      Assoc(line, "\n", ExportScript(bs[1..]));
    }
  }

  function Pair(b: Binding): (string, string) {
    (VarName(b.key), Plain(b.source))
  }

  function Pairs(bs: seq<Binding>): (ps: seq<(string, string)>)
    ensures |ps| == |bs| && forall i :: 0 <= i < |bs| ==> ps[i] == Pair(bs[i])
  {
    seq(|bs|, i requires 0 <= i < |bs| => Pair(bs[i]))
  }

  lemma PairsStep(bs: seq<Binding>)
    requires bs != []
    ensures Pairs(bs) == [Pair(bs[0])] + Pairs(bs[1..])
  {
  }

  /** A script whose first value is safe makes that assignment and goes on with the other lines. */
  lemma FirstExport(bs: seq<Binding>)
    requires bs != [] && DoubleSafe(Plain(bs[0].source))
    ensures Exported(ExportScript(bs)) == Prepend(Pair(bs[0]), Exported(ExportScript(bs[1..])))
  {
    ExportScriptStep(bs);
    OneExport(bs[0].key, Plain(bs[0].source), RestScript(bs[1..]));
    if bs[1..] != [] {
      assert RestScript(bs[1..])[1..] == ExportScript(bs[1..]);
    }
  }

  lemma {:induction false} ExportsDecode(bs: seq<Binding>)
    requires DoubleSafeAll(bs)
    ensures Exported(ExportScript(bs)) == Some(Pairs(bs))
  {
    if bs != [] {
      assert bs[0] in bs && forall b :: b in bs[1..] ==> b in bs;
      ExportsDecode(bs[1..]);
      FirstExport(bs);
      PairsStep(bs);
    }
  }

  lemma {:induction false} AssignPairs(bs: seq<Binding>, env: Env)
    ensures Assign(env, Pairs(bs)) == AssignAll(env, bs, IDENTITY)
    decreases |bs|
  {
    if bs != [] {
      PairsStep(bs);
      assert Pairs(bs)[1..] == Pairs(bs[1..]) && ValueOf(bs[0].source, IDENTITY) == Plain(bs[0].source);
      AssignPairs(bs[1..], env[VarName(bs[0].key) := Plain(bs[0].source)]);
    }
  }

  /** The script assigns exactly its bindings, files by their short paths. */
  lemma ExportsAssign(bs: seq<Binding>, env: Env)
    requires DoubleSafeAll(bs)
    ensures RunExports(ExportScript(bs), env) == Some(AssignAll(env, bs, IDENTITY))
  {
    ExportsDecode(bs);
    AssignPairs(bs, env);
  }

  // ----- config.bzl: calls in a generated Go init function -----

  predicate IllegalInGo(c: char) {
    c == '\0' || c == '\U{FEFF}'
  }

  /** A Go interpreted string literal after its opening quote: the value and the text after the
      closing quote. Numeric escapes are outside this fragment. Go source may hold neither NUL nor, past
      its first character, a byte order mark. */
  function GoString(s: string, acc: string): Option<(string, string)>
    decreases |s|
  {
    if s == "" || s[0] == '\n' || IllegalInGo(s[0]) then None
    else if s[0] == '"' then Some((acc, s[1..]))
    else if s[0] != '\\' then GoString(s[1..], acc + [s[0]])
    else if |s| < 2 then None
    else
      match s[1]
      case 'n' => GoString(s[2..], acc + "\n")
      case 't' => GoString(s[2..], acc + "\t")
      case 'r' => GoString(s[2..], acc + "\r")
      case '\\' => GoString(s[2..], acc + "\\")
      case '"' => GoString(s[2..], acc + "\"")
      case _ => None
  }

  /** Values that may stand between double quotes in Go unescaped. */
  predicate GoSafe(v: string) {
    forall c :: c in v ==> c != '"' && c != '\\' && c != '\n' && c != '\0' && c != '\U{FEFF}'
  }

  datatype Statement = Nothing | Setenv(key: string, value: string) | MustSetenv(key: string, path: string)

  const SETENV := "\tos.Setenv(\""
  const MUST_SETENV := "\tvmtestMustSetenv(r, \""
  const COMMA := ", \""
  const CLOSE := ")"
  const NEW_RUNFILES := "\tr, err := runfiles.New()"
  const CHECK_RUNFILES := "\tif err != nil { panic(\"vmtest: \" + err.Error()) }"

  /** `key", "value")`. */
  function CallArgs(key: string, value: string): string {
    key + "\"" + (COMMA + (value + "\"" + CLOSE))
  }

  function StatementLine(st: Statement): string {
    match st
    case Nothing => NEW_RUNFILES
    case Setenv(k, v) => SETENV + CallArgs(k, v)
    case MustSetenv(k, p) => MUST_SETENV + CallArgs(k, p)
  }

  function ParseCallArgs(s: string): Option<(string, string)> {
    var k := GoString(s, "");
    if k.None? || !(COMMA <= k.value.1) then None
    else
      var v := GoString(k.value.1[|COMMA|..], "");
      if v.None? || v.value.1 != CLOSE then None else Some((k.value.0, v.value.0))
  }

  function ParseStatement(line: string): Option<Statement> {
    if SETENV <= line then
      var call := ParseCallArgs(line[|SETENV|..]);
      if call.None? then None else Some(Setenv(call.value.0, call.value.1))
    else if MUST_SETENV <= line then
      var call := ParseCallArgs(line[|MUST_SETENV|..]);
      if call.None? then None else Some(MustSetenv(call.value.0, call.value.1))
    else if line == NEW_RUNFILES || line == CHECK_RUNFILES then Some(Nothing)
    else None
  }

  /** The escapes that are read. */
  lemma EscapesRead(rest: string, acc: string)
    ensures GoString("\\n" + rest, acc) == GoString(rest, acc + "\n") && GoString("\\t" + rest, acc) == GoString(rest, acc + "\t")
    ensures GoString("\\r" + rest, acc) == GoString(rest, acc + "\r")
    ensures GoString("\\\\" + rest, acc) == GoString(rest, acc + "\\") && GoString("\\\"" + rest, acc) == GoString(rest, acc + "\"")
  {
    assert ("\\n" + rest)[2..] == rest && ("\\t" + rest)[2..] == rest && ("\\r" + rest)[2..] == rest;
    assert ("\\\\" + rest)[2..] == rest && ("\\\"" + rest)[2..] == rest;
  }

  /** The lines as the two rules write them. */
  lemma LinesAsWritten(key: string, value: string)
    ensures ExportLine(key, value) == "export " + key + "=\"" + value + "\""
    ensures StatementLine(Setenv(key, value)) == "\tos.Setenv(\"" + key + "\", \"" + value + "\")"
    ensures StatementLine(MustSetenv(key, value)) == "\tvmtestMustSetenv(r, \"" + key + "\", \"" + value + "\")"
  {
    assert ExportLine(key, value) == "export " + key + "=\"" + value + "\"";
    CallAsWritten("\tos.Setenv(\"", key, value);
    CallAsWritten("\tvmtestMustSetenv(r, \"", key, value);
  }

  lemma CallAsWritten(call: string, key: string, value: string)
    ensures call + CallArgs(key, value) == call + key + "\", \"" + value + "\")"
  {
    assert "\"" + COMMA == "\", \"" && "\"" + CLOSE == "\")";
    Assoc(call + key, "\"", COMMA);
    Assoc(value, "\"", CLOSE);
  }

  lemma {:induction false} GoStringIsLiteral(v: string, rest: string, acc: string)
    requires GoSafe(v)
    ensures GoString(v + "\"" + rest, acc) == Some((acc + v, rest))
    decreases |v|
  {
    var s := v + "\"" + rest;
    if v == "" {
      assert s[1..] == rest && acc + v == acc;
    } else {
      assert s[1..] == v[1..] + "\"" + rest && acc + [v[0]] + v[1..] == acc + v;
      assert v[0] in v && forall c :: c in v[1..] ==> c in v;
      GoStringIsLiteral(v[1..], rest, acc + [v[0]]);
    }
  }

  /** Scanning never yields more characters than it consumes. */
  lemma {:induction false} GoStringLength(s: string, acc: string)
    ensures var r := GoString(s, acc); r.Some? ==> |r.value.0| + 1 + |r.value.1| <= |acc| + |s|
    decreases |s|
  {
    if s != "" {
      GoStringLength(s[1..], acc + [s[0]]);
      if |s| >= 2 {
        GoStringLength(s[2..], acc + "\n");
        GoStringLength(s[2..], acc + "\t");
        GoStringLength(s[2..], acc + "\r");
        GoStringLength(s[2..], acc + "\\");
        GoStringLength(s[2..], acc + "\"");
      }
    }
  }

  lemma {:induction false} UnsafeGoString(v: string, acc: string)
    requires !GoSafe(v)
    ensures GoString(v + "\"" + CLOSE, acc) != Some((acc + v, CLOSE))
    decreases |v|
  {
    var s := v + "\"" + CLOSE;
    assert s[1..] == v[1..] + "\"" + CLOSE && s[0] == v[0];
    if v[0] == '"' {
      assert |s[1..]| > |CLOSE|;
    } else if v[0] == '\\' {
      GoStringLength(s[2..], acc + "\n");
      GoStringLength(s[2..], acc + "\t");
      GoStringLength(s[2..], acc + "\r");
      GoStringLength(s[2..], acc + "\\");
      GoStringLength(s[2..], acc + "\"");
    } else if v[0] != '\n' && !IllegalInGo(v[0]) {
      assert forall c :: c in v ==> c == v[0] || c in v[1..];
      UnsafeGoString(v[1..], acc + [v[0]]);
      assert acc + [v[0]] + v[1..] == acc + v;
    }
  }

  lemma CallArgsParse(k: string, v: string)
    requires GoSafe(k)
    ensures ParseCallArgs(CallArgs(k, v)) == Some((k, v)) <==> GoSafe(v)
    ensures ParseCallArgs(CallArgs(k, v)).Some? ==> ParseCallArgs(CallArgs(k, v)).value.0 == k
  {
    var rest := COMMA + (v + "\"" + CLOSE);
    assert "" + k == k && "" + v == v;
    GoStringIsLiteral(k, rest, "");
    assert rest[|COMMA|..] == v + "\"" + CLOSE && COMMA <= rest;
    if GoSafe(v) {
      GoStringIsLiteral(v, CLOSE, "");
    } else {
      UnsafeGoString(v, "");
    }
  }

  lemma VarNameIsGoSafe(k: Key)
    ensures GoSafe(VarName(k))
  {
  }

  /** A value survives the unescaped `"%s"` template of the Go source exactly when it holds no
      double quote, backslash, newline, NUL or byte order mark. */
  lemma SetenvDecodesIff(k: Key, v: string)
    ensures ParseStatement(StatementLine(Setenv(VarName(k), v))) == Some(Setenv(VarName(k), v)) <==> GoSafe(v)
  {
    VarNameIsGoSafe(k);
    CallArgsParse(VarName(k), v);
    var line := StatementLine(Setenv(VarName(k), v));
    assert line[..|SETENV|] == SETENV && line[|SETENV|..] == CallArgs(VarName(k), v);
  }

  lemma MustSetenvDecodesIff(k: Key, p: string)
    ensures ParseStatement(StatementLine(MustSetenv(VarName(k), p))) == Some(MustSetenv(VarName(k), p)) <==> GoSafe(p)
  {
    VarNameIsGoSafe(k);
    CallArgsParse(VarName(k), p);
    var line := StatementLine(MustSetenv(VarName(k), p));
    assert line[..|MUST_SETENV|] == MUST_SETENV && line[|MUST_SETENV|..] == CallArgs(VarName(k), p);
    assert line[1] == 'v' && SETENV[1] == 'o';
  }

  /** `_to_rlocationpath`. */
  function ToRlocationPath(workspace: string, short: string): string {
    if "../" <= short then short[3..] else workspace + "/" + short
  }

  /** The file of another repository is at its own path, and one of this repository under the workspace. */
  lemma RlocationPaths(workspace: string, p: string)
    ensures ToRlocationPath(workspace, "../" + p) == p
    ensures !("../" <= p) ==> ToRlocationPath(workspace, p) == workspace + "/" + p
  {
    assert ("../" + p)[3..] == p;
  }

  function StatementOf(b: Binding, workspace: string): Statement {
    if b.source.Path? then MustSetenv(VarName(b.key), ToRlocationPath(workspace, b.source.short))
    else Setenv(VarName(b.key), b.source.value)
  }

  function BindingLines(bs: seq<Binding>, workspace: string): (lines: seq<string>)
    ensures |lines| == |bs|
  {
    if bs == [] then [] else [StatementLine(StatementOf(bs[0], workspace))] + BindingLines(bs[1..], workspace)
  }

  /** The lines of the init body. */
  function InitLines(paths: seq<Binding>, literals: seq<Binding>, workspace: string): seq<string> {
    (if paths == [] then [] else [NEW_RUNFILES, CHECK_RUNFILES])
    + BindingLines(paths, workspace) + BindingLines(literals, workspace)
  }

  /** Runs the init body. None is a panic on a missing runfile, or source that does not compile or is
      outside this fragment, such as a value that closes the call and adds another statement. */
  function RunInit(lines: seq<string>, env: Env, rlocation: string -> Option<string>): Option<Env>
    decreases |lines|
  {
    if lines == [] then Some(env)
    else
      match ParseStatement(lines[0])
      case None => None
      case Some(Nothing) => RunInit(lines[1..], env, rlocation)
      case Some(Setenv(k, v)) => RunInit(lines[1..], env[k := v], rlocation)
      case Some(MustSetenv(k, p)) =>
        var found := rlocation(p);
        if found.None? then None else RunInit(lines[1..], env[k := found.value], rlocation)
  }

  /** The runfiles are opened exactly if some file is to be found. */
  lemma HeaderAsWritten(paths: seq<Binding>, literals: seq<Binding>, workspace: string)
    ensures var lines := InitLines(paths, literals, workspace);
      && (paths == [] ==> lines == BindingLines(literals, workspace))
      && (paths != [] ==> |lines| == 2 + |paths| + |literals| && lines[0] == "\tr, err := runfiles.New()"
                          && lines[1] == "\tif err != nil { panic(\"vmtest: \" + err.Error()) }")
  {
    if paths == [] {
      assert [] + BindingLines(paths, workspace) + BindingLines(literals, workspace) == BindingLines(literals, workspace);
    }
  }

  /** What a binding puts between the quotes of the generated source. */
  function Quoted(b: Binding, workspace: string): string {
    if b.source.Path? then ToRlocationPath(workspace, b.source.short) else b.source.value
  }

  predicate GoSafeAll(bs: seq<Binding>, workspace: string) {
    forall b :: b in bs ==> GoSafe(Quoted(b, workspace))
  }

  /** The files of the bindings are in the runfiles, where `resolve` says. */
  ghost predicate Located(bs: seq<Binding>, workspace: string, rlocation: string -> Option<string>, resolve: string -> string) {
    forall b :: b in bs && b.source.Path? ==> rlocation(ToRlocationPath(workspace, b.source.short)) == Some(resolve(b.source.short))
  }

  lemma BindingLineRuns(b: Binding, workspace: string, more: seq<string>, env: Env, rlocation: string -> Option<string>, resolve: string -> string)
    requires GoSafeAll([b], workspace) && Located([b], workspace, rlocation, resolve)
    ensures RunInit([StatementLine(StatementOf(b, workspace))] + more, env, rlocation)
      == RunInit(more, env[VarName(b.key) := ValueOf(b.source, resolve)], rlocation)
  {
    assert b in [b];
    var lines := [StatementLine(StatementOf(b, workspace))] + more;
    assert lines[1..] == more;
    if b.source.Path? {
      MustSetenvDecodesIff(b.key, ToRlocationPath(workspace, b.source.short));
    } else {
      SetenvDecodesIff(b.key, b.source.value);
    }
  }

  lemma {:induction false} BindingLinesRun(bs: seq<Binding>, workspace: string, more: seq<string>, env: Env, rlocation: string -> Option<string>, resolve: string -> string)
    requires GoSafeAll(bs, workspace) && Located(bs, workspace, rlocation, resolve)
    ensures RunInit(BindingLines(bs, workspace) + more, env, rlocation) == RunInit(more, AssignAll(env, bs, resolve), rlocation)
    decreases |bs|
  {
    if bs == [] {
      assert BindingLines(bs, workspace) + more == more;
    } else {
      assert bs[0] in bs && forall b :: b in bs[1..] ==> b in bs;
      var first, rest := [StatementLine(StatementOf(bs[0], workspace))], BindingLines(bs[1..], workspace);
      Assoc(first, rest, more);
      BindingLineRuns(bs[0], workspace, rest + more, env, rlocation, resolve);
      BindingLinesRun(bs[1..], workspace, more, env[VarName(bs[0].key) := ValueOf(bs[0].source, resolve)], rlocation, resolve);
    }
  }

  /** The two lines are neither kind of call. */
  lemma RunfilesStatements()
    ensures ParseStatement(NEW_RUNFILES) == Some(Nothing) && ParseStatement(CHECK_RUNFILES) == Some(Nothing)
  {
    assert SETENV[1] == 'o' && MUST_SETENV[1] == 'v';
    assert NEW_RUNFILES[1] == 'r';
    assert CHECK_RUNFILES[..25] == "\tif err != nil { panic(\"v";
    assert CHECK_RUNFILES[..25][1] == CHECK_RUNFILES[1];
  }

  lemma RunfilesLines(more: seq<string>, env: Env, rlocation: string -> Option<string>)
    ensures RunInit([NEW_RUNFILES, CHECK_RUNFILES] + more, env, rlocation) == RunInit(more, env, rlocation)
  {
    var lines := [NEW_RUNFILES, CHECK_RUNFILES] + more;
    assert lines[1..][1..] == more && lines[1..][0] == CHECK_RUNFILES;
    RunfilesStatements();
  }

  lemma BodyAssigns(paths: seq<Binding>, literals: seq<Binding>, workspace: string, env: Env, rlocation: string -> Option<string>, resolve: string -> string)
    requires GoSafeAll(paths, workspace) && Located(paths, workspace, rlocation, resolve)
    requires GoSafeAll(literals, workspace) && Located(literals, workspace, rlocation, resolve)
    ensures RunInit(BindingLines(paths, workspace) + BindingLines(literals, workspace), env, rlocation)
      == Some(AssignAll(env, paths + literals, resolve))
  {
    var l := BindingLines(literals, workspace);
    AssignAppend(env, paths, literals, resolve);
    BindingLinesRun(paths, workspace, l, env, rlocation, resolve);
    BindingLinesRun(literals, workspace, [], AssignAll(env, paths, resolve), rlocation, resolve);
    assert l + [] == l;
  }

  /** The init function assigns exactly its bindings, files where the runfiles have them. */
  lemma InitAssigns(paths: seq<Binding>, literals: seq<Binding>, workspace: string, env: Env, rlocation: string -> Option<string>, resolve: string -> string)
    requires GoSafeAll(paths, workspace) && Located(paths, workspace, rlocation, resolve)
    requires GoSafeAll(literals, workspace) && Located(literals, workspace, rlocation, resolve)
    ensures RunInit(InitLines(paths, literals, workspace), env, rlocation) == Some(AssignAll(env, paths + literals, resolve))
  {
    var p, l := BindingLines(paths, workspace), BindingLines(literals, workspace);
    BodyAssigns(paths, literals, workspace, env, rlocation, resolve);
    Assoc([NEW_RUNFILES, CHECK_RUNFILES], p, l);
    RunfilesLines(p + l, env, rlocation);
    if paths == [] {
      assert [] + p == p;
    }
  }
}
