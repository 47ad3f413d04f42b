/** The part of the POSIX shell word grammar that the generated scripts rely on
    (POSIX.1-2017, Shell Command Language, sections 2.2.1-2.2.3, 2.3 and 2.6.7),
    and the two quoting functions of the repository. */
module Shell {
  import opened Sequences

  datatype Mode = Unquoted | Single | Double

  predicate IsBlank(c: char) {
    c == ' ' || c == '\t'
  }

  /** What ends an unquoted word: a blank, or the newline that ends the command. */
  predicate EndsWord(c: char) {
    IsBlank(c) || c == '\n'
  }

  /** Characters that the shell may give a meaning of their own inside an unquoted word:
      operators, expansions, pathname patterns, and the brace expansion of bash. */
  predicate IsMeta(c: char) {
    c in "|&;<>()`*?[{"
  }

  /** A character that makes an expansion of a `$` before it. Any other leaves the `$` as it is. */
  predicate Expands(c: char) {
    'a' <= c <= 'z' || 'A' <= c <= 'Z' || '0' <= c <= '9' || c in "_@*#?-$!{(["
  }

  predicate IsQuoting(c: char) {
    c in "'\"\\"
  }

  /** A character that stands for itself in an unquoted word, tildes and dollar signs in their places. */
  predicate IsPlain(c: char) {
    !EndsWord(c) && !IsMeta(c) && !IsQuoting(c)
  }

  /** Where an unquoted `~` would be expanded: at the start of a word and, by bash, after the `=` of
      an argument that looks like an assignment and after a later `:`. */
  predicate OpensTilde(acc: string) {
    acc == "" || Last(acc) == '=' || (Last(acc) == ':' && '=' in acc)
  }

  /** Outside quotes a `$` before a quote is special too, and a backslash may hide a line break. */
  predicate DollarExpands(s: string) {
    s != "" && s[0] == '$' && |s| >= 2 && (Expands(s[1]) || IsQuoting(s[1]))
  }

  /** Inside double quotes only a line break can be hidden. */
  predicate QuotedDollarExpands(s: string) {
    s != "" && s[0] == '$' && |s| >= 2 && (Expands(s[1]) || (s[1] == '\\' && |s| >= 3 && s[2] == '\n'))
  }

  /** One step through a word: fail, stop before the text, or go on behind `n` characters, in `mode`
      and with `word` read so far. */
  datatype Move = Fail | Stop | Go(n: nat, mode: Mode, word: string)

  function Step(s: string, mode: Mode, acc: string): (m: Move)
    ensures m.Go? ==> 1 <= m.n <= 2 && m.n <= |s| && acc <= m.word && |m.word| <= |acc| + 1
    ensures m.Go? && |m.word| == |acc| + m.n ==> m.mode == mode && (mode.Unquoted? ==> IsPlain(s[0]))
  {
    match mode
    case Unquoted => StepUnquoted(s, acc)
    case Single =>
      if s == "" then Fail
      else if s[0] == '\'' then Go(1, Unquoted, acc)
      else Go(1, Single, acc + [s[0]])
    case Double => StepDouble(s, acc)
  }

  function StepUnquoted(s: string, acc: string): Move {
    if s == "" || EndsWord(s[0]) then Stop
    else if s[0] == '\'' then Go(1, Single, acc)
    else if s[0] == '"' then Go(1, Double, acc)
    else if s[0] == '\\' then
      if |s| < 2 then Fail else Go(2, Unquoted, if s[1] == '\n' then acc else acc + [s[1]])
    else if IsMeta(s[0]) || (s[0] == '~' && OpensTilde(acc)) || DollarExpands(s) then Fail
    else Go(1, Unquoted, acc + [s[0]])
  }

  function StepDouble(s: string, acc: string): Move {
    if s == "" || s[0] == '`' || QuotedDollarExpands(s) then Fail
    else if s[0] == '"' then Go(1, Unquoted, acc)
    else if s[0] == '\\' && |s| >= 2 && s[1] == '\n' then Go(2, Double, acc)
    else if s[0] == '\\' && |s| >= 2 && s[1] in "$`\"\\" then Go(2, Double, acc + [s[1]])
    else Go(1, Double, acc + [s[0]])
  }

  /** The rest of the current word with its quotes removed, and the text after it.
      None is an unterminated quotation or something outside this fragment. */
  function Word(s: string, mode: Mode, acc: string): Option<(string, string)>
    decreases |s|
  {
    match Step(s, mode, acc)
    case Fail => None
    case Stop => Some((acc, s))
    case Go(n, m, word) => Word(s[n..], m, word)
  }

  lemma {:induction false} WordConsumes(s: string, mode: Mode, acc: string)
    ensures var w := Word(s, mode, acc); w.Some? ==>
      && |w.value.1| <= |s| && w.value.1 == s[|s| - |w.value.1|..]
      && (w.value.1 == "" || EndsWord(w.value.1[0]))
      && (s != "" && !(mode.Unquoted? && EndsWord(s[0])) ==> |w.value.1| < |s|)
    decreases |s|
  {
    var m := Step(s, mode, acc);
    if m.Go? {
      WordConsumes(s[m.n..], m.mode, m.word);
    }
  }

  /** The words of one line. A token that starts with `#` is a comment to the end of the line; a
      second line is outside this fragment. */
  function Words(s: string): Option<seq<string>>
    decreases |s|
  {
    if s == "" then Some([])
    else if IsBlank(s[0]) then Words(s[1..])
    else if s[0] == '#' then (if '\n' in s then None else Some([]))
    else if s[0] == '\n' then None
    else
      var w := Word(s, Unquoted, "");
      WordConsumes(s, Unquoted, "");
      if w.None? then None
      else
        var rest := Words(w.value.1);
        if rest.None? then None else Some([w.value.0] + rest.value)
  }

  // ----- The two quoting functions -----

  /** `strings.ReplaceAll(s, "'", with)`, and Starlark's `s.replace("'", with)`. */
  function ReplaceQuotes(s: string, with: string): string {
    if s == "" then ""
    else (if s[0] == '\'' then with else [s[0]]) + ReplaceQuotes(s[1..], with)
  }

  /** `'"'"'`: close, a double-quoted single quote, reopen. */
  const GO_QUOTE := "'\"'\"'"
  /** `'\''`: close, an escaped single quote, reopen. */
  const STARLARK_QUOTE := "'\\''"

  /** machine.shellQuote. */
  function ShellQuote(s: string): string {
    "'" + ReplaceQuotes(s, GO_QUOTE) + "'"
  }

  /** The quoting of one argument in vm_test.bzl. */
  function QuoteArg(a: string): string {
    if ' ' in a || '\'' in a then "'" + ReplaceQuotes(a, STARLARK_QUOTE) + "'" else a
  }

  function QuoteArgs(args: seq<string>): (quoted: seq<string>)
    ensures |quoted| == |args|
    ensures forall i :: 0 <= i < |args| ==> quoted[i] == QuoteArg(args[i])
  {
    if args == [] then [] else [QuoteArg(args[0])] + QuoteArgs(args[1..])
  }

  lemma QuoteStep(with: string, rest: string, acc: string)
    requires with == GO_QUOTE || with == STARLARK_QUOTE
    ensures Word(with + rest, Single, acc) == Word(rest, Single, acc + "'")
  {
    var s := with + rest;
    assert s[1..][1..] == s[2..] && s[2..][1..] == s[3..] && s[3..][1..] == s[4..];
    if with == GO_QUOTE {
      assert s[4..][1..] == rest;
      assert s[1..][0] == '"' && s[2..][0] == '\'' && s[3..][0] == '"' && s[4..][0] == '\'';
      assert Word(s[4..], Unquoted, acc + "'") == Word(rest, Single, acc + "'");
      assert Word(s[3..], Double, acc + "'") == Word(s[4..], Unquoted, acc + "'");
      assert Word(s[2..], Double, acc) == Word(s[3..], Double, acc + "'");
      assert Word(s[1..], Unquoted, acc) == Word(s[2..], Double, acc);
    } else {
      assert s[3..][1..] == rest && s[1..][2..] == s[3..];
      assert s[1..][0] == '\\' && s[1..][1] == '\'' && s[3..][0] == '\'';
      assert Word(s[3..], Unquoted, acc + "'") == Word(rest, Single, acc + "'");
      assert Word(s[1..], Unquoted, acc) == Word(s[3..], Unquoted, acc + "'");
    }
  }

  lemma {:induction false} InsideQuotes(s: string, with: string, rest: string, acc: string)
    requires with == GO_QUOTE || with == STARLARK_QUOTE
    ensures Word(ReplaceQuotes(s, with) + "'" + rest, Single, acc) == Word(rest, Unquoted, acc + s)
    decreases |s|
  {
    var t := ReplaceQuotes(s, with) + "'" + rest;
    if s == "" {
      assert t[1..] == rest && acc + s == acc;
    } else {
      var tail := ReplaceQuotes(s[1..], with) + "'" + rest;
      assert acc + [s[0]] + s[1..] == acc + s;
      InsideQuotes(s[1..], with, rest, acc + [s[0]]);
      if s[0] == '\'' {
        assert t == with + tail;
        QuoteStep(with, tail, acc);
      } else {
        assert t[0] == s[0] && t[1..] == tail;
      }
    }
  }

  /** In any unquoted context, before or after other text, the quoted string adds exactly itself
      to the current word. */
  lemma QuotedIsLiteral(s: string, with: string, rest: string, acc: string)
    requires with == GO_QUOTE || with == STARLARK_QUOTE
    ensures Word("'" + ReplaceQuotes(s, with) + "'" + rest, Unquoted, acc) == Word(rest, Unquoted, acc + s)
  {
    var t := "'" + ReplaceQuotes(s, with) + "'" + rest;
    assert t[1..] == ReplaceQuotes(s, with) + "'" + rest;
    InsideQuotes(s, with, rest, acc);
  }

  lemma ShellQuoteIsLiteral(s: string, rest: string, acc: string)
    ensures Word(ShellQuote(s) + rest, Unquoted, acc) == Word(rest, Unquoted, acc + s)
  {
    QuotedIsLiteral(s, GO_QUOTE, rest, acc);
  }

  lemma QuotedWords(s: string, with: string)
    requires with == GO_QUOTE || with == STARLARK_QUOTE
    ensures Words("'" + ReplaceQuotes(s, with) + "'") == Some([s])
  {
    var t := "'" + ReplaceQuotes(s, with) + "'";
    QuotedIsLiteral(s, with, "", "");
    assert t + "" == t && "" + s == s;
    assert Word(t, Unquoted, "") == Some((s, ""));
    assert t[0] == '\'' && [s] + [] == [s];
  }

  /** The two quoted forms differ as text and denote the same word: the string itself. */
  lemma QuotingsAgree(s: string)
    ensures Words(ShellQuote(s)) == Some([s])
    ensures Words("'" + ReplaceQuotes(s, STARLARK_QUOTE) + "'") == Some([s])
  {
    QuotedWords(s, GO_QUOTE);
    QuotedWords(s, STARLARK_QUOTE);
  }

  // ----- A quoted argument list on one line -----

  function ArgLine(args: seq<string>): string {
    Join(QuoteArgs(args), ' ')
  }

  predicate NeedsQuotes(a: string) {
    ' ' in a || '\'' in a
  }

  /** A `~` or `$` that the shell would expand. */
  predicate Special(a: string, i: nat)
    requires i < |a|
  {
    (a[i] == '~' && OpensTilde(a[..i])) || (a[i] == '$' && i + 1 < |a| && Expands(a[i + 1]))
  }

  /** Characters that all stand for themselves. */
  predicate Literal(a: string) {
    (forall c :: c in a ==> IsPlain(c)) && forall i :: 0 <= i < |a| ==> !Special(a, i)
  }

  /** Arguments that the shell hands over unchanged. */
  predicate SafeArg(a: string) {
    NeedsQuotes(a) || (a != "" && a[0] != '#' && Literal(a))
  }

  /** Arguments that leave no word on the line: empty, or tabs only. */
  predicate Vanishes(a: string) {
    forall c :: c in a ==> c == '\t'
  }

  /** The remainder of a line after an argument. */
  predicate Follows(rest: string) {
    rest == "" || rest[0] == ' '
  }

  /** Literal characters are read one by one, from the k-th on; what follows a last `$` must not make
      an expansion of it. */
  lemma {:induction false} PlainFrom(a: string, k: nat, rest: string)
    requires k <= |a| && Literal(a) && (a != "" && Last(a) == '$' ==> Follows(rest))
    ensures Word(a[k..] + rest, Unquoted, a[..k]) == Word(rest, Unquoted, a)
    decreases |a| - k
  {
    var s := a[k..] + rest;
    if k == |a| {
      assert s == rest && a[..k] == a;
    } else {
      assert s[0] == a[k] && s[1..] == a[k + 1..] + rest && a[..k] + [a[k]] == a[..k + 1];
      assert a[k] in a && !Special(a, k);
      assert k + 1 < |a| ==> s[1] == a[k + 1] && a[k + 1] in a;
      assert Step(s, Unquoted, a[..k]) == Go(1, Unquoted, a[..k + 1]);
      PlainFrom(a, k + 1, rest);
    }
  }

  lemma PlainPrefix(a: string, rest: string)
    requires Literal(a) && (a != "" && Last(a) == '$' ==> Follows(rest))
    ensures Word(a + rest, Unquoted, "") == Word(rest, Unquoted, a)
  {
    PlainFrom(a, 0, rest);
    assert a[0..] == a && a[..0] == "";
  }

  /** Plain characters with a `~` or `$` in the wrong place are not read. */
  lemma {:induction false} SpecialFails(a: string, k: nat, j: nat, rest: string)
    requires k <= j < |a| && (forall c :: c in a ==> IsPlain(c)) && Special(a, j)
    ensures Word(a[k..] + rest, Unquoted, a[..k]) == None
    decreases |a| - k
  {
    var s := a[k..] + rest;
    assert s[0] == a[k] && s[1..] == a[k + 1..] + rest && a[..k] + [a[k]] == a[..k + 1] && a[k] in a;
    assert k + 1 < |a| ==> s[1] == a[k + 1] && a[k + 1] in a;
    if !Special(a, k) {
      SpecialFails(a, k + 1, j, rest);
    }
  }

  lemma SafeArgIsOneWord(a: string, rest: string)
    requires SafeArg(a) && Follows(rest)
    ensures Words(QuoteArg(a) + rest) == if Words(rest).None? then None else Some([a] + Words(rest).value)
  {
    assert "" + a == a;
    var s := QuoteArg(a) + rest;
    if NeedsQuotes(a) {
      QuotedIsLiteral(a, STARLARK_QUOTE, rest, "");
      assert s[0] == '\'';
    } else {
      PlainPrefix(a, rest);
      assert Word(s, Unquoted, "") == Some((a, rest));
      assert s[0] == a[0] && IsPlain(a[0]);
    }
  }

  /** Every argument with a space or a single quote is quoted, and so safe. Of the others, a special
      character makes them unsafe, and so does an expansion. */
  lemma SpecialIsUnsafe(a: string, i: nat)
    requires i < |a| && ' ' !in a && '\'' !in a
    ensures a[i] in "|&;<>()`*?[{\"\\\t\n" || a == "" || a[0] == '#' || a[0] == '~' ==> !SafeArg(a)
    ensures a[i] == '$' && i + 1 < |a| && (IsNameChar(a[i + 1]) || a[i + 1] in "@*#?-$!{([") ==> !SafeArg(a)
    ensures i > 0 && a[i] == '~' && (a[i - 1] == '=' || (a[i - 1] == ':' && '=' in a[..i])) ==> !SafeArg(a)
  {
    assert a[i] in a;
    assert a[0] == '~' ==> Special(a, 0);
    if a[i] == '~' || a[i] == '$' {
      assert i > 0 && a[i] == '~' ==> Last(a[..i]) == a[i - 1];
      assert Special(a, i) ==> !SafeArg(a);
    }
  }

  predicate IsNameChar(c: char) {
    'a' <= c <= 'z' || 'A' <= c <= 'Z' || '0' <= c <= '9' || c == '_'
  }

  /** A character that is usual in names, paths, sizes and options. */
  predicate IsUsual(c: char) {
    IsNameChar(c) || c in "-./:,+=%@^!}]"
  }

  /** A tilde or dollar sign where it stands for itself. */
  predicate Harmless(a: string, i: nat)
    requires i < |a|
  {
    || (a[i] == '~' && i > 0 && a[i - 1] != '=' && (a[i - 1] == ':' ==> '=' !in a[..i]))
    || (a[i] == '$' && (i + 1 == |a| || a[i + 1] in "./:,+=%^}]~"))
  }

  /** Usual texts need no quotes, nor do harmless tildes and dollar signs in them. */
  lemma OrdinaryIsSafe(a: string)
    requires a != "" && forall i :: 0 <= i < |a| ==> IsUsual(a[i]) || Harmless(a, i)
    ensures SafeArg(a)
    ensures ' ' !in a && '\'' !in a && QuoteArg(a) == a
  {
    forall c | c in a ensures IsPlain(c) && c != ' ' && c != '\'' {
      var i :| 0 <= i < |a| && a[i] == c;
      UsualIsPlain(c);
    }
    forall i | 0 <= i < |a| ensures !Special(a, i) {
      HarmlessIsNotSpecial(a, i);
    }
    assert IsUsual(a[0]) || Harmless(a, 0);
  }

  lemma HarmlessIsNotSpecial(a: string, i: nat)
    requires i < |a| && (IsUsual(a[i]) || Harmless(a, i))
    ensures !Special(a, i)
  {
    assert i > 0 ==> Last(a[..i]) == a[i - 1];
  }

  lemma UsualIsPlain(c: char)
    requires IsUsual(c) || c == '~' || c == '$'
    ensures IsPlain(c) && c != ' ' && c != '\'' && c != '#'
  {
  }

  /** Outside quotes a backslash makes the next character stand for itself, and hides a line break. */
  lemma BackslashRead(c: char, rest: string, acc: string)
    ensures Word(['\\', c] + rest, Unquoted, acc) == Word(rest, Unquoted, if c == '\n' then acc else acc + [c])
    ensures Word("\\", Unquoted, acc) == None
  {
    var s := ['\\', c] + rest;
    assert s[0] == '\\' && s[1] == c && s[2..] == rest;
  }

  /** A `#` where a word could start hides the rest of its line, and inside a word it is ordinary. */
  lemma HashesRead(s: string, rest: string, acc: string)
    ensures '\n' !in s ==> Words("#" + s) == Some([])
    ensures Word("#" + rest, Unquoted, acc) == Word(rest, Unquoted, acc + "#")
  {
    assert ("#" + rest)[1..] == rest && '\n' in "#" + s <==> '\n' in s;
  }

  /** What follows an argument on the line. */
  function RestLine(args: seq<string>): (rest: string)
    ensures Follows(rest)
  {
    if args == [] then "" else " " + ArgLine(args)
  }

  /** The line of a list is its first argument followed by what is left. */
  lemma ArgLineStep(args: seq<string>)
    requires args != []
    ensures ArgLine(args) == QuoteArg(args[0]) + RestLine(args[1..])
  {
    assert QuoteArgs(args)[1..] == QuoteArgs(args[1..]);
    if |args| == 1 {
      assert QuoteArg(args[0]) + "" == QuoteArg(args[0]);
    } else {
      assert QuoteArg(args[0]) + [' '] + ArgLine(args[1..]) == QuoteArg(args[0]) + (" " + ArgLine(args[1..]));
    }
  }

  lemma RestWords(args: seq<string>)
    ensures Words(RestLine(args)) == Words(ArgLine(args))
  {
    if args != [] {
      assert RestLine(args)[1..] == ArgLine(args);
    }
  }

  function Remaining(args: seq<string>): (r: seq<string>)
    ensures |r| <= |args|
    ensures |r| == |args| <==> forall a :: a in args ==> !Vanishes(a)
    ensures |r| == |args| ==> r == args
  {
    if args == [] then []
    else (if Vanishes(args[0]) then [] else [args[0]]) + Remaining(args[1..])
  }

  lemma {:induction false} TabsAreSkipped(a: string, rest: string)
    requires Vanishes(a)
    ensures Words(a + rest) == Words(rest)
  {
    if a == "" {
      assert a + rest == rest;
    } else {
      assert (a + rest)[1..] == a[1..] + rest;
      assert a[0] in a && forall c :: c in a[1..] ==> c in a;
      TabsAreSkipped(a[1..], rest);
    }
  }

  /** Vanishing arguments disappear from the list; the safe ones arrive unchanged and in order. */
  lemma {:induction false} LineKeepsSafeArgs(args: seq<string>)
    requires forall a :: a in args ==> SafeArg(a) || Vanishes(a)
    ensures Words(ArgLine(args)) == Some(Remaining(args))
  {
    if args != [] {
      var rest := RestLine(args[1..]);
      ArgLineStep(args);
      RestWords(args[1..]);
      assert args[0] in args;
      LineKeepsSafeArgs(args[1..]);
      if Vanishes(args[0]) {
        assert !NeedsQuotes(args[0]) && Remaining(args) == Remaining(args[1..]);
        TabsAreSkipped(args[0], rest);
      } else {
        SafeArgIsOneWord(args[0], rest);
      }
    }
  }

  lemma {:induction false} RemainingAppend(x: seq<string>, y: seq<string>)
    ensures Remaining(x + y) == Remaining(x) + Remaining(y)
  {
    if x == [] {
      assert x + y == y;
    } else {
      assert (x + y)[1..] == x[1..] + y && (x + y)[0] == x[0];
      RemainingAppend(x[1..], y);
      Assoc(if Vanishes(x[0]) then [] else [x[0]], Remaining(x[1..]), Remaining(y));
    }
  }

  lemma SafeDoesNotVanish(a: string)
    requires SafeArg(a)
    ensures !Vanishes(a)
  {
    assert !NeedsQuotes(a) ==> a[0] in a;
  }

  predicate AllSafe(args: seq<string>) {
    forall a :: a in args ==> SafeArg(a)
  }

  lemma SafeArgsRemain(args: seq<string>)
    requires AllSafe(args)
    ensures Remaining(args) == args
  {
    forall a | a in args ensures !Vanishes(a) {
      SafeDoesNotVanish(a);
    }
  }

  /** One vanishing argument among safe ones: the list arrives without it, so whatever takes the
      next word takes the wrong one. */
  lemma VanishingArgIsDropped(before: seq<string>, a: string, after: seq<string>)
    requires Vanishes(a) && AllSafe(before) && AllSafe(after)
    ensures Words(ArgLine(before + [a] + after)) == Some(before + after)
  {
    LineKeepsSafeArgs(before + [a] + after);
    RemainingAppend(before + [a], after);
    RemainingAppend(before, [a]);
    SafeArgsRemain(before);
    SafeArgsRemain(after);
    assert Remaining([a]) == [] by { assert [a][1..] == []; }
    assert before + [] == before;
  }

  lemma {:induction false} WordExtends(s: string, mode: Mode, acc: string)
    ensures var w := Word(s, mode, acc); w.Some? ==> acc <= w.value.0
    decreases |s|
  {
    var m := Step(s, mode, acc);
    if m.Go? {
      WordExtends(s[m.n..], m.mode, m.word);
    }
  }

  lemma SpaceStays(s: string, mode: Mode, acc: string)
    ensures var w := Word(s, mode, acc + " "); w.Some? ==> ' ' in w.value.0
  {
    WordExtends(s, mode, acc + " ");
    var w := Word(s, mode, acc + " ");
    if w.Some? {
      assert w.value.0[|acc|] == ' ';
    }
  }

  /** Some character does not stand for itself. */
  predicate Odd(u: string) {
    exists c :: c in u && !IsPlain(c)
  }

  /** A word that starts in the unquoted text `u` has a space in it, or it ends in `u`. It is then no
      longer than what it took, and shorter than `u` if `u` holds anything odd. */
  predicate EndsInside(u: string, rest: string, odd: bool, acc: string, w: (string, string)) {
    || ' ' in w.0
    || (&& |rest| <= |w.1| && |w.0| + |w.1| <= |acc| + |u| + |rest|
        && (odd ==> |w.0| < |acc| + |u|))
  }

  /** A word that goes on behind `u` does so inside double quotes, over the space that follows. */
  lemma WordBehind(rest: string, mode: Mode, acc: string)
    requires Follows(rest) && !mode.Single?
    ensures var w := Word(rest, mode, acc); w.Some? ==> EndsInside("", rest, mode.Double?, acc, w.value)
  {
    if mode.Double? && rest != "" {
      SpaceStays(rest[1..], Double, acc);
    }
  }

  /** A step that takes the space behind `u` puts it into the word. */
  lemma StepOver(u: string, rest: string, mode: Mode, acc: string)
    requires |u| == 1 && u[0] != '\'' && Follows(rest) && !mode.Single?
    requires Step(u + rest, mode, acc).Go? && Step(u + rest, mode, acc).n == 2
    ensures var w := Word(u + rest, mode, acc); w.Some? ==> ' ' in w.value.0
  {
    var s := u + rest;
    assert s[1] == ' ' && s[2..] == rest[1..];
    assert Step(s, mode, acc) == Go(2, Unquoted, acc + " ");
    SpaceStays(rest[1..], Unquoted, acc);
  }

  lemma OddRest(u: string, n: nat)
    requires 1 <= n <= 2 && n <= |u| && Odd(u) && !Odd(u[n..])
    ensures !IsPlain(u[0]) || (n == 2 && !IsPlain(u[1]))
  {
    var c :| c in u && !IsPlain(c);
    assert forall d :: d in u ==> d in u[..n] || d in u[n..];
  }

  lemma {:induction false} UnquotedWordIsShort(u: string, rest: string, mode: Mode, acc: string)
    requires !NeedsQuotes(u) && Follows(rest) && !mode.Single?
    ensures var w := Word(u + rest, mode, acc); w.Some? ==> EndsInside(u, rest, mode.Double? || Odd(u), acc, w.value)
    decreases |u|
  {
    var s, m := u + rest, Step(u + rest, mode, acc);
    if u == "" {
      assert s == rest;
      WordBehind(rest, mode, acc);
    } else if m.Go? && m.n > |u| {
      StepOver(u, rest, mode, acc);
    } else if m.Go? {
      var left := u[m.n..];
      assert s[m.n..] == left + rest && s[0] == u[0] && u[0] in u;
      assert m.n == 2 ==> s[1] == u[1] && u[1] in u;
      UnquotedWordIsShort(left, rest, m.mode, m.word);
      if Odd(u) && !Odd(left) {
        OddRest(u, m.n);
      }
    }
  }

  /** An unsafe argument that does not vanish is never the first word of the line it starts. */
  lemma {:induction false} UnsafeArgIsLost(a: string, u: string, rest: string)
    requires !SafeArg(a) && !Vanishes(u) && Follows(rest)
    requires |u| < |a| || u == a
    requires !NeedsQuotes(u)
    ensures var ws := Words(u + rest); ws.Some? && ws.value != [] ==> ws.value[0] != a
    decreases |u|
  {
    var s := u + rest;
    assert s[0] == u[0] && s[1..] == u[1..] + rest && u[0] in u;
    assert forall c :: c in u ==> c == u[0] || c in u[1..];
    if u[0] == '\t' {
      UnsafeArgIsLost(a, u[1..], rest);
    } else if u[0] != '#' && u[0] != '\n' {
      UnquotedWordIsShort(u, rest, Unquoted, "");
      if u == a && !Odd(a) {
        var j :| 0 <= j < |a| && Special(a, j);
        SpecialFails(a, 0, j, rest);
        assert a[0..] == a && a[..0] == "";
      }
    }
  }

  lemma HeadsDiffer(x: string, xs: seq<string>, p: seq<string>, b: seq<string>)
    requires p != []
    ensures [x] + xs == p + b ==> x == p[0] && xs == p[1..] + b
  {
    assert ([x] + xs)[0] == x && ([x] + xs)[1..] == xs;
    assert (p + b)[0] == p[0] && (p + b)[1..] == p[1..] + b;
  }

  /** Once the words lag behind the arguments they never catch up: `p` is what should still come from
      arguments that were passed, and the unquoted text `u` is all that is left of these. */
  lemma {:induction false} WordsNeverCatchUp(p: seq<string>, u: string, b: seq<string>)
    requires p != [] && !NeedsQuotes(u) && forall x :: x in p ==> !NeedsQuotes(x)
    requires |u| <= |Last(p)| && (|p| == 1 ==> |u| < |p[0]| || Vanishes(u))
    ensures Words(u + RestLine(b)) != Some(p + b)
    decreases |b|, |u|, 1
  {
    var rest := RestLine(b);
    var s := u + rest;
    if u == "" {
      assert s == rest;
      NextArgLags(p, b);
    } else if u[0] == '\t' {
      assert s[1..] == u[1..] + rest;
      WordsNeverCatchUp(p, u[1..], b);
    } else if u[0] != '#' && u[0] != '\n' {
      assert s[0] == u[0] && u[0] in u;
      var w := Word(s, Unquoted, "");
      UnquotedWordIsShort(u, rest, Unquoted, "");
      WordConsumes(s, Unquoted, "");
      if w.Some? && Words(w.value.1).Some? {
        HeadsDiffer(w.value.0, Words(w.value.1).value, p, b);
        if w.value.0 == p[0] {
          FirstWordTaken(p, u, b, w.value.1);
        }
      }
    } else {
      assert s[0] == u[0];
    }
  }

  lemma {:induction false} FirstWordTaken(p: seq<string>, u: string, b: seq<string>, after: string)
    requires p != [] && !NeedsQuotes(u) && (forall x :: x in p ==> !NeedsQuotes(x)) && |u| <= |Last(p)|
    requires |p| == 1 ==> |u| < |p[0]|
    requires var s := u + RestLine(b); |after| < |s| && after == s[|s| - |after|..]
    requires EndsInside(u, RestLine(b), Odd(u), "", (p[0], after))
    ensures Words(after) != Some(p[1..] + b)
    decreases |b|, |u|, 0
  {
    var s := u + RestLine(b);
    var left := u[|s| - |after|..];
    assert p[0] in p && after == left + RestLine(b);
    WordsNeverCatchUp(p[1..], left, b);
  }

  lemma {:induction false} NextArgLags(p: seq<string>, b: seq<string>)
    requires p != [] && forall x :: x in p ==> !NeedsQuotes(x)
    ensures Words(RestLine(b)) != Some(p + b)
    decreases |b|, 0, 0
  {
    RestWords(b);
    if b != [] {
      ArgLineStep(b);
      var rest := RestLine(b[1..]);
      if NeedsQuotes(b[0]) {
        SafeArgIsOneWord(b[0], rest);
        assert p[0] in p;
        if Words(rest).Some? {
          HeadsDiffer(b[0], Words(rest).value, p, b);
        }
      } else {
        WordsNeverCatchUp(p + [b[0]], b[0], b[1..]);
        Assoc(p, [b[0]], b[1..]);
        assert [b[0]] + b[1..] == b;
      }
    }
  }

  /** A list comes back from its line if and only if every argument is safe: quoted because of a space
      or a single quote, or made of plain characters. */
  lemma {:induction false} LineDecodesIff(args: seq<string>)
    ensures Words(ArgLine(args)) == Some(args) <==> AllSafe(args)
  {
    if args != [] {
      var rest := RestLine(args[1..]);
      ArgLineStep(args);
      RestWords(args[1..]);
      LineDecodesIff(args[1..]);
      assert args == [args[0]] + args[1..] && args[0] in args;
      assert forall a :: a in args ==> a == args[0] || a in args[1..];
      if SafeArg(args[0]) {
        SafeArgIsOneWord(args[0], rest);
      } else if Vanishes(args[0]) {
        TabsAreSkipped(args[0], rest);
        WordsNeverCatchUp([args[0]], "", args[1..]);
        assert "" + rest == rest;
      } else {
        UnsafeArgIsLost(args[0], args[0], rest);
      }
    }
  }

  // ----- Double quotes -----

  /** Values that a pair of double quotes protects: no closing quote, no expansion, and no
      backslash before a character that it would escape, the closing quote included. */
  predicate DoubleSafe(v: string) {
    || v == ""
    || (&& v[0] != '"' && v[0] != '`'
        && (v[0] == '$' && |v| >= 2 ==> !Expands(v[1]))
        && (v[0] == '\\' ==> |v| >= 2 && v[1] !in "$`\"\\\n")
        && DoubleSafe(v[1..]))
  }

  lemma {:induction false} InsideDouble(v: string, rest: string, acc: string)
    requires DoubleSafe(v)
    ensures Word(v + "\"" + rest, Double, acc) == Word(rest, Unquoted, acc + v)
    decreases |v|
  {
    var s := v + "\"" + rest;
    if v == "" {
      assert s[1..] == rest && acc + v == acc;
    } else {
      assert s[1..] == v[1..] + "\"" + rest && acc + [v[0]] + v[1..] == acc + v;
      InsideDouble(v[1..], rest, acc + [v[0]]);
    }
  }

  /** Behind `rest` no quotation is open, so a word that stops there is outside quotes. */
  lemma StopsUnquoted(rest: string, mode: Mode, acc: string)
    requires rest == "" || EndsWord(rest[0])
    ensures var w := Word(rest, mode, acc); w.Some? && w.value.1 == rest ==> mode.Unquoted? && w.value.0 == acc
  {
    WordConsumes(rest, mode, acc);
  }

  /** However a text goes on, a double quote left at its end costs a character. */
  lemma {:induction false} ClosingQuoteCosts(u: string, rest: string, mode: Mode, acc: string)
    requires rest == "" || EndsWord(rest[0])
    ensures var w := Word(u + "\"" + rest, mode, acc); w.Some? && w.value.1 == rest ==> |w.value.0| <= |acc| + |u|
    decreases |u|
  {
    var s, m := u + "\"" + rest, Step(u + "\"" + rest, mode, acc);
    if m.Go? && m.n <= |u| {
      assert s[m.n..] == u[m.n..] + "\"" + rest;
      ClosingQuoteCosts(u[m.n..], rest, m.mode, m.word);
    } else if m.Go? {
      assert s[|u| + 1..] == rest;
      CrossingStep(u, rest, mode, acc);
    }
  }

  /** The step that takes the closing quote. */
  lemma CrossingStep(u: string, rest: string, mode: Mode, acc: string)
    requires rest == "" || EndsWord(rest[0])
    requires var m := Step(u + "\"" + rest, mode, acc); m.Go? && m.n > |u|
    ensures var w := Word(u + "\"" + rest, mode, acc); w.Some? && w.value.1 == rest ==> |w.value.0| <= |acc| + |u|
  {
    var s, m := u + "\"" + rest, Step(u + "\"" + rest, mode, acc);
    WordConsumes(s[m.n..], m.mode, m.word);
    if m.n == |u| + 1 {
      assert s[m.n..] == rest;
      StopsUnquoted(rest, m.mode, m.word);
    }
  }

  lemma {:induction false} UnsafeInsideDouble(v: string, rest: string, acc: string)
    requires !DoubleSafe(v) && (rest == "" || EndsWord(rest[0]))
    ensures Word(v + "\"" + rest, Double, acc) != Some((acc + v, rest))
    decreases |v|
  {
    var s := v + "\"" + rest;
    assert s[0] == v[0] && s[1..] == v[1..] + "\"" + rest;
    if v[0] == '"' {
      ClosingQuoteCosts(v[1..], rest, Unquoted, acc);
    } else if v[0] == '\\' && |v| >= 2 && (v[1] in "$`\"\\" || v[1] == '\n') {
      assert s[1] == v[1] && s[2..] == v[2..] + "\"" + rest;
      ClosingQuoteCosts(v[2..], rest, Double, acc);
      ClosingQuoteCosts(v[2..], rest, Double, acc + [v[1]]);
    } else if v[0] == '\\' && |v| == 1 {
      assert s[1] == '"' && s[2..] == rest;
      StopsUnquoted(rest, Double, acc + "\"");
    } else if v[0] != '`' && !QuotedDollarExpands(s) {
      UnsafeInsideDouble(v[1..], rest, acc + [v[0]]);
      assert acc + [v[0]] + v[1..] == acc + v;
    }
  }

  /** A name is a plain word without `=`, `~` and `$`. */
  predicate IsName(name: string) {
    forall c :: c in name ==> IsPlain(c) && c != '=' && c != '~' && c != '$'
  }

  /** The word of vm_go_test.bzl's `export NAME="value"`. */
  function Assignment(name: string, value: string): string {
    name + "=\"" + value + "\""
  }

  lemma NameIsTame(name: string)
    requires IsName(name)
    ensures Literal(name + "=")
  {
    var t := name + "=";
    assert forall c :: c in t ==> c in name || c == '=';
    forall i | 0 <= i < |t| ensures !Special(t, i) {
      assert t[i] in t;
    }
  }

  lemma OpeningQuote(rest: string, acc: string)
    ensures Word("\"" + rest, Unquoted, acc) == Word(rest, Double, acc)
  {
    assert ("\"" + rest)[1..] == rest;
  }

  lemma AssignmentOpens(name: string, rest: string)
    requires IsName(name)
    ensures Word(name + "=\"" + rest, Unquoted, "") == Word(rest, Double, name + "=")
  {
    NameIsTame(name);
    PlainPrefix(name + "=", "\"" + rest);
    OpeningQuote(rest, name + "=");
    assert "=\"" == "=" + "\"";
    Assoc(name, "=", "\"");
    Assoc(name + "=", "\"", rest);
  }

  lemma AssignmentIsLiteral(name: string, value: string, rest: string)
    requires IsName(name) && DoubleSafe(value)
    ensures Word(Assignment(name, value) + rest, Unquoted, "") == Word(rest, Unquoted, name + "=" + value)
  {
    assert Assignment(name, value) + rest == name + "=\"" + (value + "\"" + rest);
    AssignmentOpens(name, value + "\"" + rest);
    InsideDouble(value, rest, name + "=");
  }

  /** A value survives the unescaped `"{}"` template exactly when double quotes protect it. */
  lemma AssignmentDecodesIff(name: string, value: string)
    requires IsName(name)
    ensures Word(Assignment(name, value), Unquoted, "") == Some((name + "=" + value, "")) <==> DoubleSafe(value)
  {
    if DoubleSafe(value) {
      AssignmentIsLiteral(name, value, "");
      assert Assignment(name, value) + "" == Assignment(name, value);
    } else {
      assert Assignment(name, value) == name + "=\"" + (value + "\"");
      AssignmentOpens(name, value + "\"");
      UnsafeInsideDouble(value, "", name + "=");
      assert value + "\"" + "" == value + "\"";
    }
  }
}
