/** Decimal printing (`%d`, Starlark `str`) and Go's integer parsing. */
module Numbers {
  import opened Sequences

  /** Integer attributes of Bazel rules. */
  type int32 = x: int | -0x8000_0000 <= x < 0x8000_0000

  predicate InInt64(n: int) {
    -0x8000_0000_0000_0000 <= n < 0x8000_0000_0000_0000
  }

  const HEX_DIGITS := "0123456789abcdef"

  function DigitValue(c: char): Option<nat> {
    if '0' <= c <= '9' then Some((c - '0') as nat)
    else if 'a' <= c <= 'z' then Some((c - 'a') as nat + 10)
    else if 'A' <= c <= 'Z' then Some((c - 'A') as nat + 10)
    else None
  }

  function DigitChar(d: nat): (c: char)
    requires d < 16
    ensures DigitValue(c) == Some(d)
    ensures (d < 10 ==> '0' <= c <= '9') && (d >= 10 ==> 'a' <= c <= 'f') && (c == '0' <==> d == 0)
  {
    HEX_DIGITS[d]
  }

  /** `n` in base ten, most significant digit first and without leading zeros. */
  function Digits(n: nat): (s: string)
    ensures s != ""
    ensures forall c :: c in s ==> '0' <= c <= '9'
  {
    if n < 10 then [DigitChar(n)] else Digits(n / 10) + [DigitChar(n % 10)]
  }

  function Decimal(n: int): (s: string)
    ensures s != ""
    ensures forall c :: c in s ==> c == '-' || '0' <= c <= '9'
  {
    if n < 0 then "-" + Digits(-n) else Digits(n)
  }

  /** The number a non-empty string of digits denotes. */
  function ParseDigits(s: string, base: nat): Option<nat> {
    if s == "" then None
    else
      var d := DigitValue(Last(s));
      if d.None? || d.value >= base then None
      else if |s| == 1 then d
      else
        var rest := ParseDigits(Front(s), base);
        if rest.None? then None else Some(rest.value * base + d.value)
  }

  function Signed(s: string, magnitude: Option<nat>): Option<int> {
    if magnitude.None? then None
    else
      var m: int := magnitude.value;
      var n := if s != "" && s[0] == '-' then -m else m;
      if InInt64(n) then Some(n) else None
  }

  function Unsigned(s: string): string {
    if s != "" && (s[0] == '-' || s[0] == '+') then s[1..] else s
  }

  /** `strconv.Atoi` on a 64-bit platform. */
  function Atoi(s: string): Option<int> {
    Signed(s, ParseDigits(Unsigned(s), 10))
  }

  /** `strconv.ParseInt(s, 0, 64)`, which flag.Int uses: the prefix of the digits chooses the base. */
  function ParseInt0(s: string): Option<int> {
    var u := Unsigned(s);
    Signed(s,
      if u == "0" then Some(0)
      else if |u| >= 3 && u[0] == '0' && u[1] in "bB" then ParseDigits(u[2..], 2)
      else if |u| >= 3 && u[0] == '0' && u[1] in "oO" then ParseDigits(u[2..], 8)
      else if |u| >= 3 && u[0] == '0' && u[1] in "xX" then ParseDigits(u[2..], 16)
      else if |u| >= 2 && u[0] == '0' then ParseDigits(u[1..], 8)
      else ParseDigits(u, 10))
  }

  lemma {:induction false} ParseInvertsDigits(n: nat)
    ensures ParseDigits(Digits(n), 10) == Some(n)
    ensures n != 0 ==> Digits(n)[0] != '0'
  {
    if n >= 10 {
      ParseInvertsDigits(n / 10);
      assert Front(Digits(n)) == Digits(n / 10) && Last(Digits(n)) == DigitChar(n % 10);
    }
  }

  lemma DecimalParts(n: int)
    ensures Unsigned(Decimal(n)) == Digits(if n < 0 then -n else n)
    ensures Decimal(n)[0] == '-' <==> n < 0
  {
    var m := if n < 0 then -n else n;
    assert Digits(m)[0] in Digits(m);
  }

  /** Both parsers read a printed decimal back, whatever its sign, within 64 bits and only there. */
  lemma DecimalRoundTrip(n: int)
    ensures Atoi(Decimal(n)) == if -9223372036854775808 <= n <= 9223372036854775807 then Some(n) else None
    ensures ParseInt0(Decimal(n)) == Atoi(Decimal(n))
  {
    DecimalParts(n);
    ParseInvertsDigits(if n < 0 then -n else n);
  }

  /** A plus sign changes nothing, a second sign is no digit, and a sign alone is no number. */
  lemma SignsRead(n: nat)
    requires InInt64(n)
    ensures Atoi("+" + Digits(n)) == Atoi(Digits(n)) == Some(n)
    ensures Atoi("-" + Digits(n)) == Some(-(n as int))
    ensures Atoi("+").None? && Atoi("-").None? && Atoi("").None?
  {
    ParseInvertsDigits(n);
    var d := Digits(n);
    assert ("+" + d)[1..] == d && ("-" + d)[1..] == d && d[0] in d;
  }

  /** The prefixes that flag.Int knows, in either case. */
  lemma PrefixesRead(x: char, s: string)
    requires s != ""
    ensures x == 'x' || x == 'X' ==> ParseInt0(['0', x] + s) == Signed("", ParseDigits(s, 16))
    ensures x == 'o' || x == 'O' ==> ParseInt0(['0', x] + s) == Signed("", ParseDigits(s, 8))
    ensures x == 'b' || x == 'B' ==> ParseInt0(['0', x] + s) == Signed("", ParseDigits(s, 2))
  {
    var u := ['0', x] + s;
    assert u[2..] == s && u[0] == '0' && u[1] == x && Unsigned(u) == u;
  }

  /** A letter is a digit in either case. */
  lemma HexLetters(c: char)
    ensures 'a' <= c <= 'f' ==> DigitValue(c) == Some((c as int - 'a' as int) + 10) == DigitValue(c - 'a' + 'A')
  {
  }

  lemma DecimalInjective(m: int, n: int)
    requires Decimal(m) == Decimal(n)
    ensures m == n
  {
    DecimalParts(m);
    DecimalParts(n);
    ParseInvertsDigits(if m < 0 then -m else m);
    ParseInvertsDigits(if n < 0 then -n else n);
  }

  predicate AllDigits(s: string) {
    forall c :: c in s ==> '0' <= c <= '9'
  }

  /** Zeros before the last character. */
  predicate ZerosBefore(s: string) {
    forall i :: 0 <= i < |s| - 1 ==> s[i] == '0'
  }

  /** A digit string in base eight, if it is one, is no more than in base ten, and as much exactly if
      nothing but zeros comes before the last digit. */
  lemma {:induction false} OctalIsLess(s: string)
    requires s != "" && AllDigits(s)
    ensures var ten, eight := ParseDigits(s, 10), ParseDigits(s, 8);
      (&& ten.Some? && (ten.value == 0 <==> ZerosBefore(s) && Last(s) == '0')
       && (eight.Some? ==> eight.value <= ten.value && (eight.value == ten.value <==> ZerosBefore(s)))
       && (eight.Some? ==> Last(s) <= '7') && (ZerosBefore(s) && Last(s) <= '7' ==> eight.Some?))
  {
    assert Last(s) in s;
    if |s| > 1 {
      var front := Front(s);
      assert forall c :: c in front ==> c in s;
      assert Last(front) == s[|s| - 2];
      assert ZerosBefore(s) <==> ZerosBefore(front) && Last(front) == '0';
      OctalIsLess(front);
    }
  }

  lemma {:induction false} LeadingZero(s: string)
    requires s != "" && AllDigits(s)
    ensures ParseDigits("0" + s, 10) == ParseDigits(s, 10)
  {
    assert Last("0" + s) == Last(s) && Front("0" + s) == "0" + Front(s) && Last(s) in s;
    if |s| > 1 {
      assert forall c :: c in Front(s) ==> c in s;
      LeadingZero(Front(s));
    } else {
      assert "0" + Front(s) == "0" && ParseDigits("0", 10) == Some(0);
    }
  }

  lemma ZerosShift(s: string)
    ensures s != "" ==> (ZerosBefore("0" + s) <==> ZerosBefore(s))
  {
    var t := "0" + s;
    assert forall i :: 0 <= i < |s| ==> s[i] == t[i + 1];
    assert forall i :: 1 <= i < |t| ==> t[i] == s[i - 1];
  }

  lemma ZeroMeansOctal(s: string)
    requires |s| > 1 && s[0] == '0' && AllDigits(s)
    ensures ParseInt0(s) == Signed(s, ParseDigits(s[1..], 8))
  {
    assert s[1] in s;
  }

  /** A digit string that Atoi reads is read alike by flag.Int if and only if it does not start with a
      zero, or is zeros before a last digit below eight: other leading zeros mean base eight. */
  lemma BaseZeroAgreesIff(s: string)
    requires s != "" && AllDigits(s) && Atoi(s).Some?
    ensures ParseInt0(s) == Atoi(s) <==> s[0] != '0' || (ZerosBefore(s) && Last(s) <= '7')
  {
    assert s[0] in s;
    if s[0] == '0' && |s| > 1 {
      var rest := s[1..];
      assert (forall c :: c in rest ==> c in s) && s == "0" + rest && Last(rest) == Last(s);
      ZeroMeansOctal(s);
      ZerosShift(rest);
      OctalIsLess(rest);
      LeadingZero(rest);
    }
  }

  // ----- Trimming and lists of numbers -----

  predicate IsSpace(c: char) {
    c in " \t\n\r" || c == '\U{000B}' || c == '\U{000C}'
  }

  function TrimLeft(s: string): string {
    if s != "" && IsSpace(s[0]) then TrimLeft(s[1..]) else s
  }

  function TrimRight(s: string): string {
    if s != "" && IsSpace(Last(s)) then TrimRight(Front(s)) else s
  }

  /** `strings.TrimSpace` for ASCII. */
  function TrimSpace(s: string): string {
    TrimRight(TrimLeft(s))
  }

  lemma TrimNothing(s: string)
    requires s != "" ==> !IsSpace(s[0]) && !IsSpace(Last(s))
    ensures TrimSpace(s) == s
  {
  }

  /** Blanks, tabs, line breaks and form feeds only. */
  predicate AllSpace(s: string) {
    forall c :: c in s ==> c == ' ' || '\t' <= c <= '\r'
  }

  predicate PadsWith(before: string, core: string, after: string, text: string) {
    AllSpace(before) && AllSpace(after) && text == before + core + after
  }

  /** A text with space around a core that has none at its ends. */
  ghost predicate Pads(text: string, core: string) {
    && (exists before, after :: PadsWith(before, core, after, text))
    && (core != "" ==> !AllSpace([core[0]]) && !AllSpace([Last(core)]))
  }

  lemma {:induction false} TrimLeftOf(before: string, rest: string)
    requires AllSpace(before) && (rest != "" ==> !IsSpace(rest[0]))
    ensures TrimLeft(before + rest) == rest
  {
    if before == "" {
      assert before + rest == rest;
    } else {
      assert (before + rest)[1..] == before[1..] + rest && before[0] in before;
      assert forall c :: c in before[1..] ==> c in before;
      TrimLeftOf(before[1..], rest);
    }
  }

  lemma {:induction false} TrimRightOf(core: string, after: string)
    requires AllSpace(after) && (core != "" ==> !IsSpace(Last(core)))
    ensures TrimRight(core + after) == core
  {
    if after == "" {
      assert core + after == core;
    } else {
      assert Front(core + after) == core + Front(after) && Last(after) in after;
      assert forall c :: c in Front(after) ==> c in after;
      TrimRightOf(core, Front(after));
    }
  }

  /** Trimming gives the core back, whatever space is around it. */
  lemma TrimsToCore(text: string, core: string)
    requires Pads(text, core)
    ensures TrimSpace(text) == core
  {
    var before, after :| PadsWith(before, core, after, text);
    if core == "" {
      assert text == (before + after) + "" && "" + "" == "";
      TrimLeftOf(before + after, "");
    } else {
      assert core[0] in [core[0]] && Last(core) in [Last(core)];
      Assoc(before, core, after);
      TrimLeftOf(before, core + after);
      TrimRightOf(core, after);
    }
  }

  /** Nothing but space is lost. */
  lemma {:induction false} TrimKeeps(s: string, c: char)
    requires c in s && !AllSpace([c])
    ensures c in TrimSpace(s)
    decreases |s|
  {
    if IsSpace(s[0]) {
      assert c in s[1..];
      TrimKeeps(s[1..], c);
    } else if IsSpace(Last(s)) {
      assert c in Front(s) && Front(s)[0] == s[0];
      TrimKeeps(Front(s), c);
    }
  }

  /** Only digits are read as a number. */
  lemma {:induction false} OnlyDigitsParse(s: string)
    requires ParseDigits(s, 10).Some?
    ensures AllDigits(s)
  {
    assert s == Front(s) + [Last(s)];
    if |s| > 1 {
      OnlyDigitsParse(Front(s));
    }
  }

  /** Atoi after trimming reads a decimal with any space around it, and no text with other characters
      than space, digits and signs. */
  lemma PaddedNumber(text: string, n: int)
    requires Pads(text, Decimal(n)) && InInt64(n)
    ensures Atoi(TrimSpace(text)) == Some(n)
  {
    TrimsToCore(text, Decimal(n));
    DecimalRoundTrip(n);
  }

  lemma JunkIsNoNumber(text: string, c: char)
    requires c in text && !AllSpace([c]) && !('0' <= c <= '9') && c != '-' && c != '+'
    ensures Atoi(TrimSpace(text)) == None
  {
    TrimKeeps(text, c);
    var s := TrimSpace(text);
    assert s == Unsigned(s) || s == [s[0]] + Unsigned(s);
    if ParseDigits(Unsigned(s), 10).Some? {
      OnlyDigitsParse(Unsigned(s));
    }
  }

  function Decimals(ns: seq<int>): (items: seq<string>)
    ensures |items| == |ns|
    ensures forall item :: item in items ==> item != "" && ',' !in item
  {
    if ns == [] then [] else [Decimal(ns[0])] + Decimals(ns[1..])
  }

  /** `",".join([str(p) for p in ports])`. */
  function RenderPorts(ports: seq<int>): string {
    Join(Decimals(ports), ',')
  }

  /** Trim and Atoi each item in order; the first failure ends the loop. */
  function ParseItems(items: seq<string>): Option<seq<int>> {
    if items == [] then Some([])
    else
      var n := Atoi(TrimSpace(items[0]));
      if n.None? then None
      else
        var rest := ParseItems(items[1..]);
        if rest.None? then None else Some([n.value] + rest.value)
  }

  function ParsePorts(s: string): Option<seq<int>> {
    ParseItems(Split(s, ','))
  }

  lemma ItemParses(n: int)
    requires InInt64(n)
    ensures Atoi(TrimSpace(Decimal(n))) == Some(n)
  {
    var d := Decimal(n);
    assert d[0] in d && Last(d) in d;
    TrimNothing(d);
    DecimalRoundTrip(n);
  }

  lemma {:induction false} ParseItemsInverts(ports: seq<int>)
    requires forall p :: p in ports ==> InInt64(p)
    ensures ParseItems(Decimals(ports)) == Some(ports)
  {
    if ports != [] {
      ParseItemsInverts(ports[1..]);
      ItemParses(ports[0]);
      assert Decimals(ports)[1..] == Decimals(ports[1..]) && Decimals(ports)[0] == Decimal(ports[0]);
      assert [ports[0]] + ports[1..] == ports;
    }
  }

  /** Every non-empty list of ports survives printing, joining, splitting, trimming and parsing. */
  lemma PortsRoundTrip(ports: seq<int>)
    requires ports != [] && forall p :: p in ports ==> InInt64(p)
    ensures RenderPorts(ports) != "" && ParsePorts(RenderPorts(ports)) == Some(ports)
  {
    assert Decimals(ports)[0] in Decimals(ports);
    JoinInverts(Decimals(ports), ',');
    ParseItemsInverts(ports);
  }

  lemma {:induction false} PaddedItemsParse(texts: seq<string>, ports: seq<int>)
    requires |texts| == |ports| && forall i :: 0 <= i < |ports| ==> Pads(texts[i], Decimal(ports[i])) && InInt64(ports[i])
    ensures ParseItems(texts) == Some(ports)
  {
    if ports != [] {
      PaddedNumber(texts[0], ports[0]);
      PaddedItemsParse(texts[1..], ports[1..]);
      assert [ports[0]] + ports[1..] == ports;
    }
  }

  /** A list that was written by hand, with space around its numbers, is read alike. */
  lemma PaddedPortsParse(texts: seq<string>, ports: seq<int>)
    requires |texts| == |ports| > 0 && (forall text :: text in texts ==> ',' !in text)
    requires forall i :: 0 <= i < |ports| ==> Pads(texts[i], Decimal(ports[i])) && InInt64(ports[i])
    ensures ParsePorts(Join(texts, ',')) == Some(ports)
  {
    JoinInverts(texts, ',');
    PaddedItemsParse(texts, ports);
  }
}
