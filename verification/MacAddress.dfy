/** `macFromTap` of machine/machine.go, and the addresses of IEEE Std 802-2014, clause 8. */
module MacAddress {
  import opened Sequences
  import opened Numbers

  // ----- The function -----

  predicate IsHex(c: char) {
    '0' <= c <= '9' || 'a' <= c <= 'f'
  }

  function Hex(n: nat): (s: string)
    ensures s != "" && forall c :: c in s ==> IsHex(c)
  {
    if n < 16 then [DigitChar(n)] else Hex(n / 16) + [DigitChar(n % 16)]
  }

  /** `%02x`. */
  function Hex02(n: int): string {
    if n < 0 then "-" + Hex(-n)
    else if n < 16 then "0" + Hex(n)
    else Hex(n)
  }

  /** The position of the last `tap`, as strings.LastIndex finds it. */
  function LastTap(s: string): (r: Option<nat>)
    ensures r.Some? ==> r.value + 3 <= |s|
  {
    if |s| < 3 then None
    else if s[|s| - 3..] == "tap" then Some(|s| - 3)
    else LastTap(Front(s))
  }

  /** The number after it, zero if there is none. */
  function TapIndex(tap: string): int {
    var i := LastTap(tap);
    if i.None? then 0
    else
      var n := Atoi(tap[i.value + 3..]);
      if n.Some? then n.value else 0
  }

  function MacFromTap(tap: string): string {
    "02:00:00:00:00:" + Hex02(TapIndex(tap))
  }

  // ----- Addresses -----

  /** Two hexadecimal digits. */
  predicate IsOctet(s: string) {
    |s| == 2 && ParseDigits(s, 16).Some?
  }

  /** Six octets, separated by colons. */
  predicate WellFormed(mac: string) {
    var octets := Split(mac, ':');
    |octets| == 6 && forall i :: 0 <= i < 6 ==> IsOctet(octets[i])
  }

  /** The value of the first octet. */
  function FirstOctet(mac: string): nat {
    var octet := ParseDigits(Split(mac, ':')[0], 16);
    if octet.Some? then octet.value else 0
  }

  /** The lowest bit tells group addresses from individual ones. */
  predicate Unicast(mac: string) {
    FirstOctet(mac) % 2 == 0
  }

  /** The bit above it tells local addresses from universal ones. */
  predicate LocallyAdministered(mac: string) {
    FirstOctet(mac) / 2 % 2 == 1
  }

  // ----- Properties -----

  lemma {:induction false} ParseInvertsHex(n: nat)
    ensures ParseDigits(Hex(n), 16) == Some(n)
  {
    if n >= 16 {
      ParseInvertsHex(n / 16);
      assert Front(Hex(n)) == Hex(n / 16) && Last(Hex(n)) == DigitChar(n % 16);
    }
  }

  lemma HexLength(n: nat)
    ensures |Hex(n)| == 1 <==> n < 16
    ensures |Hex(n)| == 2 <==> 16 <= n < 256
  {
    if n >= 16 {
      assert |Hex(n)| == |Hex(n / 16)| + 1;
      if n / 16 >= 16 {
        assert |Hex(n / 16)| == |Hex(n / 16 / 16)| + 1;
      }
    }
  }

  lemma PaddedParses(n: nat)
    ensures ParseDigits(Hex02(n), 16) == Some(n)
    ensures |Hex02(n)| == 2 <==> n < 256
  {
    ParseInvertsHex(n);
    HexLength(n);
    if n < 16 {
      var s := Hex02(n);
      assert Front(s) == "0" && Last(s) == DigitChar(n) && ParseDigits("0", 16) == Some(0);
    }
  }

  lemma Signs(n: int)
    ensures Hex02(n) != "" && (Hex02(n)[0] == '-' <==> n < 0) && ':' !in Hex02(n)
  {
    assert n >= 16 ==> Hex(n)[0] in Hex(n);
  }

  lemma NegativeInjective(m: nat, n: nat)
    requires "-" + Hex(m) == "-" + Hex(n)
    ensures m == n
  {
    assert ("-" + Hex(m))[1..] == Hex(m) && ("-" + Hex(n))[1..] == Hex(n);
    ParseInvertsHex(m);
    ParseInvertsHex(n);
  }

  lemma Hex02Injective(m: int, n: int)
    requires Hex02(m) == Hex02(n)
    ensures m == n
  {
    Signs(m);
    Signs(n);
    if m < 0 {
      NegativeInjective(-m, -n);
    } else {
      PaddedParses(m);
      PaddedParses(n);
    }
  }

  function Zeros(n: nat, h: string): string {
    if n == 0 then h else "00" + [':'] + Zeros(n - 1, h)
  }

  lemma {:induction false} SplitZeros(n: nat, h: string)
    requires ':' !in h
    ensures Split(Zeros(n, h), ':') == seq(n, i => "00") + [h]
  {
    if n == 0 {
      SplitWhole(h, ':');
    } else {
      SplitAtSeparator("00", Zeros(n - 1, h), ':');
      SplitZeros(n - 1, h);
    }
  }

  lemma FourZeros(h: string)
    ensures Zeros(4, h) == "00:00:00:00:" + h
  {
    assert Zeros(0, h) == h;
    assert Zeros(1, h) == "00:" + h;
    assert Zeros(2, h) == "00:" + Zeros(1, h);
    assert Zeros(3, h) == "00:" + Zeros(2, h);
    assert Zeros(4, h) == "00:" + Zeros(3, h);
  }

  /** The octets of a generated address. */
  lemma Octets(tap: string)
    ensures var octets := Split(MacFromTap(tap), ':');
      (&& |octets| == 6 && octets[0] == "02" && octets[5] == Hex02(TapIndex(tap))
       && forall i :: 1 <= i < 5 ==> octets[i] == "00")
  {
    var h := Hex02(TapIndex(tap));
    Signs(TapIndex(tap));
    FourZeros(h);
    assert MacFromTap(tap) == "02" + [':'] + Zeros(4, h);
    SplitAtSeparator("02", Zeros(4, h), ':');
    SplitZeros(4, h);
  }

  lemma FirstOctetIsLocal(tap: string)
    ensures FirstOctet(MacFromTap(tap)) == 2
  {
    Octets(tap);
    ConstantOctets();
  }

  lemma LastOctet(tap: string)
    ensures IsOctet(Hex02(TapIndex(tap))) <==> 0 <= TapIndex(tap) <= 255
  {
    Signs(TapIndex(tap));
    if TapIndex(tap) >= 0 {
      PaddedParses(TapIndex(tap));
    } else {
      NoNegativeDigits(Hex02(TapIndex(tap)));
    }
  }

  /** Every address is a locally administered unicast one. It is well-formed exactly if the index is
      one octet: 255 is the last. */
  lemma AddressOfTap(tap: string)
    ensures Unicast(MacFromTap(tap)) && LocallyAdministered(MacFromTap(tap))
    ensures WellFormed(MacFromTap(tap)) <==> 0 <= TapIndex(tap) <= 255
  {
    FirstOctetIsLocal(tap);
    Octets(tap);
    ConstantOctets();
    LastOctet(tap);
    assert WellFormed(MacFromTap(tap)) <==> IsOctet(Split(MacFromTap(tap), ':')[5]);
  }

  lemma ConstantOctets()
    ensures ParseDigits("02", 16) == Some(2) && IsOctet("02") && IsOctet("00")
  {
    assert Front("02") == "0" && Front("00") == "0" && ParseDigits("0", 16) == Some(0);
  }

  lemma {:induction false} NoNegativeDigits(s: string)
    requires s != "" && s[0] == '-'
    ensures ParseDigits(s, 16).None?
  {
    if |s| > 1 {
      NoNegativeDigits(Front(s));
    }
  }

  /** Two taps share an address exactly if they share an index. */
  lemma AddressesDiffer(tap1: string, tap2: string)
    ensures MacFromTap(tap1) == MacFromTap(tap2) <==> TapIndex(tap1) == TapIndex(tap2)
  {
    Octets(tap1);
    Octets(tap2);
    if MacFromTap(tap1) == MacFromTap(tap2) {
      assert Split(MacFromTap(tap1), ':')[5] == Split(MacFromTap(tap2), ':')[5];
      Hex02Injective(TapIndex(tap1), TapIndex(tap2));
    }
  }

  lemma {:induction false} LastTapBefore(prefix: string, digits: string)
    requires forall c :: c in digits ==> c == '-' || '0' <= c <= '9'
    ensures LastTap(prefix + "tap" + digits) == Some(|prefix|)
  {
    var s := prefix + "tap" + digits;
    if digits == "" {
      assert s[|s| - 3..] == "tap";
    } else {
      assert Last(s) == Last(digits) && Last(digits) in digits && forall c :: c in Front(digits) ==> c in digits;
      assert s[|s| - 3..][2] == Last(s);
      assert Front(s) == prefix + "tap" + Front(digits);
      LastTapBefore(prefix, Front(digits));
    }
  }

  /** A tap named by any prefix, `tap` and a decimal has that number as its index. */
  lemma CanonicalIndex(prefix: string, i: int)
    requires InInt64(i)
    ensures TapIndex(prefix + "tap" + Decimal(i)) == i
  {
    LastTapBefore(prefix, Decimal(i));
    var tap := prefix + "tap" + Decimal(i);
    assert tap[|prefix| + 3..] == Decimal(i);
    DecimalRoundTrip(i);
  }

  lemma {:induction false} NoTap(s: string)
    requires forall c :: c in s ==> c != 't'
    ensures LastTap(s) == None
  {
    if |s| >= 3 {
      assert s[|s| - 3] in s && forall c :: c in Front(s) ==> c in s;
      NoTap(Front(s));
    }
  }

  /** Without a `tap` in its name, or without a number behind the last one, the index is zero. */
  lemma NoIndex(prefix: string, rest: string)
    ensures 't' !in prefix ==> MacFromTap(prefix) == "02:00:00:00:00:00"
    ensures LastTap(prefix + "tap" + rest) == Some(|prefix|) && Atoi(rest).None? ==>
      MacFromTap(prefix + "tap" + rest) == "02:00:00:00:00:00"
  {
    if 't' !in prefix {
      NoTap(prefix);
    }
    assert (prefix + "tap" + rest)[|prefix| + 3..] == rest;
    assert Hex02(0) == "00";
  }

  /** So taps of such names have well-formed addresses up to 255, and distinct ones always. */
  lemma CanonicalTaps(p1: string, i: int, p2: string, j: int)
    requires InInt64(i) && InInt64(j)
    ensures WellFormed(MacFromTap(p1 + "tap" + Decimal(i))) <==> 0 <= i <= 255
    ensures MacFromTap(p1 + "tap" + Decimal(i)) == MacFromTap(p2 + "tap" + Decimal(j)) <==> i == j
  {
    CanonicalIndex(p1, i);
    CanonicalIndex(p2, j);
    AddressOfTap(p1 + "tap" + Decimal(i));
    AddressesDiffer(p1 + "tap" + Decimal(i), p2 + "tap" + Decimal(j));
  }
}
