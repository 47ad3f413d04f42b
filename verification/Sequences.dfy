/** Splitting, joining and flattening of sequences, shared by every other module. */
module Sequences {

  datatype Option<+T> = None | Some(value: T)

  /** The pieces of `s` between occurrences of `sep`; one piece more than there are separators. */
  function Split<T(==)>(s: seq<T>, sep: T): (parts: seq<seq<T>>)
    ensures |parts| >= 1
  {
    if s == [] then [[]]
    else
      var rest := Split(s[1..], sep);
      if s[0] == sep then [[]] + rest else [[s[0]] + rest[0]] + rest[1..]
  }

  /** The pieces put back together with `sep` between neighbours. */
  function Join<T>(parts: seq<seq<T>>, sep: T): seq<T> {
    if parts == [] then []
    else if |parts| == 1 then parts[0]
    else parts[0] + [sep] + Join(parts[1..], sep)
  }

  function Last<T>(s: seq<T>): T
    requires s != []
  {
    s[|s| - 1]
  }

  function Front<T>(s: seq<T>): seq<T>
    requires s != []
  {
    s[..|s| - 1]
  }

  /** All pieces one after the other. */
  function Concat<T>(parts: seq<seq<T>>): seq<T> {
    if parts == [] then [] else parts[0] + Concat(parts[1..])
  }

  /** The pieces that are not empty, in order. */
  function NonEmpty<T(==)>(parts: seq<seq<T>>): (r: seq<seq<T>>)
    ensures forall p :: p in r ==> p != [] && p in parts
  {
    if parts == [] then []
    else (if parts[0] == [] then [] else [parts[0]]) + NonEmpty(parts[1..])
  }

  /** `sub` occurs in `s`. */
  predicate Contains<T(==)>(s: seq<T>, sub: seq<T>) {
    sub <= s || (s != [] && Contains(s[1..], sub))
  }

  lemma Assoc<T>(a: seq<T>, b: seq<T>, c: seq<T>)
    ensures (a + b) + c == a + (b + c)
  {
  }

  lemma ConcatOne<T>(p: seq<T>)
    ensures Concat([p]) == p
  {
    assert [p][1..] == [];
    assert p + [] == p;
  }

  lemma {:induction false} ConcatAppend<T>(a: seq<seq<T>>, b: seq<seq<T>>)
    ensures Concat(a + b) == Concat(a) + Concat(b)
  {
    if a == [] {
      assert a + b == b;
    } else {
      assert (a + b)[1..] == a[1..] + b;
      ConcatAppend(a[1..], b);
    }
  }

  lemma {:induction false} NonEmptyAppend<T>(a: seq<seq<T>>, b: seq<seq<T>>)
    ensures NonEmpty(a + b) == NonEmpty(a) + NonEmpty(b)
  {
    if a == [] {
      assert a + b == b;
    } else {
      assert (a + b)[1..] == a[1..] + b;
      NonEmptyAppend(a[1..], b);
    }
  }

  /** A separator-free prefix extends the first piece and touches no other. */
  lemma {:induction false} SplitPrefix<T>(a: seq<T>, b: seq<T>, sep: T)
    requires sep !in a
    ensures Split(a + b, sep) == [a + Split(b, sep)[0]] + Split(b, sep)[1..]
  {
    if a == [] {
      assert a + b == b;
      assert a + Split(b, sep)[0] == Split(b, sep)[0];
    } else {
      assert (a + b)[1..] == a[1..] + b;
      SplitPrefix(a[1..], b, sep);
      assert [a[0]] + (a[1..] + Split(b, sep)[0]) == a + Split(b, sep)[0];
    }
  }

  /** The first separator ends the first piece. */
  lemma SplitAtSeparator<T>(a: seq<T>, b: seq<T>, sep: T)
    requires sep !in a
    ensures Split(a + [sep] + b, sep) == [a] + Split(b, sep)
  {
    assert a + [sep] + b == a + ([sep] + b);
    assert ([sep] + b)[1..] == b;
    SplitPrefix(a, [sep] + b, sep);
    assert a + [] == a;
  }

  lemma SplitWhole<T>(a: seq<T>, sep: T)
    requires sep !in a
    ensures Split(a, sep) == [a]
  {
    assert a + [] == a;
    SplitPrefix(a, [], sep);
  }

  /** No piece holds the separator, and joining the pieces gives the sequence back. */
  lemma {:induction false} SplitInverts<T>(s: seq<T>, sep: T)
    ensures Join(Split(s, sep), sep) == s
    ensures forall p :: p in Split(s, sep) ==> sep !in p
  {
    if s != [] {
      SplitInverts(s[1..], sep);
      var rest := Split(s[1..], sep);
      if s[0] != sep {
        assert Split(s, sep)[1..] == rest[1..];
        assert s == [s[0]] + s[1..];
      } else {
        assert Split(s, sep)[1..] == rest;
      }
    }
  }

  /** Splitting undoes joining for every non-empty list of separator-free pieces. */
  lemma {:induction false} JoinInverts<T>(parts: seq<seq<T>>, sep: T)
    requires parts != [] && forall p :: p in parts ==> sep !in p
    ensures Split(Join(parts, sep), sep) == parts
  {
    if |parts| == 1 {
      SplitWhole(parts[0], sep);
    } else {
      SplitAtSeparator(parts[0], Join(parts[1..], sep), sep);
      JoinInverts(parts[1..], sep);
    }
  }
}
