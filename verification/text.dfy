/**
 * Python's `str.split(sep)` with an explicit one-character separator, and its
 * inverse `sep.join(parts)`. The store splits its catalog-info option with it.
 */
module Text {

  /** `sep.join(parts)`: the parts in order, with `sep` between neighbours. */
  function Join(parts: seq<string>, sep: char): string
  {
    if parts == [] then ""
    else if |parts| == 1 then parts[0]
    else parts[0] + [sep] + Join(parts[1..], sep)
  }

  /** No part contains the separator. */
  predicate Separated(parts: seq<string>, sep: char)
  {
    forall i :: 0 <= i < |parts| ==> sep !in parts[i]
  }

  /**
   * `s.split(sep)`: the maximal separator-free pieces of `s`, empty pieces
   * included (`"a::b"` gives `["a", "", "b"]`, `""` gives `[""]`).
   */
  function Split(s: string, sep: char): (parts: seq<string>)
    ensures |parts| == multiset(s)[sep] + 1
    ensures Separated(parts, sep)
    ensures Join(parts, sep) == s
  {
    if s == [] then [""]
    else
      var rest := Split(s[1..], sep);
      assert s == [s[0]] + s[1..];
      assert multiset(s)[sep] == multiset(s[1..])[sep] + if s[0] == sep then 1 else 0;
      if s[0] == sep then
        EmptyPiece(rest, sep);
        [""] + rest
      else
        ExtendPiece(s[0], rest, sep);
        [[s[0]] + rest[0]] + rest[1..]
  }

  /** A leading separator contributes an empty first piece. */
  lemma EmptyPiece(rest: seq<string>, sep: char)
    requires |rest| > 0 && Separated(rest, sep)
    ensures Separated([""] + rest, sep)
    ensures Join([""] + rest, sep) == [sep] + Join(rest, sep)
  {
    var parts := [""] + rest;
    assert parts[1..] == rest;
    forall i | 0 <= i < |parts| ensures sep !in parts[i] {
      if i > 0 { assert parts[i] == rest[i - 1]; }
    }
  }

  /** A leading non-separator character joins the first piece. */
  lemma ExtendPiece(c: char, rest: seq<string>, sep: char)
    requires c != sep && |rest| > 0 && Separated(rest, sep)
    ensures Separated([[c] + rest[0]] + rest[1..], sep)
    ensures Join([[c] + rest[0]] + rest[1..], sep) == [c] + Join(rest, sep)
  {
    var first := [c] + rest[0];
    var parts := [first] + rest[1..];
    assert parts[1..] == rest[1..];
    forall i | 0 <= i < |parts| ensures sep !in parts[i] {
      if i > 0 { assert parts[i] == rest[i]; }
    }
    if |rest| > 1 {
      assert Join(rest, sep) == rest[0] + [sep] + Join(rest[1..], sep);
      assert Join(parts, sep) == first + [sep] + Join(rest[1..], sep);
    }
  }

  /** Three pieces join with two separators. */
  lemma JoinThree(a: string, b: string, c: string, sep: char)
    ensures Join([a, b, c], sep) == a + [sep] + b + [sep] + c
  {
    var parts := [a, b, c];
    assert parts[1..] == [b, c];
    assert parts[1..][1..] == [c];
    assert Join([c], sep) == c;
    assert Join([b, c], sep) == b + [sep] + c;
    assert Join(parts, sep) == a + [sep] + (b + [sep] + c);
  }

  /** A separator-free prefix followed by the separator splits off as the first piece. */
  lemma {:induction false} SplitFirst(a: string, sep: char, b: string)
    requires sep !in a
    ensures Split(a + [sep] + b, sep) == [a] + Split(b, sep)
  {
    if a != [] {
      assert a == [a[0]] + a[1..];
      assert a + [sep] + b == [a[0]] + (a[1..] + [sep] + b);
      SplitFirst(a[1..], sep, b);
    } else {
      assert a + [sep] + b == [sep] + b;
    }
  }

  /** Splitting undoes joining: the pieces of a string are unique. */
  lemma {:induction false} SplitUnique(s: string, sep: char, parts: seq<string>)
    requires |parts| > 0 && Separated(parts, sep) && Join(parts, sep) == s
    ensures Split(s, sep) == parts
    decreases |parts|
  {
    if |parts| > 1 {
      assert Separated(parts[1..], sep) by {
        forall i | 0 <= i < |parts| - 1 ensures sep !in parts[1..][i] {
          assert parts[1..][i] == parts[i + 1];
        }
      }
      SplitUnique(Join(parts[1..], sep), sep, parts[1..]);
      SplitFirst(parts[0], sep, Join(parts[1..], sep));
      assert parts == [parts[0]] + parts[1..];
    }
  }
}
