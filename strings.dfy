/** The few functions of Go's `strings` package that the core uses. */
module Strings {

  /** strings.ReplaceAll(s, " ", ""): no space is left. That every other
      character is kept, in order, is stated by the lemmas below. */
  function RemoveSpaces(s: string): (r: string)
    ensures forall i :: 0 <= i < |r| ==> r[i] != ' '
  {
    if s == [] then [] else (if s[0] == ' ' then [] else [s[0]]) + RemoveSpaces(s[1..])
  }

  /** strings.Count(s, c) for a one-character separator: the number of
      occurrences of `c`. */
  function Count(s: string, c: char): (n: nat)
    ensures n == multiset(s)[c]
  {
    if s == [] then 0
    else
      assert s == [s[0]] + s[1..];
      (if s[0] == c then 1 else 0) + Count(s[1..], c)
  }

  /** Removing spaces commutes with concatenation, so it keeps the order of
      the characters it keeps. */
  lemma {:induction false} RemoveSpacesAppend(a: string, b: string)
    ensures RemoveSpaces(a + b) == RemoveSpaces(a) + RemoveSpaces(b)
    decreases |a|
  {
    if a == [] {
      assert a + b == b;
    } else {
      assert (a + b)[0] == a[0] && (a + b)[1..] == a[1..] + b;
      RemoveSpacesAppend(a[1..], b);
    }
  }

  /** Every other character is kept as often as it occurs, so the result is
      shorter by exactly the number of spaces. */
  lemma {:induction false} RemoveSpacesKeeps(s: string)
    ensures multiset(RemoveSpaces(s)) == multiset(s)[' ' := 0]
    ensures forall c :: c != ' ' ==> Count(RemoveSpaces(s), c) == Count(s, c)
    ensures |RemoveSpaces(s)| == |s| - Count(s, ' ')
    decreases |s|
  {
    if s != [] {
      RemoveSpacesKeeps(s[1..]);
      assert s == [s[0]] + s[1..];
      assert multiset(s) == multiset{s[0]} + multiset(s[1..]);
      var head: string := if s[0] == ' ' then [] else [s[0]];
      assert multiset(RemoveSpaces(s)) == multiset(head) + multiset(RemoveSpaces(s[1..]));
    }
    assert |multiset(RemoveSpaces(s))| == |RemoveSpaces(s)|;
    assert |multiset(s)| == |multiset(s)[' ' := 0]| + multiset(s)[' '];
  }

  lemma {:induction false} RemoveSpacesIdempotent(s: string)
    ensures RemoveSpaces(RemoveSpaces(s)) == RemoveSpaces(s)
  {
    NoSpacesFixed(RemoveSpaces(s));
  }

  /** A string without spaces is left as it is. */
  lemma {:induction false} NoSpacesFixed(s: string)
    requires forall i :: 0 <= i < |s| ==> s[i] != ' '
    ensures RemoveSpaces(s) == s
  {
    if s != [] {
      NoSpacesFixed(s[1..]);
    }
  }

  predicate HasPrefix(s: string, prefix: string)
  {
    |prefix| <= |s| && s[..|prefix|] == prefix
  }

  /** strings.Split(s, sep)[0] for a one-character separator: the part of
      `s` before the first `sep`, or all of `s` when there is none. */
  function BeforeFirst(s: string, sep: char): (r: string)
    ensures HasPrefix(s, r)
    ensures sep !in r
    ensures |r| < |s| ==> s[|r|] == sep
  {
    if s == [] || s[0] == sep then [] else [s[0]] + BeforeFirst(s[1..], sep)
  }

  /** HasPrefix holds exactly when `s` is `prefix` followed by something. */
  lemma HasPrefixIff(s: string, prefix: string)
    ensures HasPrefix(s, prefix) <==> exists rest :: s == prefix + rest
  {
    if HasPrefix(s, prefix) {
      assert s == prefix + s[|prefix|..];
    }
    if exists rest :: s == prefix + rest {
      var rest :| s == prefix + rest;
      assert s[..|prefix|] == prefix;
    }
  }

  /** The part before the first separator of `a`, the separator and any
      rest is `a`, when `a` holds no separator. */
  lemma {:induction false} BeforeFirstJoin(a: string, sep: char, rest: string)
    requires sep !in a
    ensures BeforeFirst(a + [sep] + rest, sep) == a
    decreases |a|
  {
    if a != [] {
      assert (a + [sep] + rest)[0] == a[0];
      assert (a + [sep] + rest)[1..] == a[1..] + [sep] + rest;
      BeforeFirstJoin(a[1..], sep, rest);
    } else {
      assert (a + [sep] + rest)[0] == sep;
    }
  }
}
