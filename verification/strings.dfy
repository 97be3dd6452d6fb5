/** Facts about keys built by joining strings with a slash. */
module Strings {

  /** The position of the first '/' in `s`, or `|s|` when there is none. */
  function SlashIndex(s: string): (i: nat)
    ensures i <= |s|
    ensures i < |s| ==> s[i] == '/'
    ensures forall j :: 0 <= j < i ==> s[j] != '/'
  {
    if s == [] then 0
    else if s[0] == '/' then 0
    else 1 + SlashIndex(s[1..])
  }

  /** In `a + "/" + b` the first slash is the one after `a`, if `a` holds none. */
  lemma {:induction false} SlashIndexOfJoin(a: string, b: string)
    requires '/' !in a
    ensures SlashIndex(a + "/" + b) == |a|
  {
    if a != [] {
      assert (a + "/" + b)[1..] == a[1..] + "/" + b;
      SlashIndexOfJoin(a[1..], b);
    }
  }

  /**
   * Splitting `a + "/" + b` at its first slash gives back `a` and `b`,
   * provided the left part holds no slash of its own.
   */
  lemma {:induction false} SplitAtFirstSlash(a: string, b: string, c: string, d: string)
    requires '/' !in a && '/' !in c
    requires a + "/" + b == c + "/" + d
    ensures a == c && b == d
  {
    var s := a + "/" + b;
    SlashIndexOfJoin(a, b);
    SlashIndexOfJoin(c, d);
    assert a == s[..|a|];
    assert c == (c + "/" + d)[..|c|];
    assert b == s[|a| + 1..];
    assert d == (c + "/" + d)[|c| + 1..];
  }
}
