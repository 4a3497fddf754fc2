/** Searching a string for a character, as strings.Index and strings.SplitN do. */
module Strings {

  /** The index of the first c in s, or |s| when s has none. */
  function IndexOf(s: string, c: char): (k: nat)
    ensures k <= |s|
    ensures forall j :: 0 <= j < k ==> s[j] != c
    ensures k < |s| ==> s[k] == c
    decreases |s|
  {
    if s == [] || s[0] == c then 0 else 1 + IndexOf(s[1..], c)
  }

  /** The first c of x + [c] + y is the one after x when x has none. */
  lemma IndexOfAfter(x: string, c: char, y: string)
    requires forall j :: 0 <= j < |x| ==> x[j] != c
    ensures IndexOf(x + [c] + y, c) == |x|
  {
    var s := x + [c] + y;
    assert s[|x|] == c;
    assert forall j :: 0 <= j < |x| ==> s[j] == x[j];
  }

  /** Splitting at the first c: x + [c] + y determines x and y when x has no c. */
  lemma SplitAtFirst(x1: string, y1: string, x2: string, y2: string, c: char)
    requires forall j :: 0 <= j < |x1| ==> x1[j] != c
    requires forall j :: 0 <= j < |x2| ==> x2[j] != c
    requires x1 + [c] + y1 == x2 + [c] + y2
    ensures x1 == x2 && y1 == y2
  {
    var s := x1 + [c] + y1;
    IndexOfAfter(x1, c, y1);
    IndexOfAfter(x2, c, y2);
    assert x1 == s[..|x1|];
    assert x2 == s[..|x2|];
    assert y1 == s[|x1| + 1..];
    assert y2 == s[|x2| + 1..];
  }
}
