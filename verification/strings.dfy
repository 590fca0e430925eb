/** Go's `strings.Split` for a one-character separator, and its inverse. */
module Strings {

  /** Position of the first occurrence of `d` in `s`. */
  function IndexOf(s: string, d: char): (i: nat)
    requires d in s
    ensures i < |s| && s[i] == d
    ensures d !in s[..i]
  {
    if s[0] == d then 0
    else
      assert d in s[1..] by { assert s == [s[0]] + s[1..]; }
      var j := IndexOf(s[1..], d);
      assert s[..j + 1] == [s[0]] + s[1..][..j];
      j + 1
  }

  /** The first occurrence is the one with no occurrence before it. */
  lemma FirstIndex(s: string, d: char, k: nat)
    requires k < |s| && s[k] == d
    requires d !in s[..k]
    ensures d in s && IndexOf(s, d) == k
  {
    var i := IndexOf(s, d);
    assert forall j :: 0 <= j < k ==> s[j] == s[..k][j];
    assert forall j :: 0 <= j < i ==> s[j] == s[..i][j];
  }

  /** The pieces of `s` between occurrences of `d`, as `strings.Split(s, d)`
      returns them: every occurrence separates two pieces, so there is a
      single piece (the whole string, perhaps empty) exactly when the
      separator does not occur, and no piece contains the separator. */
  function Split(s: string, d: char): (parts: seq<string>)
    ensures |parts| >= 1
    ensures |parts| == 1 <==> d !in s
    ensures forall k :: 0 <= k < |parts| ==> d !in parts[k]
    decreases |s|
  {
    if d !in s then [s]
    else
      var i := IndexOf(s, d);
      assert s == s[..i] + [d] + s[i + 1..];
      [s[..i]] + Split(s[i + 1..], d)
  }

  /** Glues non-empty `parts` back together with `d` between neighbours. */
  function Join(parts: seq<string>, d: char): string
    requires |parts| >= 1
  {
    if |parts| == 1 then parts[0] else parts[0] + [d] + Join(parts[1..], d)
  }

  /** Joining the pieces of a split gives back the original string. */
  lemma {:induction false} JoinOfSplit(s: string, d: char)
    ensures Join(Split(s, d), d) == s
    decreases |s|
  {
    if d in s {
      var i := IndexOf(s, d);
      JoinOfSplit(s[i + 1..], d);
      var parts := Split(s, d);
      assert parts[1..] == Split(s[i + 1..], d);
      assert s == s[..i] + [d] + s[i + 1..];
    }
  }

  /** A separator-free head followed by the separator splits off as the
      first piece. */
  lemma SplitHead(a: string, d: char, b: string)
    requires d !in a
    ensures Split(a + [d] + b, d) == [a] + Split(b, d)
  {
    var s := a + [d] + b;
    assert s[|a|] == d;
    assert s[..|a|] == a;
    FirstIndex(s, d, |a|);
    assert s[|a| + 1..] == b;
  }

  /** Splitting a join of separator-free pieces gives back the pieces. */
  lemma {:induction false} SplitOfJoin(parts: seq<string>, d: char)
    requires |parts| >= 1
    requires forall k :: 0 <= k < |parts| ==> d !in parts[k]
    ensures Split(Join(parts, d), d) == parts
  {
    if |parts| > 1 {
      SplitHead(parts[0], d, Join(parts[1..], d));
      SplitOfJoin(parts[1..], d);
      assert parts == [parts[0]] + parts[1..];
    }
  }

  /** Two separator-free strings joined by the separator split into exactly
      those two strings. */
  lemma SplitPair(a: string, b: string, d: char)
    requires d !in a && d !in b
    ensures Split(a + [d] + b, d) == [a, b]
  {
    SplitHead(a, d, b);
  }
}
