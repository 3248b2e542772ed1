/**
  The two array operations the enumerated accessor relies on, over arrays of
  strings: Array.prototype.indexOf and Array.prototype.join.
 */
module Text {

  /** indexOf: the position of the first occurrence of `x` in `xs`, or -1. */
  function IndexOf(xs: seq<string>, x: string): (i: int)
    ensures -1 <= i < |xs|
    ensures i == -1 <==> x !in xs
    ensures i >= 0 ==> xs[i] == x && forall k :: 0 <= k < i ==> xs[k] != x
  {
    if |xs| == 0 then -1
    else if xs[0] == x then 0
    else
      var j := IndexOf(xs[1..], x);
      if j == -1 then -1 else j + 1
  }

  /**
    join: the strings of `xs` in order, with `sep` between neighbours; its
    length is that of all the strings plus one separator fewer than there are
    strings.
   */
  function Join(xs: seq<string>, sep: string): (r: string)
    ensures |xs| == 0 ==> r == ""
    ensures |xs| > 0 ==> |r| + |sep| == Offset(xs, sep, |xs|)
  {
    if |xs| == 0 then ""
    else if |xs| == 1 then xs[0]
    else xs[0] + sep + Join(xs[1..], sep)
  }

  /** Where the `i`-th string starts in `Join(xs, sep)`. */
  function Offset(xs: seq<string>, sep: string, i: nat): nat
    requires i <= |xs|
  {
    if i == 0 then 0 else |xs[0]| + |sep| + Offset(xs[1..], sep, i - 1)
  }

  /** A slice of a concatenation that lies within its left part. */
  lemma SliceLeft<T>(a: seq<T>, b: seq<T>, i: nat, j: nat)
    requires i <= j <= |a|
    ensures (a + b)[i..j] == a[i..j]
  {
    assert forall k :: 0 <= k < j - i ==> (a + b)[i..j][k] == a[i..j][k];
  }

  /** A slice of a concatenation that lies within its right part. */
  lemma SliceRight<T>(a: seq<T>, b: seq<T>, i: nat, j: nat)
    requires |a| <= i <= j <= |a| + |b|
    ensures (a + b)[i..j] == b[i - |a|..j - |a|]
  {
    assert forall k :: 0 <= k < j - i ==> (a + b)[i..j][k] == b[i - |a|..j - |a|][k];
  }

  /** The first string of a join, and what follows it. */
  lemma JoinFirst(xs: seq<string>, sep: string)
    requires |xs| > 1
    ensures Join(xs, sep) == (xs[0] + sep) + Join(xs[1..], sep)
    ensures |xs[0]| + |sep| <= |Join(xs, sep)|
    ensures Join(xs, sep)[..|xs[0]|] == xs[0]
    ensures Join(xs, sep)[|xs[0]|..|xs[0]| + |sep|] == sep
  {
    var head := xs[0] + sep;
    var rest := Join(xs[1..], sep);
    SliceLeft(head, rest, 0, |xs[0]|);
    SliceLeft(xs[0], sep, 0, |xs[0]|);
    SliceLeft(head, rest, |xs[0]|, |head|);
    SliceRight(xs[0], sep, |xs[0]|, |head|);
  }

  /**
    The joined string holds every string of `xs` at its offset, in the given
    order, with exactly `sep` after each one but the last, and ends right
    after the last one.
   */
  lemma {:induction false} JoinAt(xs: seq<string>, sep: string, i: nat)
    requires i < |xs|
    ensures Offset(xs, sep, i) + |xs[i]| <= |Join(xs, sep)|
    ensures Join(xs, sep)[Offset(xs, sep, i)..Offset(xs, sep, i) + |xs[i]|] == xs[i]
    ensures i + 1 < |xs| ==>
      Offset(xs, sep, i) + |xs[i]| + |sep| <= |Join(xs, sep)| &&
      Join(xs, sep)[Offset(xs, sep, i) + |xs[i]|..Offset(xs, sep, i) + |xs[i]| + |sep|] == sep
    ensures i + 1 == |xs| ==> Offset(xs, sep, i) + |xs[i]| == |Join(xs, sep)|
  {
    if |xs| == 1 {
      assert Join(xs, sep) == xs[0];
    } else if i == 0 {
      JoinFirst(xs, sep);
    } else {
      var head := xs[0] + sep;
      var rest := Join(xs[1..], sep);
      var o := Offset(xs[1..], sep, i - 1);
      JoinFirst(xs, sep);
      JoinAt(xs[1..], sep, i - 1);
      assert xs[1..][i - 1] == xs[i];
      SliceRight(head, rest, |head| + o, |head| + o + |xs[i]|);
      if i + 1 < |xs| {
        SliceRight(head, rest, |head| + o + |xs[i]|, |head| + o + |xs[i]| + |sep|);
      }
    }
  }
}
