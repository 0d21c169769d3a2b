/** Lemmas about sequences of any element type: positions in, and the
    regrouping of, concatenations. */
module Sequences {

  /** The elements of a sequence between a first and a last element. */
  lemma Bracketed<T>(h: T, body: seq<T>, t: T)
    ensures var r := [h] + body + [t];
            |r| == |body| + 2 && r[0] == h && r[|body| + 1] == t
            && forall i | 0 <= i < |body| :: r[i + 1] == body[i]
  {
  }

  /** The elements after a head element. */
  lemma AfterHead<T>(h: T, xs: seq<T>)
    ensures var r := [h] + xs;
            |r| == |xs| + 1 && r[0] == h && forall i | 0 <= i < |xs| :: r[i + 1] == xs[i]
  {
  }

  /** Replacing the last element of a sequence with a head in front. */
  lemma UpdateAfterHead<T>(h: T, xs: seq<T>, x: T)
    requires |xs| > 0
    ensures ([h] + xs)[|xs| := x] == [h] + xs[|xs| - 1 := x]
  {
  }

  /** Regrouping a three-part concatenation. */
  lemma AppendAssoc<T>(a: seq<T>, b: seq<T>, c: seq<T>)
    ensures (a + b) + c == a + (b + c)
  {
  }

  /** Regrouping a four-part concatenation. */
  lemma ConcatAssoc<T>(a: seq<T>, b: seq<T>, c: seq<T>, d: seq<T>)
    ensures a + (b + c + d) == a + b + c + d
  {
  }

  /** Splitting a concatenation at the seam. */
  lemma SplitAtSeam<T>(a: seq<T>, b: seq<T>)
    ensures (a + b)[..|a|] == a && (a + b)[|a|..] == b
  {
  }

  /** The first element and the rest of a concatenation with a non-empty front. */
  lemma HeadOfAppend<T>(a: seq<T>, b: seq<T>)
    requires |a| > 0
    ensures (a + b)[0] == a[0] && (a + b)[1..] == a[1..] + b && [a[0]] + a[1..] == a
  {
  }

  /** Updating a position of a sequence, seen through its first element. */
  lemma UpdateThroughHead<T>(m: seq<T>, i: nat, x: T)
    requires i < |m|
    ensures i == 0 ==> [x] + m[1..] == m[i := x]
    ensures i > 0 ==> [m[0]] + m[1..][i - 1 := x] == m[i := x]
  {
  }

  /** Appending leaves a prefix of the front unchanged. */
  lemma PrefixThroughAppend<T>(x: seq<T>, y: seq<T>, n: nat)
    requires n <= |x|
    ensures (x + y)[..n] == x[..n]
  {
  }
}
