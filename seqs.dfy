/** Array.prototype.filter, which the game uses to prune arrows and pops. */
module Seqs {

  /** The elements of `s` that satisfy `keep`, in their original order. */
  function Filter<T>(s: seq<T>, keep: T -> bool): (r: seq<T>)
    ensures |r| <= |s|
    ensures forall i :: 0 <= i < |r| ==> keep(r[i]) && r[i] in s
  {
    if s == [] then []
    else if keep(s[0]) then [s[0]] + Filter(s[1..], keep)
    else Filter(s[1..], keep)
  }

  /** Nothing that satisfies the predicate is dropped. */
  lemma {:induction false} FilterKeepsEverySurvivor<T>(s: seq<T>, keep: T -> bool, x: T)
    requires x in s && keep(x)
    ensures x in Filter(s, keep)
  {
    if s[0] != x {
      FilterKeepsEverySurvivor(s[1..], keep, x);
    }
  }

  /** Filtering a concatenation filters each part and keeps them in order:
      the relative order of the survivors is preserved. */
  lemma {:induction false} FilterAppend<T>(s: seq<T>, u: seq<T>, keep: T -> bool)
    ensures Filter(s + u, keep) == Filter(s, keep) + Filter(u, keep)
  {
    if s == [] {
      assert s + u == u;
    } else {
      assert (s + u)[1..] == s[1..] + u;
      FilterAppend(s[1..], u, keep);
    }
  }

  /** A sequence whose elements all survive is returned unchanged. */
  lemma {:induction false} FilterAllKept<T>(s: seq<T>, keep: T -> bool)
    requires forall i :: 0 <= i < |s| ==> keep(s[i])
    ensures Filter(s, keep) == s
  {
    if s != [] {
      FilterAllKept(s[1..], keep);
    }
  }
}
