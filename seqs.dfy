/**
 * Flattening a sequence of task lists into one list, the shape of every
 * `res = append(res, xs...)` loop in the parser.
 */
module Seqs {

  /** The lists of `ss`, one after the other, in order. */
  function Concat<T>(ss: seq<seq<T>>): (r: seq<T>)
    ensures |r| == TotalLength(ss)
  {
    if |ss| == 0 then [] else Concat(ss[..|ss| - 1]) + ss[|ss| - 1]
  }

  /** The sum of the lengths of the lists of `ss`. */
  function TotalLength<T>(ss: seq<seq<T>>): nat
  {
    if |ss| == 0 then 0 else TotalLength(ss[..|ss| - 1]) + |ss[|ss| - 1]|
  }

  /** `f` applied to every element of `xs`, in order. */
  function Map<T, U>(f: T -> U, xs: seq<T>): seq<U>
  {
    seq(|xs|, i requires 0 <= i < |xs| => f(xs[i]))
  }

  /** Entry `k` of the mapped sequence is `f` of entry `k`. */
  lemma MapAt<T, U>(f: T -> U, xs: seq<T>, k: nat)
    requires k < |xs|
    ensures |Map(f, xs)| == |xs| && Map(f, xs)[k] == f(xs[k])
  {
  }

  /** Flattening one more list appends it. */
  lemma ConcatStep<T>(ss: seq<seq<T>>, i: nat)
    requires i < |ss|
    ensures Concat(ss[..i + 1]) == Concat(ss[..i]) + ss[i]
  {
    assert ss[..i + 1][..i] == ss[..i];
  }

  /** Flattening distributes over joining the outer sequences. */
  lemma {:induction false} ConcatAppend<T>(ss: seq<seq<T>>, tt: seq<seq<T>>)
    ensures Concat(ss + tt) == Concat(ss) + Concat(tt)
    decreases |tt|
  {
    if |tt| == 0 {
      assert ss + tt == ss;
    } else {
      var init := tt[..|tt| - 1];
      assert (ss + tt)[..|ss + tt| - 1] == ss + init;
      ConcatAppend(ss, init);
    }
  }

  /**
   * Every list keeps its place: list `i` appears whole in the flattened
   * result, starting right after the lists before it.
   */
  lemma {:induction false} ConcatBlock<T>(ss: seq<seq<T>>, i: nat)
    requires i < |ss|
    ensures Block(Concat(ss), ss[i], TotalLength(ss[..i]))
  {
    var before, rest := Concat(ss[..i]), Concat(ss[i + 1..]);
    assert ss == ss[..i + 1] + ss[i + 1..];
    ConcatAppend(ss[..i + 1], ss[i + 1..]);
    ConcatStep(ss, i);
    assert Concat(ss) == before + ss[i] + rest;
    assert |before| == TotalLength(ss[..i]);
    assert (before + ss[i] + rest)[|before|..|before| + |ss[i]|] == ss[i];
  }

  /** An element is in the flattened result exactly when it is in one of the lists. */
  lemma {:induction false} ConcatMember<T>(ss: seq<seq<T>>, u: T)
    ensures u in Concat(ss) <==> exists i :: 0 <= i < |ss| && u in ss[i]
    decreases |ss|
  {
    if |ss| > 0 {
      var init := ss[..|ss| - 1];
      ConcatMember(init, u);
      if u in Concat(ss) && u !in ss[|ss| - 1] {
        var i :| 0 <= i < |init| && u in init[i];
        assert u in ss[i];
      }
      if exists i :: 0 <= i < |ss| && u in ss[i] {
        var i :| 0 <= i < |ss| && u in ss[i];
        if i < |ss| - 1 {
          assert u in init[i];
        }
      }
    }
  }

  /** `t` occurs in `s` as the contiguous run starting at index `k`. */
  predicate Block<T(==)>(s: seq<T>, t: seq<T>, k: nat)
  {
    k + |t| <= |s| && s[k..k + |t|] == t
  }

  /** A block of a block of `s` is a block of `s`, at the summed offset. */
  lemma NestedBlock<T>(s: seq<T>, t: seq<T>, u: seq<T>, a: nat, c: nat)
    requires Block(s, t, a) && Block(t, u, c)
    ensures Block(s, u, a + c)
  {
    SliceOfSlice(s, a, a + |t|, c, c + |u|);
  }

  /** Whatever is in a block is in the whole. */
  lemma BlockMember<T>(s: seq<T>, t: seq<T>, k: nat, x: T)
    requires Block(s, t, k) && x in t
    ensures x in s
  {
    var j :| 0 <= j < |t| && t[j] == x;
    assert s[k + j] == x;
  }

  /** A slice of a slice is a slice of the original. */
  lemma SliceOfSlice<T>(s: seq<T>, a: nat, b: nat, c: nat, e: nat)
    requires a <= b <= |s| && c <= e <= b - a
    ensures s[a..b][c..e] == s[a + c..a + e]
  {
    var inner := s[a..b];
    forall j | 0 <= j < e - c
      ensures inner[c..e][j] == s[a + c..a + e][j]
    {
      assert inner[c..e][j] == inner[c + j];
      assert inner[c + j] == s[a + c + j];
    }
  }
}
