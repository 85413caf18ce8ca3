/** Sequence operations the source applies through its languages' built-ins. */
module Seqs {
  import opened Wrappers

  /** `Array.prototype.filter`: the elements satisfying `keep`, in their original order. */
  function Filter<T(==,!new)>(s: seq<T>, keep: T -> bool): (r: seq<T>)
    ensures |r| <= |s|
    ensures forall x :: x in r <==> x in s && keep(x)
  {
    if s == [] then [] else (if keep(s[0]) then [s[0]] else []) + Filter(s[1..], keep)
  }

  /** Filtering a concatenation filters each part: the kept elements keep their relative order. */
  lemma {:induction false} FilterAppend<T(!new)>(s: seq<T>, t: seq<T>, keep: T -> bool)
    ensures Filter(s + t, keep) == Filter(s, keep) + Filter(t, keep)
  {
    if s == [] {
      assert s + t == t;
    } else {
      assert (s + t)[0] == s[0] && (s + t)[1..] == s[1..] + t;
      FilterAppend(s[1..], t, keep);
      var head := if keep(s[0]) then [s[0]] else [];
      assert Filter(s + t, keep) == head + (Filter(s[1..], keep) + Filter(t, keep));
    }
  }

  /** A filter that keeps every element returns its input unchanged. */
  lemma {:induction false} FilterKeepsAll<T(!new)>(s: seq<T>, keep: T -> bool)
    requires forall x :: x in s ==> keep(x)
    ensures Filter(s, keep) == s
  {
    if s != [] {
      FilterKeepsAll(s[1..], keep);
    }
  }

  /** `idx` lists positions of a sequence of length `n`, in increasing order and so without repetition. */
  ghost predicate IncreasingIndices(idx: seq<int>, n: int) {
    && (forall k :: 0 <= k < |idx| ==> 0 <= idx[k] < n)
    && (forall k, l :: 0 <= k < l < |idx| ==> idx[k] < idx[l])
  }

  /** Concatenation is associative. */
  lemma AppendAssociative<T>(x: seq<T>, y: seq<T>, z: seq<T>)
    ensures (x + y) + z == x + (y + z)
  {
  }

  /**
   * The value of the last element of `s` that `pick` selects, if any: what a
   * sequence of `setattr` calls leaves in one attribute.
   */
  function Last<F, V>(s: seq<F>, pick: F -> Option<V>): Option<V>
  {
    if s == [] then None
    else if pick(s[|s| - 1]).Some? then pick(s[|s| - 1])
    else Last(s[..|s| - 1], pick)
  }

  /** `Last` finds a value exactly when some element is selected, and it is the value of the last such element. */
  lemma {:induction false} LastSpec<F, V>(s: seq<F>, pick: F -> Option<V>)
    ensures Last(s, pick).Some? <==> exists i :: 0 <= i < |s| && pick(s[i]).Some?
    ensures Last(s, pick).Some? ==>
              exists i :: 0 <= i < |s| && pick(s[i]) == Last(s, pick) && forall j :: i < j < |s| ==> pick(s[j]).None?
  {
    if s != [] {
      var p := s[..|s| - 1];
      LastSpec(p, pick);
      if pick(s[|s| - 1]).None? {
        assert forall i :: 0 <= i < |p| ==> p[i] == s[i];
      }
    }
  }
}
