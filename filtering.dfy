/**
 * The shape shared by every filtering loop of the pipeline: visit a
 * sequence in order and push `f(a)` for each element `a` that passes
 * `keep`. Defined on prefixes, as the loops build it.
 */
module Filtering {

  function KeepMap<A, B>(s: seq<A>, keep: A -> bool, f: A -> B): seq<B>
    decreases |s|
  {
    if s == [] then []
    else KeepMap(s[..|s| - 1], keep, f) + (if keep(s[|s| - 1]) then [f(s[|s| - 1])] else [])
  }

  /** The elements of `s` that pass `keep`, in order. */
  function Filter<A>(s: seq<A>, keep: A -> bool): seq<A> {
    KeepMap(s, keep, a => a)
  }

  /** The number of elements of `s` that fail `keep`. */
  function Dropped<A>(s: seq<A>, keep: A -> bool): nat
    decreases |s|
  {
    if s == [] then 0 else Dropped(s[..|s| - 1], keep) + (if keep(s[|s| - 1]) then 0 else 1)
  }

  /** Exactly the elements that fail `keep` are missing from the result. */
  lemma {:induction false} KeepMapLength<A, B>(s: seq<A>, keep: A -> bool, f: A -> B)
    ensures |KeepMap(s, keep, f)| + Dropped(s, keep) == |s|
    decreases |s|
  {
    if s != [] {
      KeepMapLength(s[..|s| - 1], keep, f);
    }
  }

  /** A value is in the result exactly when it is the image of a kept element. */
  lemma {:induction false} KeepMapMembership<A, B>(s: seq<A>, keep: A -> bool, f: A -> B, b: B)
    ensures b in KeepMap(s, keep, f) <==> exists a :: a in s && keep(a) && f(a) == b
    decreases |s|
  {
    if s != [] {
      var init, last := s[..|s| - 1], s[|s| - 1];
      assert s == init + [last];
      KeepMapMembership(init, keep, f, b);
      if exists a :: a in s && keep(a) && f(a) == b {
        var a :| a in s && keep(a) && f(a) == b;
        if a != last {
          assert a in init;
        }
      }
    }
  }

  /** When every element is kept, the result is the image of the whole sequence. */
  lemma {:induction false} KeepMapAll<A, B>(s: seq<A>, keep: A -> bool, f: A -> B)
    requires forall i :: 0 <= i < |s| ==> keep(s[i])
    ensures |KeepMap(s, keep, f)| == |s|
    ensures forall i :: 0 <= i < |s| ==> KeepMap(s, keep, f)[i] == f(s[i])
    decreases |s|
  {
    if s != [] {
      KeepMapAll(s[..|s| - 1], keep, f);
    }
  }

  /** When every element is kept, filtering changes nothing. */
  lemma {:induction false} FilterAll<A>(s: seq<A>, keep: A -> bool)
    requires forall i :: 0 <= i < |s| ==> keep(s[i])
    ensures Filter(s, keep) == s
    decreases |s|
  {
    if s != [] {
      FilterAll(s[..|s| - 1], keep);
      assert s == s[..|s| - 1] + [s[|s| - 1]];
    }
  }

  /** When no element is kept, the result is empty. */
  lemma {:induction false} KeepMapNone<A, B>(s: seq<A>, keep: A -> bool, f: A -> B)
    requires forall i :: 0 <= i < |s| ==> !keep(s[i])
    ensures KeepMap(s, keep, f) == []
    decreases |s|
  {
    if s != [] {
      KeepMapNone(s[..|s| - 1], keep, f);
    }
  }

  /**
   * The result keeps the order of `s`: if `s` is ordered by `before` and
   * `f` carries `before` on kept elements to `after`, the result is
   * ordered by `after`.
   */
  lemma {:induction false} KeepMapOrdered<A, B>(s: seq<A>, keep: A -> bool, f: A -> B,
                                               before: (A, A) -> bool, after: (B, B) -> bool)
    requires forall a, a' :: keep(a) && keep(a') && before(a, a') ==> after(f(a), f(a'))
    requires forall i, j :: 0 <= i < j < |s| ==> before(s[i], s[j])
    ensures forall i, j :: 0 <= i < j < |KeepMap(s, keep, f)| ==>
              after(KeepMap(s, keep, f)[i], KeepMap(s, keep, f)[j])
    decreases |s|
  {
    if s != [] {
      var init, last := s[..|s| - 1], s[|s| - 1];
      KeepMapOrdered(init, keep, f, before, after);
      var r0 := KeepMap(init, keep, f);
      var r := KeepMap(s, keep, f);
      if keep(last) {
        assert r == r0 + [f(last)];
        forall i | 0 <= i < |r0|
          ensures after(r0[i], f(last))
        {
          KeepMapMembership(init, keep, f, r0[i]);
          var a :| a in init && keep(a) && f(a) == r0[i];
          var k :| 0 <= k < |init| && init[k] == a;
          assert before(s[k], s[|s| - 1]);
        }
      }
    }
  }
}
