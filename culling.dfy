/** Host-side frustum culling of the cube instances (Window/scene.cpp,
    Scene::Frame): which instance indices pass the frustum test, and how
    many 64-wide thread groups the compute-shader culling pass is
    dispatched with. The frustum test itself is floating-point work on
    the instance's bounding box; here it is an arbitrary predicate on the
    instance index. */
module Culling {

  /** The instances below `count` that pass the test, in increasing order:
      what the source's culling loop leaves in the visible-index list. */
  function VisibleIndices(count: nat, inFrustum: nat -> bool): seq<nat>
  {
    if count == 0 then []
    else VisibleIndices(count - 1, inFrustum) + (if inFrustum(count - 1) then [count - 1] else [])
  }

  predicate StrictlyIncreasing(s: seq<nat>)
  {
    forall p, q :: 0 <= p < q < |s| ==> s[p] < s[q]
  }

  /** An index is in the visible list exactly when it is a live instance
      that passes the test. */
  lemma {:induction false} VisibleMembership(count: nat, inFrustum: nat -> bool, x: nat)
    ensures x in VisibleIndices(count, inFrustum) <==> x < count && inFrustum(x)
  {
    if count > 0 {
      VisibleMembership(count - 1, inFrustum, x);
    }
  }

  /** Every visible index is below the live count. */
  lemma {:induction false} VisibleBelow(count: nat, inFrustum: nat -> bool)
    ensures forall p :: 0 <= p < |VisibleIndices(count, inFrustum)| ==> VisibleIndices(count, inFrustum)[p] < count
  {
    if count > 0 {
      VisibleBelow(count - 1, inFrustum);
    }
  }

  /** The visible list is strictly increasing: ascending and without
      duplicates. */
  lemma {:induction false} VisibleIncreasing(count: nat, inFrustum: nat -> bool)
    ensures StrictlyIncreasing(VisibleIndices(count, inFrustum))
  {
    if count > 0 {
      VisibleIncreasing(count - 1, inFrustum);
      VisibleBelow(count - 1, inFrustum);
    }
  }

  /** At most one entry per live instance. */
  lemma {:induction false} VisibleLength(count: nat, inFrustum: nat -> bool)
    ensures |VisibleIndices(count, inFrustum)| <= count
    ensures (forall i :: 0 <= i < count ==> inFrustum(i)) ==> |VisibleIndices(count, inFrustum)| == count
  {
    if count > 0 {
      VisibleLength(count - 1, inFrustum);
    }
  }

  /** The last element of a non-empty strictly increasing list is its
      largest. */
  lemma LastIsLargest(s: seq<nat>, x: nat)
    requires StrictlyIncreasing(s) && x in s
    ensures x <= s[|s| - 1]
  {
  }

  /** Two strictly increasing lists with the same elements are equal. */
  lemma {:induction false} IncreasingUnique(a: seq<nat>, b: seq<nat>)
    requires StrictlyIncreasing(a) && StrictlyIncreasing(b)
    requires forall x: nat :: x in a <==> x in b
    ensures a == b
  {
    if a != [] || b != [] {
      var x := if a != [] then a[0] else b[0];
      assert x in a && x in b;
      var la, lb := a[|a| - 1], b[|b| - 1];
      LastIsLargest(a, lb);
      LastIsLargest(b, la);
      assert la == lb;
      var a', b' := a[..|a| - 1], b[..|b| - 1];
      forall x: nat ensures x in a' <==> x in b' {
        if x in a' {
          var p :| 0 <= p < |a'| && a'[p] == x;
          assert x < la;
        }
        if x in b' {
          var p :| 0 <= p < |b'| && b'[p] == x;
          assert x < lb;
        }
        assert x in a ==> x in a' || x == la;
        assert x in b ==> x in b' || x == lb;
      }
      IncreasingUnique(a', b');
      assert a == a' + [la];
      assert b == b' + [lb];
    }
  }

  /** The visible list is the only strictly increasing list of the live
      instances that pass the test: the result does not depend on how
      the list is built, only on what it must contain. */
  lemma VisibleCharacterised(count: nat, inFrustum: nat -> bool, s: seq<nat>)
    requires StrictlyIncreasing(s)
    requires forall x: nat :: x in s <==> x < count && inFrustum(x)
    ensures s == VisibleIndices(count, inFrustum)
  {
    VisibleIncreasing(count, inFrustum);
    forall x: nat ensures x in VisibleIndices(count, inFrustum) <==> x < count && inFrustum(x) {
      VisibleMembership(count, inFrustum, x);
    }
    IncreasingUnique(s, VisibleIndices(count, inFrustum));
  }

  /** Ten live instances of which only 1, 4, 6 and 9 are inside the
      frustum: the visible list is exactly those four, ascending. */
  lemma TenInstancesFourVisible()
    ensures VisibleIndices(10, i => i in {1, 4, 6, 9}) == [1, 4, 6, 9]
  {
  }

  /** Threads per group of the culling compute shader. */
  const GroupSize: nat := 64

  /** The number of thread groups the culling pass is dispatched with:
      the live count divided by 64, plus one when there is a remainder,
      that is the ceiling of count / 64. */
  function GroupCount(count: nat): (groups: nat)
    ensures groups * GroupSize >= count
    ensures count > 0 ==> (groups - 1) * GroupSize < count
    ensures count == 0 <==> groups == 0
  {
    count / GroupSize + (if count % GroupSize != 0 then 1 else 0)
  }
}
