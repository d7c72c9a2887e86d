/**
 * The choice of the active tick in `ChatNavigator.updateActiveFromScroll`
 * (src/core/navigator.js): a lower-bound binary search for the anchor among the message
 * centers, then a comparison with the predecessor, which wins only when strictly closer.
 */
module ActiveIndex {

  predicate Sorted(c: seq<real>)
  {
    forall i, j :: 0 <= i < j < |c| ==> c[i] <= c[j]
  }

  function Abs(x: real): real { if x < 0.0 then -x else x }

  /** The first position whose center is at or past the anchor (`c[i] >= anchor`), or `|c|`. */
  function FirstAtLeast(c: seq<real>, anchor: real): (r: nat)
    ensures r <= |c|
    ensures forall i :: 0 <= i < r ==> c[i] < anchor
    ensures r < |c| ==> c[r] >= anchor
  {
    if c == [] then 0
    else if c[0] >= anchor then 0
    else
      var r := FirstAtLeast(c[1..], anchor);
      assert forall i :: 1 <= i < r + 1 ==> c[i] == c[1..][i - 1];
      r + 1
  }

  /** What the search converges on: the first center at or past the anchor, or the last position
      when every center is before it. */
  function LowerBound(c: seq<real>, anchor: real): (r: nat)
    requires |c| > 0
    ensures r < |c|
  {
    var f := FirstAtLeast(c, anchor);
    if f < |c| then f else |c| - 1
  }

  /** The index the navigator makes active: the lower bound, or its predecessor when the
      predecessor's center is strictly closer to the anchor. */
  function ActiveIndexFor(c: seq<real>, anchor: real): (r: nat)
    requires |c| > 0
    ensures r < |c|
  {
    var lb := LowerBound(c, anchor);
    if lb > 0 && Abs(c[lb - 1] - anchor) < Abs(c[lb] - anchor) then lb - 1 else lb
  }

  /** Moving the anchor down never moves the lower bound up. */
  lemma FirstAtLeastMonotone(c: seq<real>, a1: real, a2: real)
    requires a1 <= a2
    ensures FirstAtLeast(c, a1) <= FirstAtLeast(c, a2)
  {
  }

  /** On sorted centers the active index never moves backward as the anchor moves down the
      conversation. */
  lemma ActiveIndexMonotone(c: seq<real>, a1: real, a2: real)
    requires |c| > 0 && Sorted(c) && a1 <= a2
    ensures ActiveIndexFor(c, a1) <= ActiveIndexFor(c, a2)
  {
    FirstAtLeastMonotone(c, a1, a2);
  }

  /** The binary search and predecessor comparison of `updateActiveFromScroll`. With no centers at
      all, `hi` starts at -1, the loop does not run and the index is 0. */
  method SearchNearest(centers: seq<real>, anchor: real) returns (idx: nat)
    ensures |centers| == 0 ==> idx == 0
    ensures |centers| > 0 ==> idx < |centers|
    ensures |centers| > 0 && Sorted(centers) ==> idx == ActiveIndexFor(centers, anchor)
  {
    if |centers| == 0 {
      return 0;
    }
    var lo := 0;
    var hi := |centers| - 1;
    while lo < hi
      invariant 0 <= lo <= hi < |centers|
      invariant Sorted(centers) ==> forall i :: 0 <= i < lo ==> centers[i] < anchor
      invariant Sorted(centers) ==> hi == |centers| - 1 || centers[hi] >= anchor
      decreases hi - lo
    {
      var mid := (lo + hi) / 2;
      if centers[mid] < anchor {
        lo := mid + 1;
      } else {
        hi := mid;
      }
    }
    if Sorted(centers) {
      LowerBoundIsUnique(centers, anchor, lo);
    }
    idx := lo;
    if idx > 0 {
      var a := centers[idx];
      var b := centers[idx - 1];
      if Abs(b - anchor) < Abs(a - anchor) {
        idx := idx - 1;
      }
    }
  }

  /** A position with every earlier center before the anchor and its own at or past it (or the
      last position) is the lower bound. */
  lemma LowerBoundIsUnique(c: seq<real>, anchor: real, k: nat)
    requires k < |c|
    requires forall i :: 0 <= i < k ==> c[i] < anchor
    requires k == |c| - 1 || c[k] >= anchor
    ensures LowerBound(c, anchor) == k
  {
  }

  /** On sorted centers the active index is a nearest one: no center is strictly closer to the
      anchor. */
  lemma ActiveIsNearest(c: seq<real>, anchor: real, j: nat)
    requires |c| > 0 && Sorted(c) && j < |c|
    ensures Abs(c[ActiveIndexFor(c, anchor)] - anchor) <= Abs(c[j] - anchor)
  {
    var lb := LowerBound(c, anchor);
    var f := FirstAtLeast(c, anchor);
    var idx := ActiveIndexFor(c, anchor);
    if f < |c| {
      // c[lb] is the first center at or past the anchor and c[lb - 1] the last one before it
      if j >= lb {
        assert c[j] >= c[lb] >= anchor;
      } else {
        assert c[j] <= c[lb - 1] < anchor;
      }
    } else {
      // every center is before the anchor: the last one is the nearest
      assert lb == |c| - 1;
      assert c[j] <= c[lb] < anchor;
      if lb > 0 {
        assert c[lb - 1] <= c[lb];
      }
    }
  }

  /** On strictly increasing centers every center after the active one is strictly farther from
      the anchor: among equally near centers the active one is the last. */
  lemma LaterIsFarther(c: seq<real>, anchor: real, j: nat)
    requires |c| > 0 && (forall i, k :: 0 <= i < k < |c| ==> c[i] < c[k])
    requires ActiveIndexFor(c, anchor) < j < |c|
    ensures Abs(c[j] - anchor) > Abs(c[ActiveIndexFor(c, anchor)] - anchor)
  {
  }

  /** The tie rule: an anchor exactly halfway between two neighbouring centers makes the later
      of the two active. */
  lemma TiesGoLater(c: seq<real>, anchor: real, i: nat)
    requires (forall p, q :: 0 <= p < q < |c| ==> c[p] < c[q])
    requires i + 1 < |c| && c[i] < anchor <= c[i + 1]
    requires anchor - c[i] == c[i + 1] - anchor
    ensures ActiveIndexFor(c, anchor) == i + 1
  {
    LowerBoundIsUnique(c, anchor, i + 1);
  }

  /** An example of the tie rule: centers 100 and 300 with the anchor at 200 make the
      second message active. */
  lemma TieKeepsLaterIndex()
    ensures ActiveIndexFor([100.0, 300.0], 200.0) == 1
  {
    assert FirstAtLeast([100.0, 300.0], 200.0) == 1 by {
      assert [100.0, 300.0][1..] == [300.0];
    }
  }

  /** With one center, it is active wherever the anchor is. */
  lemma SingleCenterIsActive(x: real, anchor: real)
    ensures ActiveIndexFor([x], anchor) == 0
  {
  }
}
