/** The distance statistics of getStatsFromDistanceMap: the points of the
    compared shape B (all of them, or only those where A and B disagree)
    are looked up in a distance field rooted at shape A; each distance is
    added to a statistic, and the largest one, with the first point that
    reached it, is tracked. */
module DistanceStats {
  import opened Wrappers
  import opened Shapes
  import VoxelClassifier

  /** The Statistic<double> accumulator, seen as the sequence of values it
      has been given. */
  class Statistic {
    var values: seq<real>

    constructor ()
      ensures values == []
    {
      values := [];
    }

    method AddValue(v: real)
      modifies this
      ensures values == old(values) + [v]
    {
      values := values + [v];
    }
  }

  /** The point that the optional ptMax pointer designates. */
  class PointCell {
    var pt: Point

    constructor (p: Point)
      ensures pt == p
    {
      pt := p;
    }
  }

  /** pts lists, once each, exactly the domain points of img whose value lies
      in [lo, hi]: what SetFromImage::append yields when given lo - 1 and hi. */
  ghost predicate IsShapeSet(pts: seq<Point>, img: Image, lo: int, hi: int)
    requires WellFormed(img)
  {
    Distinct(pts) && forall p :: p in pts <==> p in img.domain && IsOn(img, lo, hi, p)
  }

  // ---------------------------------------------------------------------
  // Specification of the loop

  /** Whether the loop adds the distance of p: always, unless restricted to
      the points where A and B disagree. */
  function Keeps(cmp: Comparison, onlyDiff: bool, p: Point): bool
    requires onlyDiff ==> DefinedAt(cmp, p)
  {
    !onlyDiff || IsDiff(cmp, p)
  }

  /** The points among the first n of pts whose distance is added, in order. */
  function Selected(cmp: Comparison, pts: seq<Point>, n: nat, onlyDiff: bool): (r: seq<Point>)
    requires n <= |pts|
    requires onlyDiff ==> DefinedOn(cmp, pts)
    ensures |r| <= n
  {
    if n == 0 then []
    else Selected(cmp, pts, n - 1, onlyDiff) + (if Keeps(cmp, onlyDiff, pts[n - 1]) then [pts[n - 1]] else [])
  }

  /** The distances of qs, in order. */
  function Distances(qs: seq<Point>, dist: Point -> real): (ds: seq<real>)
    ensures |ds| == |qs|
  {
    if qs == [] then [] else Distances(qs[..|qs| - 1], dist) + [dist(qs[|qs| - 1])]
  }

  /** maxDist after visiting qs: it starts at 0 and is replaced by a distance
      that strictly exceeds it. It is the largest of 0 and all distances. */
  function MaxDist(qs: seq<Point>, dist: Point -> real): real
  {
    if qs == [] then 0.0
    else
      var m := MaxDist(qs[..|qs| - 1], dist);
      var d := dist(qs[|qs| - 1]);
      if m < d then d else m
  }

  /** The point last written to *ptMax while visiting qs, if any: the point
      whose distance strictly raised maxDist. */
  function ArgMax(qs: seq<Point>, dist: Point -> real): Option<Point>
  {
    if qs == [] then None
    else if MaxDist(qs[..|qs| - 1], dist) < dist(qs[|qs| - 1]) then Some(qs[|qs| - 1])
    else ArgMax(qs[..|qs| - 1], dist)
  }

  /** The value *ptMax holds after visiting qs, given the value it held before. */
  function Farthest(qs: seq<Point>, dist: Point -> real, before: Point): Point
  {
    match ArgMax(qs, dist)
    case Some(q) => q
    case None => before
  }

  // ---------------------------------------------------------------------
  // One more visited point

  lemma SelectedStep(cmp: Comparison, pts: seq<Point>, n: nat, onlyDiff: bool)
    requires n < |pts|
    requires onlyDiff ==> DefinedOn(cmp, pts)
    ensures Keeps(cmp, onlyDiff, pts[n]) ==> Selected(cmp, pts, n + 1, onlyDiff) == Selected(cmp, pts, n, onlyDiff) + [pts[n]]
    ensures !Keeps(cmp, onlyDiff, pts[n]) ==> Selected(cmp, pts, n + 1, onlyDiff) == Selected(cmp, pts, n, onlyDiff)
  {
    assert Selected(cmp, pts, n, onlyDiff) + [] == Selected(cmp, pts, n, onlyDiff);
  }

  /** The loop's variables after some iterations: the values given to the
      statistic, nbAdded, maxDist and the point last recorded as farthest. */
  datatype Scan = Scan(values: seq<real>, nbAdded: nat, maxDist: real, farthest: Point)

  /** One kept point p at distance d. */
  function Step(s: Scan, p: Point, d: real): Scan
  {
    if s.maxDist < d then Scan(s.values + [d], s.nbAdded + 1, d, p)
    else Scan(s.values + [d], s.nbAdded + 1, s.maxDist, s.farthest)
  }

  /** The loop's variables after visiting the kept points qs, in order. */
  function ScanOf(qs: seq<Point>, dist: Point -> real, start: Scan): Scan
  {
    if qs == [] then start
    else Step(ScanOf(qs[..|qs| - 1], dist, start), qs[|qs| - 1], dist(qs[|qs| - 1]))
  }

  lemma ScanSnoc(qs: seq<Point>, q: Point, dist: Point -> real, start: Scan)
    ensures ScanOf(qs + [q], dist, start) == Step(ScanOf(qs, dist, start), q, dist(q))
  {
    assert (qs + [q])[..|qs|] == qs;
  }

  /** The loop's variables after visiting the first n points of pts, keeping
      those the selection keeps. */
  function ScanFrom(cmp: Comparison, pts: seq<Point>, n: nat, onlyDiff: bool, dist: Point -> real, start: Scan): Scan
    requires n <= |pts|
    requires onlyDiff ==> DefinedOn(cmp, pts)
  {
    if n == 0 then start
    else
      var s := ScanFrom(cmp, pts, n - 1, onlyDiff, dist, start);
      if Keeps(cmp, onlyDiff, pts[n - 1]) then Step(s, pts[n - 1], dist(pts[n - 1])) else s
  }

  /** Visiting all points while skipping some is visiting the kept ones. */
  lemma {:induction false} ScanFromSelected(cmp: Comparison, pts: seq<Point>, n: nat, onlyDiff: bool,
                                            dist: Point -> real, start: Scan)
    requires n <= |pts|
    requires onlyDiff ==> DefinedOn(cmp, pts)
    ensures ScanFrom(cmp, pts, n, onlyDiff, dist, start) == ScanOf(Selected(cmp, pts, n, onlyDiff), dist, start)
  {
    if n > 0 {
      ScanFromSelected(cmp, pts, n - 1, onlyDiff, dist, start);
      SelectedStep(cmp, pts, n - 1, onlyDiff);
      if Keeps(cmp, onlyDiff, pts[n - 1]) {
        ScanSnoc(Selected(cmp, pts, n - 1, onlyDiff), pts[n - 1], dist, start);
      }
    }
  }

  /** The values given to the statistic and nbAdded after visiting qs. */
  lemma {:induction false} ScanValues(qs: seq<Point>, dist: Point -> real, start: Scan)
    ensures ScanOf(qs, dist, start).values == start.values + Distances(qs, dist)
    ensures ScanOf(qs, dist, start).nbAdded == start.nbAdded + |qs|
  {
    if qs != [] {
      var init := qs[..|qs| - 1];
      ScanValues(init, dist, start);
      assert start.values + Distances(init, dist) + [dist(qs[|qs| - 1])]
          == start.values + (Distances(init, dist) + [dist(qs[|qs| - 1])]);
    }
  }

  /** maxDist and the recorded point after visiting qs, from maxDist = 0. */
  lemma {:induction false} ScanFarthest(qs: seq<Point>, dist: Point -> real, start: Scan)
    requires start.maxDist == 0.0
    ensures ScanOf(qs, dist, start).maxDist == MaxDist(qs, dist)
    ensures ScanOf(qs, dist, start).farthest == Farthest(qs, dist, start.farthest)
  {
    if qs != [] {
      ScanFarthest(qs[..|qs| - 1], dist, start);
    }
  }

  // ---------------------------------------------------------------------
  // Properties of the specification

  /** The k-th value given to the statistic is the distance of the k-th
      selected point. */
  lemma {:induction false} DistancesAt(qs: seq<Point>, dist: Point -> real)
    ensures forall k :: 0 <= k < |qs| ==> Distances(qs, dist)[k] == dist(qs[k])
  {
    if qs != [] {
      DistancesAt(qs[..|qs| - 1], dist);
    }
  }

  /** maxDist is the largest of 0 and the distances visited. */
  lemma {:induction false} MaxDistIsMax(qs: seq<Point>, dist: Point -> real)
    ensures 0.0 <= MaxDist(qs, dist)
    ensures forall k :: 0 <= k < |qs| ==> dist(qs[k]) <= MaxDist(qs, dist)
    ensures MaxDist(qs, dist) == 0.0 || exists k :: 0 <= k < |qs| && dist(qs[k]) == MaxDist(qs, dist)
  {
    if qs != [] {
      var init := qs[..|qs| - 1];
      MaxDistIsMax(init, dist);
      assert forall k :: 0 <= k < |init| ==> qs[k] == init[k];
    }
  }

  /** The recorded point is the first visited point whose distance equals the
      final maxDist, and that maximum is positive. */
  lemma {:induction false} ArgMaxIsFirstFarthest(qs: seq<Point>, dist: Point -> real, q: Point)
    requires ArgMax(qs, dist) == Some(q)
    ensures dist(q) == MaxDist(qs, dist) && 0.0 < dist(q)
    ensures exists k :: 0 <= k < |qs| && qs[k] == q && forall j :: 0 <= j < k ==> dist(qs[j]) < dist(q)
  {
    var init := qs[..|qs| - 1];
    MaxDistIsMax(init, dist);
    if MaxDist(init, dist) < dist(qs[|qs| - 1]) {
      var k := |qs| - 1;
      assert forall j :: 0 <= j < k ==> qs[j] == init[j];
    } else {
      ArgMaxIsFirstFarthest(init, dist, q);
      var k :| 0 <= k < |init| && init[k] == q && forall j :: 0 <= j < k ==> dist(init[j]) < dist(q);
      assert qs[k] == q;
    }
  }

  /** Nothing is recorded exactly when no distance is positive, that is, when
      maxDist stays 0. */
  lemma {:induction false} ArgMaxNoneIffNoPositive(qs: seq<Point>, dist: Point -> real)
    ensures ArgMax(qs, dist) == None <==> MaxDist(qs, dist) == 0.0
    ensures ArgMax(qs, dist) == None <==> forall k :: 0 <= k < |qs| ==> dist(qs[k]) <= 0.0
  {
    MaxDistIsMax(qs, dist);
    if qs != [] {
      var init := qs[..|qs| - 1];
      ArgMaxNoneIffNoPositive(init, dist);
      MaxDistIsMax(init, dist);
      assert forall k :: 0 <= k < |init| ==> qs[k] == init[k];
    }
  }

  /** Without the restriction every point of pts is selected, in order. */
  lemma {:induction false} SelectedAll(cmp: Comparison, pts: seq<Point>, n: nat)
    requires n <= |pts|
    ensures Selected(cmp, pts, n, false) == pts[..n]
  {
    if n > 0 {
      SelectedAll(cmp, pts, n - 1);
      assert pts[..n] == pts[..n - 1] + [pts[n - 1]];
    }
  }

  /** The selected points are exactly the visited points that are kept. */
  lemma {:induction false} SelectedMembers(cmp: Comparison, pts: seq<Point>, n: nat, onlyDiff: bool)
    requires n <= |pts|
    requires onlyDiff ==> DefinedOn(cmp, pts)
    ensures forall p :: p in Selected(cmp, pts, n, onlyDiff) <==> p in pts[..n] && Keeps(cmp, onlyDiff, p)
  {
    if n > 0 {
      SelectedMembers(cmp, pts, n - 1, onlyDiff);
      assert pts[..n] == pts[..n - 1] + [pts[n - 1]];
    }
  }

  /** A selection from distinct points lists each point once. */
  lemma {:induction false} SelectedDistinct(cmp: Comparison, pts: seq<Point>, n: nat, onlyDiff: bool)
    requires n <= |pts| && Distinct(pts)
    requires onlyDiff ==> DefinedOn(cmp, pts)
    ensures Distinct(Selected(cmp, pts, n, onlyDiff))
  {
    if n > 0 {
      SelectedDistinct(cmp, pts, n - 1, onlyDiff);
      SelectedMembers(cmp, pts, n - 1, onlyDiff);
      assert pts[n - 1] !in pts[..n - 1];
    }
  }

  /** Restricted to the points where the shapes disagree, the loop selects
      exactly the points of B that are not in A. */
  lemma RestrictedSelectsBNotInA(cmp: Comparison, setComp: seq<Point>)
    requires WellFormed(cmp.b) && IsShapeSet(setComp, cmp.b, cmp.bMin, cmp.bMax)
    requires forall p :: p in cmp.b.domain ==> p in cmp.a.value
    ensures DefinedOn(cmp, setComp)
    ensures forall p :: p in Selected(cmp, setComp, |setComp|, true)
                    <==> p in cmp.b.domain && DefinedAt(cmp, p) && CategoryOf(cmp, p) == BNotInA
  {
    SelectedMembers(cmp, setComp, |setComp|, true);
    assert setComp[..|setComp|] == setComp;
  }

  /** When both images share one set of points, the loop restricted to the
      disagreements adds one distance per false positive counted by the
      classification of B against A. */
  lemma RestrictedCountIsFalsePositives(cmp: Comparison, setComp: seq<Point>)
    requires WellFormed(cmp.a) && WellFormed(cmp.b)
    requires forall p :: p in cmp.a.domain <==> p in cmp.b.domain
    requires IsShapeSet(setComp, cmp.b, cmp.bMin, cmp.bMax)
    ensures DefinedOn(cmp, cmp.a.domain) && DefinedOn(cmp, setComp)
    ensures |Selected(cmp, setComp, |setComp|, true)|
         == VoxelClassifier.Tally(cmp, cmp.a.domain, |cmp.a.domain|).bNotInA
  {
    var dom := cmp.a.domain;
    var sel := Selected(cmp, setComp, |setComp|, true);
    var fp := VoxelClassifier.InCategory(cmp, dom, |dom|, BNotInA);
    RestrictedSelectsBNotInA(cmp, setComp);
    SelectedDistinct(cmp, setComp, |setComp|, true);
    VoxelClassifier.InCategoryMembers(cmp, dom, |dom|, BNotInA);
    VoxelClassifier.InCategoryDistinct(cmp, dom, |dom|, BNotInA);
    assert dom[..|dom|] == dom;
    SameElementsSameLength(sel, fp);
  }

  /** When both images share one set of points, the unrestricted loop adds
      one distance per point of shape B, the total the classification
      reports for B. */
  lemma UnrestrictedCountIsShapeSize(cmp: Comparison, setComp: seq<Point>)
    requires WellFormed(cmp.a) && WellFormed(cmp.b)
    requires forall p :: p in cmp.a.domain <==> p in cmp.b.domain
    requires IsShapeSet(setComp, cmp.b, cmp.bMin, cmp.bMax)
    ensures DefinedOn(cmp, cmp.a.domain)
    ensures |Selected(cmp, setComp, |setComp|, false)|
         == VoxelClassifier.Tally(cmp, cmp.a.domain, |cmp.a.domain|).totalInB
  {
    var dom := cmp.a.domain;
    var inB := VoxelClassifier.Sieve(dom, |dom|, cmp.b, cmp.bMin, cmp.bMax, true);
    SelectedAll(cmp, setComp, |setComp|);
    assert setComp[..|setComp|] == setComp;
    VoxelClassifier.SieveMembers(dom, |dom|, cmp.b, cmp.bMin, cmp.bMax, true);
    VoxelClassifier.SieveDistinct(dom, |dom|, cmp.b, cmp.bMin, cmp.bMax, true);
    assert dom[..|dom|] == dom;
    SameElementsSameLength(setComp, inB);
  }

  // ---------------------------------------------------------------------
  // The loop

  /** The selection loop of getStatsFromDistanceMap. setComp is the point set
      built from B, dist the distance field built from A. Each kept point's
      distance is added to stats; ptMax, when not null, receives the point
      that first reached the largest distance. The result is the diagnostic
      printed when no point was added. */
  method GetStatsFromDistanceMap(stats: Statistic, cmp: Comparison, setComp: seq<Point>,
                                 dist: Point -> real, statOnFalsePositiveOnly: bool, ptMax: PointCell?)
    returns (noPointAdded: bool)
    requires WellFormed(cmp.b) && IsShapeSet(setComp, cmp.b, cmp.bMin, cmp.bMax)
    requires statOnFalsePositiveOnly ==> forall p :: p in cmp.b.domain ==> p in cmp.a.value
    modifies stats, ptMax
    ensures statOnFalsePositiveOnly ==> DefinedOn(cmp, setComp)
    ensures stats.values == old(stats.values)
                            + Distances(Selected(cmp, setComp, |setComp|, statOnFalsePositiveOnly), dist)
    ensures ptMax != null ==>
      ptMax.pt == Farthest(Selected(cmp, setComp, |setComp|, statOnFalsePositiveOnly), dist, old(ptMax.pt))
    ensures noPointAdded <==> Selected(cmp, setComp, |setComp|, statOnFalsePositiveOnly) == []
  {
    assert statOnFalsePositiveOnly ==> DefinedOn(cmp, setComp);
    ghost var pt0 := if ptMax != null then ptMax.pt else Point(0, 0, 0);
    ghost var start := Scan(stats.values, 0, 0.0, pt0);
    ghost var farthest := pt0;
    var nbAdded: nat := 0;
    var maxDist: real := 0.0;
    var i := 0;
    while i < |setComp|
      invariant 0 <= i <= |setComp|
      invariant Scan(stats.values, nbAdded, maxDist, farthest)
             == ScanFrom(cmp, setComp, i, statOnFalsePositiveOnly, dist, start)
      invariant ptMax != null ==> ptMax.pt == farthest
    {
      var it := setComp[i];
      if !statOnFalsePositiveOnly || IsDiff(cmp, it) {
        var distance := dist(it);
        stats.AddValue(distance);
        nbAdded := nbAdded + 1;
        if maxDist < distance {
          maxDist := distance;
          farthest := it;
          if ptMax != null {
            ptMax.pt := it;
          }
        }
      }
      i := i + 1;
    }
    ghost var sel := Selected(cmp, setComp, |setComp|, statOnFalsePositiveOnly);
    ScanFromSelected(cmp, setComp, |setComp|, statOnFalsePositiveOnly, dist, start);
    ScanValues(sel, dist, start);
    ScanFarthest(sel, dist, start);
    noPointAdded := nbAdded == 0;
  }
}
