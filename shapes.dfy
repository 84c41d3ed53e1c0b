/** Shapes defined by thresholding 3-D integer images, and the per-voxel
    predicates that compare a reference shape A with a compared shape B. */
module Shapes {

  /** A voxel coordinate (DGtal's Z3i::Point). */
  datatype Point = Point(x: int, y: int, z: int)

  /** A 3-D integer image: the points of its domain, in the domain's
      iteration order, and the intensity stored at each point. */
  datatype Image = Image(domain: seq<Point>, value: map<Point, int>)

  /** No point is listed twice. */
  predicate Distinct(pts: seq<Point>)
  {
    forall i, j :: 0 <= i < j < |pts| ==> pts[i] != pts[j]
  }

  /** A sequence that lists no point twice has as many distinct points as
      elements. */
  lemma {:induction false} DistinctCardinality(pts: seq<Point>)
    requires Distinct(pts)
    ensures |set p | p in pts| == |pts|
  {
    if pts != [] {
      var init := pts[..|pts| - 1];
      var last := pts[|pts| - 1];
      DistinctCardinality(init);
      assert pts == init + [last];
      assert (set p | p in pts) == (set p | p in init) + {last};
    }
  }

  /** Two sequences without repetitions that list the same points have the
      same length. */
  lemma SameElementsSameLength(s: seq<Point>, t: seq<Point>)
    requires Distinct(s) && Distinct(t)
    requires forall p :: p in s <==> p in t
    ensures |s| == |t|
  {
    DistinctCardinality(s);
    DistinctCardinality(t);
    assert (set p | p in s) == (set p | p in t);
  }

  /** A domain enumerates each of its points once, and every one of them
      carries an intensity. */
  predicate WellFormed(img: Image)
  {
    Distinct(img.domain) && forall p :: p in img.domain ==> p in img.value
  }

  /** The reference image A with its threshold interval [aMin, aMax] and the
      compared image B with its interval [bMin, bMax]. */
  datatype Comparison = Comparison(a: Image, aMin: int, aMax: int, b: Image, bMin: int, bMax: int)

  /** The same comparison with the roles of A and B exchanged. */
  function Swapped(cmp: Comparison): Comparison
  {
    Comparison(cmp.b, cmp.bMin, cmp.bMax, cmp.a, cmp.aMin, cmp.aMax)
  }

  /** Both images can be read at p. */
  predicate DefinedAt(cmp: Comparison, p: Point)
  {
    p in cmp.a.value && p in cmp.b.value
  }

  /** Both images can be read at every point of pts. */
  predicate DefinedOn(cmp: Comparison, pts: seq<Point>)
  {
    forall p :: p in pts ==> DefinedAt(cmp, p)
  }

  /** A voxel is "on" in the shape of img when its value lies in the
      interval [lo, hi], both ends included. An inverted interval is not an
      error: it defines the empty shape. */
  function IsOn(img: Image, lo: int, hi: int, p: Point): (on: bool)
    requires p in img.value
    ensures on ==> lo <= hi
    ensures img.value[p] == lo && lo <= hi ==> on
    ensures img.value[p] == hi && lo <= hi ==> on
    ensures !on <==> img.value[p] < lo || hi < img.value[p]
  {
    img.value[p] <= hi && img.value[p] >= lo
  }

  /** p belongs to the reference shape A. */
  function InA(cmp: Comparison, p: Point): bool
    requires p in cmp.a.value
  {
    IsOn(cmp.a, cmp.aMin, cmp.aMax, p)
  }

  /** p belongs to the compared shape B. */
  function InB(cmp: Comparison, p: Point): bool
    requires p in cmp.b.value
  {
    IsOn(cmp.b, cmp.bMin, cmp.bMax, p)
  }

  /** isDiff: the two shapes disagree at p. */
  function IsDiff(cmp: Comparison, p: Point): (diff: bool)
    requires DefinedAt(cmp, p)
    ensures diff <==> InA(cmp, p) != InB(cmp, p)
  {
    var isRefOn := IsOn(cmp.a, cmp.aMin, cmp.aMax, p);
    var isCompOn := IsOn(cmp.b, cmp.bMin, cmp.bMax, p);
    (!isRefOn && isCompOn) || (isRefOn && !isCompOn)
  }

  /** isDiff does not depend on which image is taken as the reference. */
  lemma IsDiffSymmetric(cmp: Comparison, p: Point)
    requires DefinedAt(cmp, p)
    ensures DefinedAt(Swapped(cmp), p)
    ensures IsDiff(Swapped(cmp), p) == IsDiff(cmp, p)
  {
  }

  /** The four categories of a voxel, with A as the reference shape:
      true positive, true negative, false positive, false negative. */
  datatype Category = BinA | NotBNotA | BNotInA | NotBInA

  /** The category of p, decided as the classification loop does: first
      membership in A, then membership in B. */
  function CategoryOf(cmp: Comparison, p: Point): (c: Category)
    requires DefinedAt(cmp, p)
    ensures c == BinA <==> InA(cmp, p) && InB(cmp, p)
    ensures c == NotBInA <==> InA(cmp, p) && !InB(cmp, p)
    ensures c == BNotInA <==> !InA(cmp, p) && InB(cmp, p)
    ensures c == NotBNotA <==> !InA(cmp, p) && !InB(cmp, p)
    ensures IsDiff(cmp, p) <==> c == BNotInA || c == NotBInA
  {
    if IsOn(cmp.a, cmp.aMin, cmp.aMax, p) then
      if IsOn(cmp.b, cmp.bMin, cmp.bMax, p) then BinA else NotBInA
    else
      if IsOn(cmp.b, cmp.bMin, cmp.bMax, p) then BNotInA else NotBNotA
  }
}
