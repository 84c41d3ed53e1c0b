/** The voxel classifier: one sweep over A's domain that sorts every voxel
    into one of the four categories, counts them together with the four
    shape totals, optionally exports the points of each category, and
    optionally derives precision, recall and F-mean. */
module VoxelClassifier {
  import opened Wrappers
  import opened Shapes

  /** A caller-owned std::vector<Point> that the classifier appends to. */
  class PointVector {
    var items: seq<Point>

    constructor ()
      ensures items == []
    {
      items := [];
    }

    method PushBack(p: Point)
      modifies this
      ensures items == old(items) + [p]
    {
      items := items + [p];
    }
  }

  // ---------------------------------------------------------------------
  // Specification of the sweep: what it has produced after visiting the
  // first n points of pts

  /** The points among the first n of pts in category cat, in order. */
  function InCategory(cmp: Comparison, pts: seq<Point>, n: nat, cat: Category): (r: seq<Point>)
    requires n <= |pts| && DefinedOn(cmp, pts)
    ensures |r| <= n
  {
    if n == 0 then []
    else
      InCategory(cmp, pts, n - 1, cat) + (if CategoryOf(cmp, pts[n - 1]) == cat then [pts[n - 1]] else [])
  }

  /** The points among the first n of pts whose membership in the shape of
      img is `on`, in order: the shape itself when `on` holds, its
      complement otherwise. */
  function Sieve(pts: seq<Point>, n: nat, img: Image, lo: int, hi: int, on: bool): (r: seq<Point>)
    requires n <= |pts|
    requires forall p :: p in pts ==> p in img.value
    ensures |r| <= n
  {
    if n == 0 then []
    else
      Sieve(pts, n - 1, img, lo, hi, on) + (if IsOn(img, lo, hi, pts[n - 1]) == on then [pts[n - 1]] else [])
  }

  /** The eight counters the classifier prints, in the order it prints them. */
  datatype Counts = Counts(
    binA: nat,           // B in A: true positives
    compBinCompA: nat,   // not B and not A: true negatives
    bNotInA: nat,        // B not in A: false positives
    notBinA: nat,        // not B but in A: false negatives
    totalInA: nat,
    totalInB: nat,
    totalInCompA: nat,
    totalInCompB: nat)

  /** What the counters mean after the first n points of pts: each category
      counter is the number of points in that category, each total the size
      of a shape or of its complement. */
  function Tally(cmp: Comparison, pts: seq<Point>, n: nat): Counts
    requires n <= |pts| && DefinedOn(cmp, pts)
  {
    Counts(
      |InCategory(cmp, pts, n, BinA)|, |InCategory(cmp, pts, n, NotBNotA)|,
      |InCategory(cmp, pts, n, BNotInA)|, |InCategory(cmp, pts, n, NotBInA)|,
      |Sieve(pts, n, cmp.a, cmp.aMin, cmp.aMax, true)|, |Sieve(pts, n, cmp.b, cmp.bMin, cmp.bMax, true)|,
      |Sieve(pts, n, cmp.a, cmp.aMin, cmp.aMax, false)|, |Sieve(pts, n, cmp.b, cmp.bMin, cmp.bMax, false)|)
  }

  /** What the vector of category cat receives from the first n points. */
  function Exported(cmp: Comparison, pts: seq<Point>, n: nat, cat: Category, exportStatVoxels: bool): seq<Point>
    requires n <= |pts| && DefinedOn(cmp, pts)
  {
    if exportStatVoxels then InCategory(cmp, pts, n, cat) else []
  }

  /** The state of the classification loop: its eight counters and the four
      category vectors. */
  datatype SweepState = SweepState(counts: Counts,
    binA: seq<Point>, compBinCompA: seq<Point>, bNotInA: seq<Point>, notBinA: seq<Point>)

  const NoCounts := Counts(0, 0, 0, 0, 0, 0, 0, 0)

  /** The counters after one more voxel with the given memberships: one more
      in its category and in the two totals it belongs to. */
  function CountVoxel(c: Counts, inA: bool, inB: bool): Counts
  {
    Counts(
      c.binA + (if inA && inB then 1 else 0),
      c.compBinCompA + (if !inA && !inB then 1 else 0),
      c.bNotInA + (if !inA && inB then 1 else 0),
      c.notBinA + (if inA && !inB then 1 else 0),
      c.totalInA + (if inA then 1 else 0),
      c.totalInB + (if inB then 1 else 0),
      c.totalInCompA + (if inA then 0 else 1),
      c.totalInCompB + (if inB then 0 else 1))
  }

  /** One iteration of the classification loop, at point p: the counters
      move as CountVoxel says and, when exporting, p is appended to the
      vector of its category. */
  function Visit(cmp: Comparison, s: SweepState, p: Point, exportStatVoxels: bool): SweepState
    requires DefinedAt(cmp, p)
  {
    var inA := IsOn(cmp.a, cmp.aMin, cmp.aMax, p);
    var inB := IsOn(cmp.b, cmp.bMin, cmp.bMax, p);
    var t := s.(counts := CountVoxel(s.counts, inA, inB));
    if !exportStatVoxels then t
    else if inA then
      if inB then t.(binA := t.binA + [p]) else t.(notBinA := t.notBinA + [p])
    else
      if inB then t.(bNotInA := t.bNotInA + [p]) else t.(compBinCompA := t.compBinCompA + [p])
  }

  /** The loop state after visiting the first n points, starting from `start`. */
  function SweepFrom(cmp: Comparison, pts: seq<Point>, n: nat, exportStatVoxels: bool, start: SweepState): SweepState
    requires n <= |pts| && DefinedOn(cmp, pts)
  {
    if n == 0 then start
    else Visit(cmp, SweepFrom(cmp, pts, n - 1, exportStatVoxels, start), pts[n - 1], exportStatVoxels)
  }

  // ---------------------------------------------------------------------
  // Properties of the specification

  /** A category list holds exactly the visited points of that category. */
  lemma {:induction false} InCategoryMembers(cmp: Comparison, pts: seq<Point>, n: nat, cat: Category)
    requires n <= |pts| && DefinedOn(cmp, pts)
    ensures forall p :: p in InCategory(cmp, pts, n, cat) <==> p in pts[..n] && CategoryOf(cmp, p) == cat
  {
    if n > 0 {
      assert pts[..n] == pts[..n - 1] + [pts[n - 1]];
      InCategoryMembers(cmp, pts, n - 1, cat);
    }
  }

  /** A sieve holds exactly the visited points whose membership is `on`. */
  lemma {:induction false} SieveMembers(pts: seq<Point>, n: nat, img: Image, lo: int, hi: int, on: bool)
    requires n <= |pts|
    requires forall p :: p in pts ==> p in img.value
    ensures forall p :: p in Sieve(pts, n, img, lo, hi, on) <==> p in pts[..n] && IsOn(img, lo, hi, p) == on
  {
    if n > 0 {
      assert pts[..n] == pts[..n - 1] + [pts[n - 1]];
      SieveMembers(pts, n - 1, img, lo, hi, on);
    }
  }

  /** A category list drawn from distinct points lists each point once. */
  lemma {:induction false} InCategoryDistinct(cmp: Comparison, pts: seq<Point>, n: nat, cat: Category)
    requires n <= |pts| && DefinedOn(cmp, pts) && Distinct(pts)
    ensures Distinct(InCategory(cmp, pts, n, cat))
  {
    if n > 0 {
      InCategoryDistinct(cmp, pts, n - 1, cat);
      InCategoryMembers(cmp, pts, n - 1, cat);
      assert pts[n - 1] !in pts[..n - 1];
    }
  }

  /** A sieve drawn from distinct points lists each point once. */
  lemma {:induction false} SieveDistinct(pts: seq<Point>, n: nat, img: Image, lo: int, hi: int, on: bool)
    requires n <= |pts| && Distinct(pts)
    requires forall p :: p in pts ==> p in img.value
    ensures Distinct(Sieve(pts, n, img, lo, hi, on))
  {
    if n > 0 {
      SieveDistinct(pts, n - 1, img, lo, hi, on);
      SieveMembers(pts, n - 1, img, lo, hi, on);
      assert pts[n - 1] !in pts[..n - 1];
    }
  }

  /** Every point falls into exactly one category, so the four category
      counters add up to the number of points visited. */
  lemma {:induction false} PartitionSize(cmp: Comparison, pts: seq<Point>, n: nat)
    requires n <= |pts| && DefinedOn(cmp, pts)
    ensures var t := Tally(cmp, pts, n);
      t.binA + t.compBinCompA + t.bNotInA + t.notBinA == n
  {
    if n > 0 {
      PartitionSize(cmp, pts, n - 1);
    }
  }

  /** Each shape total is the sum of the two categories that make it up. */
  lemma {:induction false} ShapeTotals(cmp: Comparison, pts: seq<Point>, n: nat)
    requires n <= |pts| && DefinedOn(cmp, pts)
    ensures var t := Tally(cmp, pts, n);
      && t.totalInA == t.binA + t.notBinA
      && t.totalInB == t.binA + t.bNotInA
      && t.totalInCompA == t.bNotInA + t.compBinCompA
      && t.totalInCompB == t.notBinA + t.compBinCompA
  {
    if n > 0 {
      ShapeTotals(cmp, pts, n - 1);
    }
  }

  /** The vector of category cat in a loop state. */
  function VectorOf(s: SweepState, cat: Category): seq<Point>
  {
    match cat
    case BinA => s.binA
    case NotBNotA => s.compBinCompA
    case BNotInA => s.bNotInA
    case NotBInA => s.notBinA
  }

  /** One iteration appends p to the vector of its category, when exporting,
      and leaves the other vectors alone. */
  lemma VisitVector(cmp: Comparison, s: SweepState, p: Point, exportStatVoxels: bool, cat: Category)
    requires DefinedAt(cmp, p)
    ensures VectorOf(Visit(cmp, s, p, exportStatVoxels), cat)
         == VectorOf(s, cat) + (if exportStatVoxels && CategoryOf(cmp, p) == cat then [p] else [])
  {
  }

  lemma TallyStep(cmp: Comparison, pts: seq<Point>, n: nat)
    requires n < |pts| && DefinedOn(cmp, pts)
    ensures DefinedAt(cmp, pts[n])
    ensures Tally(cmp, pts, n + 1) == CountVoxel(Tally(cmp, pts, n), InA(cmp, pts[n]), InB(cmp, pts[n]))
  {
  }

  /** Started with zero counters, the loop's counters end as the tally of
      the visited points. */
  lemma {:induction false} SweepCounts(cmp: Comparison, pts: seq<Point>, n: nat, exportStatVoxels: bool, start: SweepState)
    requires n <= |pts| && DefinedOn(cmp, pts)
    requires start.counts == NoCounts
    ensures SweepFrom(cmp, pts, n, exportStatVoxels, start).counts == Tally(cmp, pts, n)
  {
    if n > 0 {
      SweepCounts(cmp, pts, n - 1, exportStatVoxels, start);
      TallyStep(cmp, pts, n - 1);
    }
  }

  /** Each vector ends with its prior contents followed by the visited points
      of its category, in visiting order, or unchanged when exporting is off. */
  lemma {:induction false} SweepVector(cmp: Comparison, pts: seq<Point>, n: nat, exportStatVoxels: bool, start: SweepState, cat: Category)
    requires n <= |pts| && DefinedOn(cmp, pts)
    ensures VectorOf(SweepFrom(cmp, pts, n, exportStatVoxels, start), cat)
         == VectorOf(start, cat) + Exported(cmp, pts, n, cat, exportStatVoxels)
  {
    if n == 0 {
      assert VectorOf(start, cat) + [] == VectorOf(start, cat);
    } else {
      SweepVector(cmp, pts, n - 1, exportStatVoxels, start, cat);
      var prev := SweepFrom(cmp, pts, n - 1, exportStatVoxels, start);
      var p := pts[n - 1];
      VisitVector(cmp, prev, p, exportStatVoxels, cat);
      assert VectorOf(start, cat) + Exported(cmp, pts, n, cat, exportStatVoxels)
          == VectorOf(start, cat) + Exported(cmp, pts, n - 1, cat, exportStatVoxels)
             + (if exportStatVoxels && CategoryOf(cmp, p) == cat then [p] else []);
    }
  }

  /** The loop computes what the specification says: the tally of the
      visited points, and each vector extended by its category's points. */
  lemma SweepMeaning(cmp: Comparison, pts: seq<Point>, exportStatVoxels: bool, start: SweepState)
    requires DefinedOn(cmp, pts)
    requires start.counts == NoCounts
    ensures SweepFrom(cmp, pts, |pts|, exportStatVoxels, start) == SweepState(Tally(cmp, pts, |pts|),
      start.binA + Exported(cmp, pts, |pts|, BinA, exportStatVoxels),
      start.compBinCompA + Exported(cmp, pts, |pts|, NotBNotA, exportStatVoxels),
      start.bNotInA + Exported(cmp, pts, |pts|, BNotInA, exportStatVoxels),
      start.notBinA + Exported(cmp, pts, |pts|, NotBInA, exportStatVoxels))
  {
    SweepCounts(cmp, pts, |pts|, exportStatVoxels, start);
    SweepVector(cmp, pts, |pts|, exportStatVoxels, start, BinA);
    SweepVector(cmp, pts, |pts|, exportStatVoxels, start, NotBNotA);
    SweepVector(cmp, pts, |pts|, exportStatVoxels, start, BNotInA);
    SweepVector(cmp, pts, |pts|, exportStatVoxels, start, NotBInA);
  }

  /** Exporting, each vector grows by exactly its category counter; not
      exporting, no vector grows. */
  lemma ExportedSizes(cmp: Comparison, pts: seq<Point>, n: nat, exportStatVoxels: bool)
    requires n <= |pts| && DefinedOn(cmp, pts)
    ensures var t := Tally(cmp, pts, n);
      && |Exported(cmp, pts, n, BinA, exportStatVoxels)| == (if exportStatVoxels then t.binA else 0)
      && |Exported(cmp, pts, n, NotBNotA, exportStatVoxels)| == (if exportStatVoxels then t.compBinCompA else 0)
      && |Exported(cmp, pts, n, BNotInA, exportStatVoxels)| == (if exportStatVoxels then t.bNotInA else 0)
      && |Exported(cmp, pts, n, NotBInA, exportStatVoxels)| == (if exportStatVoxels then t.notBinA else 0)
  {
  }

  /** When A and B agree at every point there are no false positives and no
      false negatives. */
  lemma {:induction false} AgreementHasNoErrors(cmp: Comparison, pts: seq<Point>, n: nat)
    requires n <= |pts| && DefinedOn(cmp, pts)
    requires forall p :: p in pts ==> InA(cmp, p) == InB(cmp, p)
    ensures InCategory(cmp, pts, n, BNotInA) == [] && InCategory(cmp, pts, n, NotBInA) == []
    ensures Tally(cmp, pts, n).bNotInA == 0 && Tally(cmp, pts, n).notBinA == 0
  {
    if n > 0 {
      AgreementHasNoErrors(cmp, pts, n - 1);
    }
  }

  /** When no point is in B, the two categories inside B are empty. */
  lemma {:induction false} EmptyComparedShape(cmp: Comparison, pts: seq<Point>, n: nat)
    requires n <= |pts| && DefinedOn(cmp, pts)
    requires forall p :: p in pts ==> !InB(cmp, p)
    ensures InCategory(cmp, pts, n, BinA) == [] && InCategory(cmp, pts, n, BNotInA) == []
  {
    if n > 0 {
      EmptyComparedShape(cmp, pts, n - 1);
    }
  }

  // ---------------------------------------------------------------------
  // Precision, recall and F-mean

  /** A quotient printed by the classifier: Undefined stands for the NaN
      that 0.0/0.0 yields. */
  datatype Ratio = Undefined | Defined(value: real)

  /** (double)num / den where num <= den: NaN exactly when den is zero,
      otherwise a fraction in [0, 1] that is 1 exactly when num == den. */
  function Quotient(num: nat, den: nat): (r: Ratio)
    requires num <= den
    ensures r == Undefined <==> den == 0
    ensures r.Defined? ==> 0.0 <= r.value <= 1.0
    ensures r.Defined? ==> (r.value == 1.0 <==> num == den)
    ensures r.Defined? ==> (r.value == 0.0 <==> num == 0)
  {
    if den == 0 then Undefined else Defined(num as real / den as real)
  }

  /** The F-mean 2pr/(p+r), undefined when either input is or when p + r
      is zero; when defined it lies between p and r. */
  function FMean(precision: Ratio, recall: Ratio): (f: Ratio)
    requires precision.Defined? ==> 0.0 <= precision.value
    requires recall.Defined? ==> 0.0 <= recall.value
    ensures f.Defined? <==> precision.Defined? && recall.Defined? && precision.value + recall.value != 0.0
    ensures f.Defined? && precision.value <= recall.value ==> precision.value <= f.value <= recall.value
    ensures f.Defined? && recall.value <= precision.value ==> recall.value <= f.value <= precision.value
  {
    match (precision, recall)
    case (Defined(p), Defined(r)) =>
      if p + r == 0.0 then Undefined
      else
        HarmonicMeanBetween(p, r);
        Defined((2.0 * p * r) / (p + r))
    case _ => Undefined
  }

  /** The harmonic mean of two non-negative reals lies between them. */
  lemma HarmonicMeanBetween(p: real, r: real)
    requires 0.0 <= p && 0.0 <= r && p + r != 0.0
    ensures p <= r ==> p <= (2.0 * p * r) / (p + r) <= r
    ensures r <= p ==> r <= (2.0 * p * r) / (p + r) <= p
  {
    var s := p + r;
    var h := (2.0 * p * r) / s;
    assert h * s == 2.0 * p * r;
    assert h - p == (2.0 * p * r - p * s) / s;
    assert r - h == (r * s - 2.0 * p * r) / s;
    assert 2.0 * p * r - p * s == p * (r - p);
    assert r * s - 2.0 * p * r == r * (r - p);
    assert h - r == (2.0 * p * r - r * s) / s;
    assert p - h == (p * s - 2.0 * p * r) / s;
    assert 2.0 * p * r - r * s == r * (p - r);
    assert p * s - 2.0 * p * r == p * (p - r);
    if p <= r {
      assert p * (r - p) >= 0.0;
      assert r * (r - p) >= 0.0;
    } else {
      assert r * (p - r) >= 0.0;
      assert p * (p - r) >= 0.0;
    }
  }

  datatype Scores = Scores(precision: Ratio, recall: Ratio, fMean: Ratio)

  /** precision = TP/(TP+FP), recall = TP/(TP+FN), and their F-mean. */
  function ScoresOf(c: Counts): (s: Scores)
    ensures s.precision == Undefined <==> c.binA + c.bNotInA == 0
    ensures s.recall == Undefined <==> c.binA + c.notBinA == 0
    ensures s.precision.Defined? ==> 0.0 <= s.precision.value <= 1.0
    ensures s.precision.Defined? ==> (s.precision.value == 1.0 <==> c.bNotInA == 0)
    ensures s.recall.Defined? ==> 0.0 <= s.recall.value <= 1.0
    ensures s.recall.Defined? ==> (s.recall.value == 1.0 <==> c.notBinA == 0)
    ensures s.fMean.Defined? <==> c.binA > 0
  {
    var precision := Quotient(c.binA, c.binA + c.bNotInA);
    var recall := Quotient(c.binA, c.binA + c.notBinA);
    Scores(precision, recall, FMean(precision, recall))
  }

  /** Identical shapes with at least one voxel score a perfect 1 on all three. */
  lemma PerfectAgreementScores(cmp: Comparison, pts: seq<Point>, q: Point)
    requires DefinedOn(cmp, pts)
    requires forall p :: p in pts ==> InA(cmp, p) == InB(cmp, p)
    requires q in pts && InA(cmp, q)
    ensures ScoresOf(Tally(cmp, pts, |pts|)) == Scores(Defined(1.0), Defined(1.0), Defined(1.0))
  {
    AgreementHasNoErrors(cmp, pts, |pts|);
    InCategoryMembers(cmp, pts, |pts|, BinA);
    assert pts[..|pts|] == pts;
    assert q in InCategory(cmp, pts, |pts|, BinA);
  }

  /** An empty compared shape: precision is undefined, recall is 0 when A has
      a voxel (undefined otherwise), and the F-mean is undefined. */
  lemma EmptyComparedShapeScores(cmp: Comparison, pts: seq<Point>)
    requires DefinedOn(cmp, pts)
    requires forall p :: p in pts ==> !InB(cmp, p)
    ensures var t := Tally(cmp, pts, |pts|);
      && ScoresOf(t).precision == Undefined
      && ScoresOf(t).recall == (if t.totalInA == 0 then Undefined else Defined(0.0))
      && ScoresOf(t).fMean == Undefined
  {
    ShapeTotals(cmp, pts, |pts|);
    EmptyComparedShape(cmp, pts, |pts|);
  }

  // ---------------------------------------------------------------------
  // The classification sweep

  /** getVoxelsStats: sweeps A's domain once, counting every category and
      shape total and, when exportStatVoxels holds, appending each point to
      the vector of its category. B is read at A's points without checking
      its domain, so B must be defined there. */
  method GetVoxelsStats(cmp: Comparison, exportStatVoxels: bool,
                        vectPtBinA: PointVector, vectPtCompBinCompA: PointVector,
                        vectPtBnotInA: PointVector, vectPtNotBInA: PointVector,
                        precisionRecallFMean: bool)
    returns (c: Counts, scores: Option<Scores>)
    requires WellFormed(cmp.a)
    requires forall p :: p in cmp.a.domain ==> p in cmp.b.value
    requires vectPtBinA != vectPtCompBinCompA && vectPtBinA != vectPtBnotInA && vectPtBinA != vectPtNotBInA
    requires vectPtCompBinCompA != vectPtBnotInA && vectPtCompBinCompA != vectPtNotBInA
    requires vectPtBnotInA != vectPtNotBInA
    modifies vectPtBinA, vectPtCompBinCompA, vectPtBnotInA, vectPtNotBInA
    ensures DefinedOn(cmp, cmp.a.domain)
    ensures c == Tally(cmp, cmp.a.domain, |cmp.a.domain|)
    ensures c.binA + c.compBinCompA + c.bNotInA + c.notBinA == |cmp.a.domain|
    ensures c.totalInA == c.binA + c.notBinA && c.totalInB == c.binA + c.bNotInA
    ensures c.totalInCompA == c.bNotInA + c.compBinCompA && c.totalInCompB == c.notBinA + c.compBinCompA
    ensures vectPtBinA.items == old(vectPtBinA.items) + Exported(cmp, cmp.a.domain, |cmp.a.domain|, BinA, exportStatVoxels)
    ensures vectPtCompBinCompA.items == old(vectPtCompBinCompA.items) + Exported(cmp, cmp.a.domain, |cmp.a.domain|, NotBNotA, exportStatVoxels)
    ensures vectPtBnotInA.items == old(vectPtBnotInA.items) + Exported(cmp, cmp.a.domain, |cmp.a.domain|, BNotInA, exportStatVoxels)
    ensures vectPtNotBInA.items == old(vectPtNotBInA.items) + Exported(cmp, cmp.a.domain, |cmp.a.domain|, NotBInA, exportStatVoxels)
    ensures scores == if precisionRecallFMean then Some(ScoresOf(c)) else None
  {
    var dom := cmp.a.domain;
    var numBinA, numCompBinCompA, numBnotInA, numNotBinA := 0, 0, 0, 0;
    var numTotalInA, numTotalInB, numTotalinCompA, numTotalinCompB := 0, 0, 0, 0;
    ghost var start := SweepState(NoCounts, vectPtBinA.items, vectPtCompBinCompA.items,
                                  vectPtBnotInA.items, vectPtNotBInA.items);
    var i := 0;
    while i < |dom|
      invariant 0 <= i <= |dom|
      invariant SweepState(Counts(numBinA, numCompBinCompA, numBnotInA, numNotBinA,
                                  numTotalInA, numTotalInB, numTotalinCompA, numTotalinCompB),
                           vectPtBinA.items, vectPtCompBinCompA.items, vectPtBnotInA.items, vectPtNotBInA.items)
             == SweepFrom(cmp, dom, i, exportStatVoxels, start)
    {
      var p := dom[i];
      if cmp.a.value[p] <= cmp.aMax && cmp.a.value[p] >= cmp.aMin {
        numTotalInA := numTotalInA + 1;
        if cmp.b.value[p] <= cmp.bMax && cmp.b.value[p] >= cmp.bMin {
          numTotalInB := numTotalInB + 1;
          numBinA := numBinA + 1;
          if exportStatVoxels { vectPtBinA.PushBack(p); }
        } else {
          numTotalinCompB := numTotalinCompB + 1;
          numNotBinA := numNotBinA + 1;
          if exportStatVoxels { vectPtNotBInA.PushBack(p); }
        }
      } else {
        numTotalinCompA := numTotalinCompA + 1;
        if cmp.b.value[p] <= cmp.bMax && cmp.b.value[p] >= cmp.bMin {
          numBnotInA := numBnotInA + 1;
          numTotalInB := numTotalInB + 1;
          if exportStatVoxels { vectPtBnotInA.PushBack(p); }
        } else {
          numTotalinCompB := numTotalinCompB + 1;
          numCompBinCompA := numCompBinCompA + 1;
          if exportStatVoxels { vectPtCompBinCompA.PushBack(p); }
        }
      }
      i := i + 1;
    }
    SweepMeaning(cmp, dom, exportStatVoxels, start);
    c := Counts(numBinA, numCompBinCompA, numBnotInA, numNotBinA,
                numTotalInA, numTotalInB, numTotalinCompA, numTotalinCompB);
    PartitionSize(cmp, dom, |dom|);
    ShapeTotals(cmp, dom, |dom|);
    scores := if precisionRecallFMean then Some(ScoresOf(c)) else None;
  }

  /** The count-only getVoxelsStats: the full sweep with four fresh vectors
      and exporting switched off. */
  method GetVoxelCounts(cmp: Comparison, precisionRecallFMean: bool)
    returns (c: Counts, scores: Option<Scores>)
    requires WellFormed(cmp.a)
    requires forall p :: p in cmp.a.domain ==> p in cmp.b.value
    ensures DefinedOn(cmp, cmp.a.domain)
    ensures c == Tally(cmp, cmp.a.domain, |cmp.a.domain|)
    ensures c.binA + c.compBinCompA + c.bNotInA + c.notBinA == |cmp.a.domain|
    ensures scores == if precisionRecallFMean then Some(ScoresOf(c)) else None
  {
    var v1 := new PointVector();
    var v2 := new PointVector();
    var v3 := new PointVector();
    var v4 := new PointVector();
    c, scores := GetVoxelsStats(cmp, false, v1, v2, v3, v4, precisionRecallFMean);
  }
}
