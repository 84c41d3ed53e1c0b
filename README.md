# volShapeMetrics: voxel classification and distance statistics

This project models the comparison engine of DGtalTools' `volShapeMetrics`
in Dafny. The tool compares two thresholded 3-D integer images. A is the
reference shape and B the compared shape. A voxel belongs to a shape when
its intensity lies in that shape's inclusive interval `[min, max]`.

The model covers three parts of `volumetric/volShapeMetrics.cpp`:

- **Membership and `isDiff`** (module `Shapes`, file `shapes.dfy`).
  `IsOn` is the inclusive interval test. `IsDiff` holds when A and B
  disagree at a voxel. `CategoryOf` gives the four-way category the
  classifier uses.
- **The voxel classifier `getVoxelsStats`** (module `VoxelClassifier`,
  file `classifier.dfy`).
  - `GetVoxelsStats` is the single sweep over A's domain. It updates the
    eight counters and, when exporting, appends each voxel to the vector
    of its category. The four vectors are objects of class `PointVector`
    owned by the caller.
  - `GetVoxelCounts` is the count-only overload.
  - The sweep is proved against specification functions.
    `InCategory` gives the voxels of a category in domain order, `Sieve`
    the voxels of a shape or of its complement, and `Tally` the eight
    counters. Lemmas then prove what those functions promise: the four
    categories partition the domain, each shape total is the sum of two
    categories, and agreeing shapes produce no errors.
  - Precision, recall and F-mean are computed from the counters.
- **The selection and arg-max loop of `getStatsFromDistanceMap`** (module
  `DistanceStats`, file `distance_stats.dfy`).
  - `GetStatsFromDistanceMap` walks the point set of B. It keeps every
    point, or only the points where `isDiff` holds. For each kept point it
    adds the distance to a `Statistic` and raises `maxDist` on a strict
    increase. When the `ptMax` cell is present, it records the point that
    raised the maximum.
  - The loop is proved against `Selected`, `Distances`, `MaxDist` and
    `ArgMax`. The lemmas show that `maxDist` is the largest of 0 and the
    added distances, and that the recorded point is the first point that
    reaches a positive maximum. They also show that the restricted
    selection is exactly the B-not-in-A voxels, counted the same way the
    classifier counts them.

Modelling choices:

- A point is a triple of unbounded integers.
- An image is a datatype holding its domain, as a sequence in iteration
  order, and a map from points to intensities. `WellFormed` requires that
  the domain lists each point once and that every listed point has an
  intensity.
- `getVoxelsStats` reads B at A's points without comparing the two
  domains. The methods therefore *require* that B is defined at every
  point of A's domain; they do not report an error.
- The point set of B passed to the distance loop is a parameter. The
  precondition `IsShapeSet` states what `SetFromImage::append(set, B,
  bMin - 1, bMax)` is relied on to produce: every voxel with
  `bMin <= B(p) <= bMax`, each listed once. The order of that sequence is
  the set's iteration order. The first-reaching point that `ptMax` records
  depends on this order.
- The distance field built from A (the Euclidean distance transform) is
  an opaque parameter `dist: Point -> real`.
- `Statistic<double>` is modelled as the sequence of values given to
  `addValue`.
- The method's result `noPointAdded` stands for the "No point added to
  statistics" diagnostic. The source prints it and carries on; it does not
  abort.
- `statOnFalsePositiveOnly` is kept as a parameter. The tool's `main`
  always passes `false` (`volumetric/volShapeMetrics.cpp:346`). The
  `--distancesFromBnotInAOnly` flag only changes the header text
  (`volumetric/volShapeMetrics.cpp:316-318`), so it does not restrict the
  statistics the tool prints.
- Precision, recall and F-mean are exact `real` quotients. `Undefined`
  stands for the NaN that IEEE `double` gives for `0.0/0.0`.
  - Numerators never exceed their denominators, so a zero denominator
    always means `0/0`. No infinity can occur.
  - A NaN input makes the F-mean NaN, and so does `precision + recall == 0`.

## Model

| member | source | states |
|---|---|---|
| Shapes.IsOn | volumetric/volShapeMetrics.cpp:118-119 | A voxel is on exactly when `lo <= value <= hi`, both ends included. A value equal to either end is on. An inverted interval makes nothing on, without an error. |
| Shapes.IsDiff | volumetric/volShapeMetrics.cpp:115-121 | `isDiff` holds exactly when membership in A differs from membership in B. |
| Shapes.IsDiffSymmetric | volumetric/volShapeMetrics.cpp:115-121 | `isDiff` gives the same answer when A and B swap roles. |
| Shapes.CategoryOf | volumetric/volShapeMetrics.cpp:183-210 | The nested tests give each voxel exactly one of four categories, each the conjunction of A- and B-membership. `isDiff` holds exactly for the two error categories. |
| VoxelClassifier.PointVector.PushBack | volumetric/volShapeMetrics.cpp:191 | `push_back` appends one point at the end of the vector and keeps the earlier contents. |
| VoxelClassifier.InCategoryMembers | volumetric/volShapeMetrics.cpp:183-210 | A category list holds exactly the visited voxels of that category. |
| VoxelClassifier.SieveMembers | volumetric/volShapeMetrics.cpp:185-209 | A shape's (or complement's) list holds exactly the visited voxels inside (outside) the shape. |
| VoxelClassifier.InCategoryDistinct | volumetric/volShapeMetrics.cpp:183-210 | A category list drawn from a repetition-free domain lists each voxel once. |
| VoxelClassifier.SieveDistinct | volumetric/volShapeMetrics.cpp:185-209 | A shape list drawn from a repetition-free domain lists each voxel once. |
| VoxelClassifier.PartitionSize | volumetric/volShapeMetrics.cpp:183-210 | `numBinA + numCompBinCompA + numBnotInA + numNotBinA` equals the number of voxels visited. |
| VoxelClassifier.ShapeTotals | volumetric/volShapeMetrics.cpp:185-209 | Each of the four totals is the sum of its two categories, for example `numTotalInB = numBinA + numBnotInA`. |
| VoxelClassifier.SweepCounts | volumetric/volShapeMetrics.cpp:174-210 | Starting from zero, the loop's eight counters end as the tally of the visited voxels. |
| VoxelClassifier.SweepVector | volumetric/volShapeMetrics.cpp:191-208 | Each vector ends as its prior contents followed by the visited voxels of its category, in domain order. Without exporting it is unchanged. |
| VoxelClassifier.SweepMeaning | volumetric/volShapeMetrics.cpp:183-210 | The whole loop state after the sweep is the tally plus each vector extended by its category's voxels. |
| VoxelClassifier.ExportedSizes | volumetric/volShapeMetrics.cpp:191-208 | When exporting, each vector grows by exactly its category counter; otherwise no vector grows. |
| VoxelClassifier.AgreementHasNoErrors | volumetric/volShapeMetrics.cpp:185-209 | If A and B agree at every voxel, there are no false positives and no false negatives: both lists are empty and both counters are zero. |
| VoxelClassifier.EmptyComparedShape | volumetric/volShapeMetrics.cpp:185-209 | If no voxel is in B, the two categories inside B are empty. |
| VoxelClassifier.Quotient | volumetric/volShapeMetrics.cpp:217-218 | `(double)num/den` with `num <= den` is NaN exactly when `den` is zero. Otherwise it lies in [0, 1], is 1 exactly when `num == den` and is 0 exactly when `num == 0`. |
| VoxelClassifier.ScoresOf | volumetric/volShapeMetrics.cpp:216-219 | Precision is `numBinA/(numBinA + numBnotInA)` and recall `numBinA/(numBinA + numNotBinA)`. Each is NaN exactly when its denominator is zero, otherwise lies in [0, 1]. Precision is 1 exactly when there is no false positive, recall exactly when there is no false negative. The F-mean is defined exactly when there is at least one true positive. |
| VoxelClassifier.FMean | volumetric/volShapeMetrics.cpp:219 | `2pr/(p+r)` is defined exactly when both inputs are defined and `p + r != 0`. When defined it lies between precision and recall. |
| VoxelClassifier.HarmonicMeanBetween | volumetric/volShapeMetrics.cpp:219 | For non-negative `p`, `r` with a non-zero sum, `2pr/(p+r)` lies between `p` and `r`. |
| VoxelClassifier.PerfectAgreementScores | volumetric/volShapeMetrics.cpp:216-219 | Identical shapes with at least one voxel score precision = recall = F-mean = 1. |
| VoxelClassifier.EmptyComparedShapeScores | volumetric/volShapeMetrics.cpp:216-219 | With B empty, precision and F-mean are NaN. Recall is 0, or NaN when A is empty too. |
| VoxelClassifier.GetVoxelsStats | volumetric/volShapeMetrics.cpp:170-222 | The counters are the tally of A's domain. They partition the domain and satisfy the four total identities. Each vector gains exactly its category's voxels in domain order, or nothing when not exporting. Scores are produced only when requested. |
| VoxelClassifier.GetVoxelCounts | volumetric/volShapeMetrics.cpp:227-231 | The count-only overload gives the same counters and scores as the full sweep. |
| DistanceStats.Statistic.AddValue | volumetric/volShapeMetrics.cpp:151 | `addValue` appends one value to the values the statistic has seen. |
| DistanceStats.SelectedAll | volumetric/volShapeMetrics.cpp:148-149 | Without the restriction, every point of B's set is selected, in order. |
| DistanceStats.SelectedMembers | volumetric/volShapeMetrics.cpp:148-149 | The selected points are exactly the visited points that pass `!statOnFalsePositiveOnly \|\| isDiff`. |
| DistanceStats.SelectedDistinct | volumetric/volShapeMetrics.cpp:148-149 | A selection from a repetition-free point set lists each point once. |
| DistanceStats.RestrictedSelectsBNotInA | volumetric/volShapeMetrics.cpp:148-149 | Restricted to `isDiff`, the loop selects exactly the voxels of B that are not in A. |
| DistanceStats.RestrictedCountIsFalsePositives | volumetric/volShapeMetrics.cpp:148-152 | When A and B share one domain, the restricted loop adds as many distances as the classifier's `numBnotInA`. |
| DistanceStats.UnrestrictedCountIsShapeSize | volumetric/volShapeMetrics.cpp:143-152 | When A and B share one domain, the unrestricted loop adds as many distances as the classifier's `numTotalInB`. |
| DistanceStats.DistancesAt | volumetric/volShapeMetrics.cpp:150-151 | The k-th value given to the statistic is the distance of the k-th selected point. |
| DistanceStats.MaxDistIsMax | volumetric/volShapeMetrics.cpp:146-154 | `maxDist`, which starts at 0 and rises only on a strict increase, ends as the largest of 0 and all added distances. It is 0 or attained by some added point. |
| DistanceStats.ArgMaxIsFirstFarthest | volumetric/volShapeMetrics.cpp:153-159 | A recorded point has the final, positive `maxDist` as its distance. It is the first visited point with that distance: every earlier point is strictly closer. |
| DistanceStats.ArgMaxNoneIffNoPositive | volumetric/volShapeMetrics.cpp:153-159 | No point is recorded exactly when `maxDist` stays 0, that is, when no added distance is positive. `*ptMax` then keeps its old value. |
| DistanceStats.ScanFromSelected | volumetric/volShapeMetrics.cpp:148-161 | Walking every point and skipping the unselected ones leaves the same loop state as walking the selected points alone. |
| DistanceStats.ScanValues | volumetric/volShapeMetrics.cpp:150-152 | After the walk, the statistic holds its earlier values followed by the selected distances, and `nbAdded` is the number of selected points. |
| DistanceStats.ScanFarthest | volumetric/volShapeMetrics.cpp:146-159 | After the walk, `maxDist` is the fold maximum and the recorded point is the arg-max, or the old value when nothing was recorded. |
| DistanceStats.GetStatsFromDistanceMap | volumetric/volShapeMetrics.cpp:145-165 | The statistic receives the selected points' distances in order. `*ptMax`, when present, ends as the first point to reach a positive maximum, or keeps its old value. The diagnostic is raised exactly when nothing was selected. |

## Left out

- File input through `GenericReader` and point-set output in
  `exportSetofPoints` are file I/O and are not modelled.
- The Euclidean distance transform (`DistanceTransformation` with
  `L2Metric`) is not modelled. These DGtal calls are replaced by the
  `dist` parameter.
- The point sets built by `SetFromImage::append` are DGtal calls too.
  B's set is a parameter with the `IsShapeSet` precondition. A's set is
  used only to build the distance field, so it does not appear.
- The mean, variance and median of `Statistic<double>` belong to DGtal,
  and they are floating-point computations. The model keeps only the
  sequence of added values.
- Command-line parsing, the header and report printing with `std::cout`,
  and the `trace` output are not modelled. The printed numbers are the
  method results, and the trace diagnostic is the `noPointAdded` result.
- Floating point is not modelled: distances and scores are exact reals,
  with `Undefined` in place of NaN.
- VoxelClassifier.GetVoxelsStats: the counters are unbounded naturals. The
  model does not capture the overflow (undefined behaviour) of the
  source's 32-bit `int` counters on domains of more than 2^31 - 1 voxels.
- DistanceStats.GetStatsFromDistanceMap: `nbAdded` is an unbounded
  natural. The model does not capture the wrap-around of the source's
  32-bit `unsigned int` after 2^32 added points.
- DistanceStats.GetStatsFromDistanceMap: the method writes the arg-max
  point in one assignment, where the source copies its three coordinates
  one by one. The final value is the same.
- VoxelClassifier.GetVoxelsStats: the four vectors must be distinct
  objects. The model does not cover a caller that passes the same vector
  twice.
- Neither overload of `getVoxelsStats` compares the domains of A and B.
  The source reads B at A's points unchecked
  (volumetric/volShapeMetrics.cpp:183-201), so B being defined on A's
  domain is a precondition.
