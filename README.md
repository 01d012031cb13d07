# YODA core in Dafny

A model and proofs of the core of YODA, a C++ and Python library for the
statistical data objects of high-energy physics analyses: binned histograms,
profiles, counters and scatters of points with errors, and their `.yoda` and
FLAT text formats. Every `double` is a Dafny `real`, so tolerance comparisons
are exact real inequalities and nothing depends on rounding. Exceptions are
the `Error` values of `Wrappers`, returned in a `Result` or `Outcome`.

The modules follow the library's layout:

- `MathUtils`: `isZero`, the fuzzy comparisons, `inRange`, `sign`, `sqr`,
  and the loops `linspace`, `index_between`, `mean` and `covariance` as methods
  proved against spec functions.
- `Dbn`, `Bins`: the distributions (records of sums with field-wise `+`/`-`)
  and 1D bins. Their headers are not part of this model, so they are
  abstract.
- `AxisLayout`, `Axis1D`: the binning engine. `Axis1D` is a class with its
  sorted bins, the searcher's edges and slot table, three distributions and a
  lock flag. `_updateAxis` is the single rebuild that every structural
  operation goes through.
- `Histo1D`, `Histo1DRatios`: `fill` and its routing, the aggregates,
  `divide`, `efficiency` and `toIntegralHisto`.
- `Counter`, `CounterRatio`, `EfficiencyFormula`: the weighted counter, its
  arithmetic and the "ScaledBy" bookkeeping, and `divide`/`efficiency`.
- `Points`, `SortedVector`, `Scatter1D`, `Scatter2D`, `Scatter3D`,
  `Scatter2DConversions`, `Scatter3DConversions`: point values with fuzzy
  lexicographic order, the insert-and-sort vector, scatters, and the
  `mkScatter` conversions. Those conversions turn bins into points whose errors
  rebuild the bin edges.
- `AnalysisObject`: the annotation map with path validation and `name()`.
- `NdArray`: the fixed-size array over a Dafny `array`.
- `StringUtils`: `encodeForXML`, over the predefined entities of XML 1.0
  (section 4.6).
- `Lines`, `LineGrammar`, `Groups`, `TextRows`: `safe_getline`, tokens, the
  row grammars as a first-match classifier, and the BEGIN/END group tables.
- `ReaderYODA`, `ReaderFLAT`: the `_readDoc` context machines as classes
  whose state is the context and the collected records.
- `WriterYODA`, `WriterFLAT`: the writers as classes that append lines to an
  output sequence.
- `Formats`: `mkWriter`/`mkReader` extension dispatch, `write` and
  `writeBody`.
- `Search`: the Python `PointMatcher`.
- `Plotting`: `read_plot_keys` and the `NumpyHist` edge helpers.

The formats run in both directions where the source makes that possible:

- The FLAT reader reads a non-empty FLAT Scatter1D, Scatter2D or Scatter3D
  back as one scatter of the same kind.
  - Its points are the written points sorted.
  - For Scatter2D and Scatter3D, each point's x (and y) is moved to the
    middle of its interval, with half the width as a symmetric error.
  - So strictly ordered points with symmetric errors read
    back exactly.
- A written counter block yields no object. Its row stays behind in the
  reader's records.
- A `.yoda` stream from the writer reads back as nothing. The writer's block
  lines are "BEGIN YODA_…"/"END YODA_…", and the reader's groups need
  "# BEGIN "/"# END ". This is stated as a property of the model, as the code
  behaves.

Where the code and its comments or documentation differ, the model follows
the code:

- `mergeBins(i, i)` passes its checks and then throws, from the
  `eraseBins(i+1, i)` it calls.
- `scaleX` on a locked axis scales every distribution and edge before the
  rebuild throws LockError.
- Filling a histogram with no bins fills the total before `xMin()` throws.
- The FLAT reader's COUNTER block keeps its rows for the next histogram.
- The `.yoda` reader builds nothing for Scatter3D and Counter blocks.
- "# END PLOT" without a name leaves the plot block open.

## Model

| member | source | states |
|---|---|---|
| MathUtils.FuzzyEqualsSymmetric | include/YODA/Utils/MathUtils.h:68-74 | fuzzyEquals gives the same answer with its arguments swapped |
| MathUtils.FuzzyEqualsReflexive | include/YODA/Utils/MathUtils.h:68-74 | every value is fuzzy-equal to itself under a positive tolerance |
| MathUtils.FuzzyEqualsNearZeroIgnoresTolerance | include/YODA/Utils/MathUtils.h:68-74 | two values inside the isZero band are equal whatever tolerance the caller passes |
| MathUtils.FuzzyEqualsNonPositiveTolerance | include/YODA/Utils/MathUtils.h:68-74 | with a tolerance of zero or below, fuzzyEquals holds exactly when both values are near zero |
| MathUtils.FuzzyOrderDuality | include/YODA/Utils/MathUtils.h:92-124 | fuzzyGtrEquals(a, b) is fuzzyLessEquals(b, a) |
| MathUtils.FuzzyOrderTotal | include/YODA/Utils/MathUtils.h:92-124 | with a positive tolerance every pair is ordered one way or the other, and exact order implies fuzzy order |
| MathUtils.InRangeDefaults | include/YODA/Utils/MathUtils.h:151-193 | the floating-point forms default to [low, high), the int form to [low, high], the int pair form to [low, high); open intervals sit inside half-open ones, which sit inside closed ones |
| MathUtils.Sqr | include/YODA/Utils/MathUtils.h:202-204 | the square is non-negative and is the square of the absolute value |
| MathUtils.Sign | include/YODA/Utils/MathUtils.h:220-225 | 0 exactly inside the isZero band, 1 at or above 1E-8, -1 at or below -1E-8 |
| MathUtils.SignInt | include/YODA/Utils/MathUtils.h:227-237 | the int/long sign is -1, 0 or 1, zero only for 0, and never of the opposite sign to the value |
| MathUtils.Linspace | include/YODA/Utils/MathUtils.h:248-261 | nbins+1 values (nbins without the end), value i is start + i*(end-start)/nbins, and the last is `end` itself |
| MathUtils.LinspaceIncreasing | include/YODA/Utils/MathUtils.h:248-261 | for end > start the edges run from start to end and strictly increase |
| MathUtils.IndexBetween | include/YODA/Utils/MathUtils.h:292-303 | -1 exactly when the value is outside [front, back); otherwise an index k with edges[k] <= val < edges[k+1], the first such |
| MathUtils.IndexBetweenUnique | include/YODA/Utils/MathUtils.h:292-303 | on sorted edges only one bin index can contain a value |
| MathUtils.Mean | include/YODA/Utils/MathUtils.h:312-318 | the loop gives sum/size; an empty sample gives NaN (0.0/0) |
| MathUtils.MeanOfConstant | include/YODA/Utils/MathUtils.h:312-318 | the mean of a non-empty constant sample is that constant |
| MathUtils.SumIntsConstant | include/YODA/Utils/MathUtils.h:312-318 | a sum over k copies of c is k*c |
| MathUtils.Covariance | include/YODA/Utils/MathUtils.h:322-334 | the loop computes the sum of products of deviations over (N-1), looping over the first sample's length; 0 for fewer than two entries |
| MathUtils.CovSumSymmetric | include/YODA/Utils/MathUtils.h:322-334 | the covariance sum does not depend on the order of the two samples |
| MathUtils.CovSumConstantFirst | include/YODA/Utils/MathUtils.h:322-334 | the covariance sum is zero when the first sample is constant at its mean |
| MathUtils.CovarianceProperties | include/YODA/Utils/MathUtils.h:322-334 | covariance of equal-length samples is symmetric, and zero when one sample is constant |
| Dbn.AddSubU | include/YODA/Counter.h:148-157 | adding then subtracting a fill count (or the reverse) restores it, 64-bit wrap-around included |
| Dbn.AddUAssociative | include/YODA/Axis1D.h:355-366 | adding fill counts is associative, wrap-around included |
| Dbn.Fill0DIsAddOfSingle | include/YODA/Counter.h:43-51 | a fill of weight w is the same as adding a counter built from the single weight w |
| Dbn.Add0DLaws | include/YODA/Counter.h:148-157 | `+=` of counters' distributions is commutative, has the empty distribution as identity, and `-=` undoes it |
| Dbn.ScaleW0DCompose | include/YODA/Counter.h:100-103 | scaling the weights by s then t is scaling by s*t |
| Dbn.EffNumEntries1D | src/Histo1D.cc:57-62 | the effective number of entries is 0 for a zero sum of squared weights and never negative otherwise |
| Dbn.Fill1DIsAddOfSingle | src/Histo1D.cc:17-38 | a 1D fill at x with weight w is adding a distribution holding only that fill |
| Dbn.Add1DLaws | include/YODA/Axis1D.h:355-381 | `+=` of 1D distributions is commutative and associative, has an identity, and `-=` undoes it |
| Dbn.ScaleX1DCompose | include/YODA/Axis1D.h:311-319 | scaling x by s then t is scaling by s*t |
| Bins.MkBin | include/YODA/Axis1D.h:231-235 | a bin is built only for low < high (a RangeError otherwise), empty and with those edges |
| Bins.ScaleXBin | include/YODA/Axis1D.h:311-319 | scaling a valid bin by a positive factor leaves it valid |
| Bins.ResetAll | include/YODA/Axis1D.h:184-190 | every bin keeps its edges and loses its statistics |
| Bins.SortBins | include/YODA/Axis1D.h:401-402 | std::sort of the bins gives a sorted permutation, keeps bins valid, and leaves a sorted vector as it is |
| Bins.InsertBinProperties | include/YODA/Axis1D.h:401-402 | inserting into a sorted vector keeps it sorted and adds exactly that bin to the multiset |
| Bins.SortBinsProperties | include/YODA/Axis1D.h:401-402 | the insertion sort yields a sorted permutation of its input |
| Bins.SortBinsOfSorted | include/YODA/Axis1D.h:401-402 | sorting an already sorted vector changes nothing |
| Bins.ValidBinsOfPermutation | include/YODA/Axis1D.h:401-402 | reordering bins keeps every bin valid |
| Bins.SortedLowerEdges | include/YODA/Axis1D.h:401-402 | in a sorted vector lower edges never decrease |
| Bins.SortedFirstIsLeast | include/YODA/Axis1D.h:101-105 | in a sorted vector the first bin has the lowest lower edge, so it gives the axis xMin |
| AxisLayout.Slot | include/YODA/Axis1D.h:126-129 | the searcher slot of x is at most the number of edges (the overflow slot) |
| AxisLayout.RelDiffSign | include/YODA/Axis1D.h:411-419 | the relative gap is above 1e-3 (or at least -1e-3) exactly when the absolute gap exceeds that fraction of the bin width |
| AxisLayout.WalkLength | include/YODA/Axis1D.h:408-427 | the walk over n bins pushes one edge and one index per bin plus one per gap |
| AxisLayout.WalkStep | include/YODA/Axis1D.h:408-427 | each loop iteration appends the optional gap slot and then the bin's own slot |
| AxisLayout.WalkBinSlot | include/YODA/Axis1D.h:416-424 | bin i sits in its slot with its upper edge as that slot's edge, the slot below ends at its effective lower edge, and a gap puts -1 just before it |
| AxisLayout.WalkBinSlots | include/YODA/Axis1D.h:416-424 | the same for every bin of the walk |
| AxisLayout.WalkSlotKind | include/YODA/Axis1D.h:416-428 | every slot holds -1 or a bin index below n, a bin index is found in that bin's slot, and a -1 slot comes just before a bin that follows a gap |
| AxisLayout.WalkSlotKinds | include/YODA/Axis1D.h:416-428 | the same for every slot |
| AxisLayout.LayoutShape | include/YODA/Axis1D.h:398-433 | the index table has one more entry than the edges (the overflow slot) and holds -1 or bin indexes |
| AxisLayout.PosIncreasing | include/YODA/Axis1D.h:408-427 | bin indexes are laid out in increasing slot order |
| AxisLayout.WalkEdgesIncreasing | include/YODA/Axis1D.h:405-427 | without an overlap the searcher edges strictly increase and end at the last upper edge |
| AxisLayout.UpperEdgesIncrease | include/YODA/Axis1D.h:408-427 | on a laid-out axis upper edges strictly increase |
| AxisLayout.SlotSpec | include/YODA/Axis1D.h:126-129 | on increasing edges the searcher returns the unique k with edges[k-1] <= x < edges[k] |
| AxisLayout.LayoutLookup | include/YODA/Axis1D.h:125-129 | binIndexAt(x) is bin i exactly when x lies in i's slot, from its effective lower edge to below its upper edge |
| AxisLayout.LayoutLookupNone | include/YODA/Axis1D.h:125-129 | binIndexAt(x) is -1 exactly when x lies in no bin's slot: underflow, a gap or overflow |
| AxisLayout.MidSlot | include/YODA/Axis1D.h:448-449 | a bin's midpoint is found in that bin's own slot |
| AxisLayout.GapBetweenMeansGap | include/YODA/Axis1D.h:439-455 | a -1 slot between the slots of bins f and t exists exactly when one of bins f+1..t follows a gap |
| AxisLayout.WalkSameEdges | include/YODA/Axis1D.h:408-427 | the walk depends only on the bin edges |
| AxisLayout.LayoutSameEdges | include/YODA/Axis1D.h:184-190 | resetting, filling or scaling bin statistics cannot change the layout or the order |
| AxisLayout.ScaleXBins | include/YODA/Axis1D.h:316-317 | every bin is scaled, and valid bins stay valid |
| AxisLayout.RelDiffScale | include/YODA/Axis1D.h:411 | a positive x scale leaves every relative gap unchanged |
| AxisLayout.ScaleKeepsLayout | include/YODA/Axis1D.h:311-319 | a positive x scale changes neither the order of the bins nor whether they lay out |
| Axis1D.EdgeBins | include/YODA/Axis1D.h:239-252 | the bins between consecutive edges, all empty, built only when every edge pair increases (a RangeError otherwise) |
| Axis1D.PairBins | include/YODA/Axis1D.h:261-272 | one empty bin per (low, high) pair, or a RangeError when a pair has no positive width |
| Axis1D.MergeRange | include/YODA/Axis1D.h:212-214 | the merged bin spans bin f's lower edge to bin t's upper edge and holds the sum of their statistics |
| Axis1D.MergedBins | include/YODA/Axis1D.h:212-215 | after the merge bins before f stay, bin f is the merged bin, and bins after t move down |
| Axis1D.MergeKeepsLayout | include/YODA/Axis1D.h:201-216 | merging a gap-free run of a sorted, laid-out axis leaves it sorted, valid and laid out |
| Axis1D.MergedValid | include/YODA/Axis1D.h:212-214 | the merged bin is valid and wider than bin f was |
| Axis1D.MergedPairSorted | include/YODA/Axis1D.h:212-215 | no adjacent pair of the merged vector is out of order |
| Axis1D.MergedNoOverlapAt | include/YODA/Axis1D.h:212-215 | no bin of the merged vector overlaps its predecessor |
| Axis1D.RebinEnd | include/YODA/Axis1D.h:224-225 | the end of each rebin merge is m+n-1 when that (unsigned) index is a bin, else the last bin |
| Axis1D.RebinUnfold | include/YODA/Axis1D.h:223-228 | each step of rebin skips, fails on a gap with a RangeError, or merges m..end into one bin that keeps the axis laid out |
| Axis1D.RebinRunAgrees | include/YODA/Axis1D.h:223-228 | rebin throws exactly when the stepwise merge fails, and otherwise leaves exactly the bins it yields |
| Axis1D.RebinRunUnfold | include/YODA/Axis1D.h:223-228 | each turn skips, stops with the bins as they are on a gap, or continues from the merged bins |
| Axis1D.RebinByOne | include/YODA/Axis1D.h:223-228 | rebin(1) changes nothing |
| Axis1D.RebinByZero | include/YODA/Axis1D.h:223-228 | rebin(0) wraps m+n-1 to the largest size_t, so all bins merge into one, unless a gap makes it a RangeError |
| Axis1D.RebinCount | include/YODA/Axis1D.h:218-228 | a successful rebin(n) for n >= 1 leaves ceil(N/n) bins, the last group holding what remains |
| Axis1D.RebinCountMerge | include/YODA/Axis1D.h:218-228 | the bin count of rebin after a merging step |
| Axis1D.RebinMergeStep | include/YODA/Axis1D.h:224-226 | a merging step keeps the axis valid, sorted and laid out and continues from m+1 |
| Axis1D.RebinStepCount | include/YODA/Axis1D.h:224-226 | each step takes the remaining group count down by one |
| Axis1D.CeilDivIsCeiling | include/YODA/Axis1D.h:218-222 | the stepwise group count is the ceiling of k/n |
| Axis1D.AddBinsStats | include/YODA/Axis1D.h:358-360 | bin-wise `+=`: same length, each bin adds its partner's statistics |
| Axis1D.SubBinsStats | include/YODA/Axis1D.h:373-375 | bin-wise `-=`: same length, each bin subtracts its partner's statistics |
| Axis1D.SubtractUndoesAdd | include/YODA/Axis1D.h:355-381 | subtracting what was added restores every bin, fill counts included |
| Axis1D.SameBinningEquivalence | include/YODA/Axis1D.h:336-345 | axis equality is reflexive and symmetric |
| Axis1D.WalkBins | include/YODA/Axis1D.h:404-428 | the loop succeeds exactly when the sorted bins lay out, and then yields that layout's edges and indexes |
| Axis1D.RawBinIndexAt | include/YODA/Axis1D.h:126-129 | the lookup reads slot Slot(edges, x) of the index vector, present only when that slot exists |
| Axis1D.DefaultLookupOutOfRange | include/YODA/Axis1D.h:38-40 | on a default-constructed axis binIndexAt reads slot 0 of an empty index vector, for every x |
| Axis1D.CorrectedDefaultLookup | include/YODA/Axis1D.h:126-129 | with the single outflow slot the comment at line 127 promises, the lookup answers -1 |
| Axis1D.Axis1D.constructor | include/YODA/Axis1D.h:38-40 | an empty, unlocked axis with empty distributions on which every lookup finds no bin |
| Axis1D.Axis1D.FromEdges | include/YODA/Axis1D.h:44-48 | succeeds exactly for increasing edges, with the contiguous bins between them and empty statistics; a RangeError leaves no bins |
| Axis1D.Axis1D.FromBins | include/YODA/Axis1D.h:56-60 | the given bins, sorted, when they lay out; a RangeError otherwise |
| Axis1D.Axis1D.FromRange | include/YODA/Axis1D.h:65-69 | nbins bins from lower to upper when lower < upper; a RangeError for an empty range |
| Axis1D.Axis1D.FromBinsAndDbns | include/YODA/Axis1D.h:77-81 | the given bins sorted, and the given total, underflow and overflow distributions |
| Axis1D.Axis1D.XMin | include/YODA/Axis1D.h:102-105 | the first bin's lower edge, or a RangeError on an axis without bins |
| Axis1D.Axis1D.XMax | include/YODA/Axis1D.h:108-111 | the last bin's upper edge, or a RangeError on an axis without bins |
| Axis1D.Axis1D.Bin | include/YODA/Axis1D.h:114-123 | the bin at the index, or a RangeError past the end |
| Axis1D.Axis1D.BinIndexAt | include/YODA/Axis1D.h:125-129 | the searcher slot's bin index, never below -1 (-1 means no bin) |
| Axis1D.Axis1D.BinAt | include/YODA/Axis1D.h:132-144 | the bin binIndexAt finds, or a RangeError when it answers -1 |
| Axis1D.Axis1D.BinIndexAtSpec | include/YODA/Axis1D.h:125-129 | on a synced axis x is found in bin i exactly when it lies from i's effective lower edge to below its upper edge |
| Axis1D.Axis1D.BinAtSpec | include/YODA/Axis1D.h:132-144 | binAt throws exactly when x lies in no bin's slot, and otherwise returns a bin whose slot holds x |
| Axis1D.Axis1D.UpdateAxis | include/YODA/Axis1D.h:392-434 | a LockError on a locked axis; otherwise the candidate sorted, and table and bins replaced only when no bins overlap (a RangeError otherwise) |
| Axis1D.Axis1D.AddBin | include/YODA/Axis1D.h:231-235 | a RangeError for a non-positive width with nothing changed, else a rebuild with the new bin added |
| Axis1D.Axis1D.AddBinsEdges | include/YODA/Axis1D.h:239-252 | nothing for an empty edge list; a RangeError for non-increasing edges with nothing changed; else a rebuild with the new bins |
| Axis1D.Axis1D.AddBinsPairs | include/YODA/Axis1D.h:261-272 | a RangeError for an invalid pair with nothing changed, else a rebuild with the new bins |
| Axis1D.Axis1D.AddBinsBins | include/YODA/Axis1D.h:274-278 | a rebuild with copies of the given bins added |
| Axis1D.Axis1D.EraseBin | include/YODA/Axis1D.h:281-292 | a RangeError for an index past the end; else the bin removed, the axis rebuilt with the lock lifted, and the old lock restored on success |
| Axis1D.Axis1D.EraseBins | include/YODA/Axis1D.h:295-308 | RangeErrors for bad or reversed indexes; else bins from..to removed and the axis rebuilt as for eraseBin |
| Axis1D.Axis1D.Reset | include/YODA/Axis1D.h:184-190 | every distribution emptied, the axis unlocked, and the edges kept |
| Axis1D.Axis1D.SetLock | include/YODA/Axis1D.h:194-196 | only the lock changes |
| Axis1D.Axis1D.GapInRange | include/YODA/Axis1D.h:439-455 | false when ifrom == ito; otherwise whether a -1 slot lies between the two midpoints' slots, which on a synced axis means some bin in ifrom+1..ito follows a gap |
| Axis1D.Axis1D.MergeBins | include/YODA/Axis1D.h:201-216 | RangeErrors for bad indexes, for from == to (from the erase of an empty range) and for a run with a gap, with nothing changed; else bins from..to become one merged bin |
| Axis1D.Axis1D.MergeRun | include/YODA/Axis1D.h:212-215 | the merge loop and erase of a gap-free run give the merged bin vector and keep the lock and outflows |
| Axis1D.Axis1D.Rebin | include/YODA/Axis1D.h:223-228 | succeeds exactly when the stepwise merge does, and then leaves the bins it describes; a merge that meets a gap throws RangeError and leaves the bins as the merges before it made them, still synced |
| Axis1D.Axis1D.RebinTurn | include/YODA/Axis1D.h:224-226 | one turn of the loop merges m..end when end > m, throws on a gap without touching the bins, and otherwise leaves the rest of the rebin from m + 1 |
| Axis1D.Axis1D.ScaleX | include/YODA/Axis1D.h:311-319 | the outflow distributions and edges always scaled; on a locked axis a LockError after that, with the table kept; otherwise bins re-sorted and laid out again |
| Axis1D.Axis1D.ScaleW | include/YODA/Axis1D.h:322-327 | every distribution's weights scaled, the edges and lock kept |
| Axis1D.Axis1D.Equals | include/YODA/Axis1D.h:336-345 | true exactly when the bin counts match and every edge pair is fuzzy-equal |
| Axis1D.Axis1D.NotEquals | include/YODA/Axis1D.h:349-351 | the negation of equality |
| Axis1D.Axis1D.AddAxis | include/YODA/Axis1D.h:355-366 | a LogicError for a different binning with nothing changed; else bin-wise and outflow-wise sums, edges kept |
| Axis1D.Axis1D.SubtractAxis | include/YODA/Axis1D.h:370-381 | a LogicError for a different binning with nothing changed; else bin-wise and outflow-wise differences |
| Axis1D.Axis1D.RangeSpansBins | include/YODA/Axis1D.h:101-111 | on a synced axis every bin lies inside [xMin, xMax] |
| Axis1D.EdgeBinsIncreasingLayout | include/YODA/Axis1D.h:239-252 | bins built from increasing edges are sorted and lay out |
| Axis1D.LinspaceBins | include/YODA/Axis1D.h:65-69 | linspace edges give bins exactly when lower < upper: nbins sorted bins from lower to upper that lay out |
| Axis1D.Axis1D.EdgeBinsLoop | include/YODA/Axis1D.h:239-252 | the loop over consecutive edges yields the bins EdgeBins builds, or its first RangeError |
| Points.Point1DConstructors | include/YODA/Point1D.h:31-50 | the symmetric constructor puts the edges at x-ex and x+ex with ex as average error (ex defaults to 0); the pair constructor keeps both errors |
| Points.Point1DSetters | include/YODA/Point1D.h:77-130 | each setter changes its own field only, setXErr(ex) sets both errors, and a second setX overrides the first |
| Points.ScaleX1Laws | include/YODA/Point1D.h:194-197 | scaleX multiplies both edges by the factor, composes multiplicatively, and is the identity for 1 |
| Points.NotFuzzyEqualStrict | include/YODA/Point1D.h:232-243 | two values that are not fuzzy-equal are strictly ordered, so `<` decides on them |
| Points.Point1DTrichotomy | include/YODA/Point1D.h:219-243 | `==` is reflexive and symmetric, `<` is irreflexive, and exactly one of a<b, a==b, b<a holds |
| Points.Point1DDerivedOrder | include/YODA/Point1D.h:246-262 | `<=` is `==` or `<`, `>` is `<` swapped, `>=` is `<=` swapped |
| Points.Point2DOrderIsXOrder | include/YODA/Point2D.h:378-402 | Point2D `==` and `<` are the Point1D comparisons of the x parts; y and its errors never matter |
| Points.Point2DTrichotomy | include/YODA/Point2D.h:378-419 | the Point2D order is total up to `==`, with the derived operators as for Point1D |
| Points.Point2DConstructors | include/YODA/Point2D.h:31-73 | symmetric errors give edges at value plus or minus error (defaults 0); the pair form equals the asymmetric form |
| Points.SetXYRoundTrip | include/YODA/Point2D.h:113-119 | xy() after setXY gives back the pair set, the errors stay, and setXY is setX then setY |
| Points.Point2DScaling | include/YODA/Point2D.h:332-348 | scaleX leaves y alone, scaleY leaves x alone, each multiplies its own edges, and scaleXY does both |
| Points.Point3DConstructors | include/YODA/Point3D.h:31-64 | symmetric errors give edges at value plus or minus error on all three axes; the pair form keeps each pair |
| Points.Point3DScaling | include/YODA/Point3D.h:379-402 | each scale moves only its own axis' edges, and scaleXYZ applies all three |
| Points.Point3DIgnoresZ | include/YODA/Point3D.h:434-469 | Point3D `==` and `<` never look at z or its errors |
| Points.Point3DTrichotomy | include/YODA/Point3D.h:434-484 | the Point3D order is total up to `==` over x, y and their errors, with the derived operators |
| Points.PointOrdersAsymmetric | include/YODA/Point3D.h:449-469 | all three point orders are asymmetric, which sorting them needs |
| SortedVector.InsertSortedProperties | include/YODA/Utils/sortedvector.h:35-38 | inserting into a sorted vector keeps it sorted and adds exactly one copy of the value |
| SortedVector.SortAllProperties | include/YODA/Utils/sortedvector.h:29-32 | the sort yields a sorted permutation of its input |
| SortedVector.SortedInsertProperties | include/YODA/Utils/sortedvector.h:35-38 | after push_back and sort the vector is sorted, one longer, and holds the old elements plus the value |
| SortedVector.SortedVector.Empty | include/YODA/Utils/sortedvector.h:26 | the default sorted vector is empty |
| SortedVector.SortedVector.constructor | include/YODA/Utils/sortedvector.h:29-32 | conversion from a vector gives a sorted permutation of it |
| SortedVector.SortedVector.Insert | include/YODA/Utils/sortedvector.h:35-38 | insert leaves the vector sorted, one longer, holding the old elements plus the value |
| SortedVector.InsertEachProperties | include/YODA/Utils/sortedvector.h:35-38 | a run of inserts yields a sorted vector holding the old elements and all the inserted ones |
| SortedVector.InsertEachAppend | include/YODA/Utils/sortedvector.h:35-38 | inserting a concatenation is inserting its parts in turn |
| SortedVector.SortAllChained | include/YODA/Utils/sortedvector.h:29-32 | sorting a vector already in strict order leaves it as it is |
| SortedVector.InsertEachChained | include/YODA/Utils/sortedvector.h:35-38 | inserting values that continue a strict chain appends them |
| SortedVector.SortedIntsUnique | include/YODA/Utils/sortedvector.h:29-38 | for ints the sorted arrangement of a multiset is unique |
| SortedVector.SortedIntsLeast | include/YODA/Utils/sortedvector.h:29-38 | the first int of a sorted vector is its least element |
| SortedVector.InsertedIntsSorted | tests/TestSortedVector.cc:10-25 | inserting ints one by one yields the one sorted arrangement of them |
| AnalysisObject.StrLessIrreflexive | include/YODA/AnalysisObject.h:250 | the std::map key order never puts a string before itself |
| AnalysisObject.StrLessTrichotomy | include/YODA/AnalysisObject.h:250 | any two different strings are ordered one way and not both |
| AnalysisObject.StrLessTransitive | include/YODA/AnalysisObject.h:250 | the key order is transitive |
| AnalysisObject.Keys | include/YODA/AnalysisObject.h:86-91 | the names, in map order, one per entry |
| AnalysisObject.LookupFound | include/YODA/AnalysisObject.h:95-97 | a lookup succeeds exactly when the name is among the keys |
| AnalysisObject.SetAnnProperties | include/YODA/AnalysisObject.h:144-150 | `_annotations[name] = value` keeps the map ordered, stores the value under the name and changes no other name |
| AnalysisObject.LookupNotBelow | include/YODA/AnalysisObject.h:101-110 | a name below the first key is not found |
| AnalysisObject.RmAnnProperties | include/YODA/AnalysisObject.h:172-174 | erasing drops that name only, keeps the order, and adds no key |
| AnalysisObject.KeysSortedUnique | include/YODA/AnalysisObject.h:86-91 | annotations() lists every name once, in increasing order |
| AnalysisObject.LookupAt | include/YODA/AnalysisObject.h:101-110 | a lookup finds the value stored at the key's place |
| AnalysisObject.Annotation | include/YODA/AnalysisObject.h:101-110 | the value when the name is present, else an AnnotationError |
| AnalysisObject.AnnotationOr | include/YODA/AnalysisObject.h:113-117 | the value when present, else the default |
| AnalysisObject.SetPath | include/YODA/AnalysisObject.h:214-219 | an AnnotationError, with nothing stored, for a non-empty path not starting with '/'; otherwise path() reads it back and no other name changes |
| AnalysisObject.LastSlash | include/YODA/AnalysisObject.h:226 | rfind("/"): -1 when there is no slash, else the index of the last one |
| AnalysisObject.NameOfPath | include/YODA/AnalysisObject.h:224-229 | name() is the slash-free suffix after the last '/', or the whole path when it has none |
| AnalysisObject.InitAnnotations | include/YODA/AnalysisObject.h:33-47 | the constructors fail exactly for an invalid path; otherwise Type, Path and Title hold the arguments and every other name keeps the copied value |
| AnalysisObject.WellFormedExtEq | include/YODA/AnalysisObject.h:250 | an ordered annotation list is determined by its lookups, as a std::map is |
| AnalysisObject.InitMatches | include/YODA/AnalysisObject.h:33-47 | any ordered list with the constructor's lookups is the one the constructor builds |
| AnalysisObject.TailLacksHead | include/YODA/AnalysisObject.h:250 | a key occurs only once in the map |
| AnalysisObject.AnalysisObject.constructor | include/YODA/AnalysisObject.h:30 | the default object has no annotations |
| AnalysisObject.AnalysisObject.Create | include/YODA/AnalysisObject.h:33-37 | AnalysisObject(type, path, title) sets Type, then Path, which may throw an AnnotationError, then Title |
| AnalysisObject.AnalysisObject.CreateFrom | include/YODA/AnalysisObject.h:40-47 | every annotation of the other object, then Type, Path and Title override |
| AnalysisObject.AnalysisObject.CopyAnnotations | include/YODA/AnalysisObject.h:42-43 | the loop over ao.annotations() copies the other object's map exactly |
| AnalysisObject.AnalysisObject.Assign | include/YODA/AnalysisObject.h:59-63 | operator= copies path and title only when they are non-empty; everything else stays; a non-empty path without a leading slash throws AnnotationError and leaves the annotations unchanged |
| AnalysisObject.AnalysisObject.AnnotationNames | include/YODA/AnalysisObject.h:86-91 | every name once, in increasing order, and exactly the names present |
| AnalysisObject.AnalysisObject.AnnotationValue | include/YODA/AnalysisObject.h:101-110 | the stored value, found exactly when hasAnnotation holds |
| AnalysisObject.AnalysisObject.SetAnnotation | include/YODA/AnalysisObject.h:144-150 | the name holds the value afterwards and no other name changes |
| AnalysisObject.AnalysisObject.SetAnnotations | include/YODA/AnalysisObject.h:157-159 | the whole map is replaced |
| AnalysisObject.AnalysisObject.RmAnnotation | include/YODA/AnalysisObject.h:172-174 | the name is gone and no other name changes |
| AnalysisObject.AnalysisObject.ClearAnnotations | include/YODA/AnalysisObject.h:178-180 | no annotations remain |
| AnalysisObject.AnalysisObject.SetTitle | include/YODA/AnalysisObject.h:199-201 | Title holds the new title and nothing else changes |
| AnalysisObject.AnalysisObject.SetPathOf | include/YODA/AnalysisObject.h:214-219 | an AnnotationError with nothing changed for a bad path; otherwise Path holds it and nothing else changes |
| AnalysisObject.StandardAnnotationsRoundTrip | include/YODA/AnalysisObject.h:188-219 | path() and title() read back what setPath and setTitle stored, are "" when absent, and type() throws when Type is absent |
| AnalysisObject.Fresh | src/Scatter1D.cc:9 | the annotations of a new object form a valid map |
| AnalysisObject.OverlaidSnoc | src/Scatter2D.cc:11-12 | copying one more annotation is one more setAnnotation |
| AnalysisObject.OverlaidLookup | src/Scatter2D.cc:11-12 | copying annotations one by one keeps the map valid, and each name ends with its last copied value or its old one |
| AnalysisObject.LastForWellFormed | include/YODA/AnalysisObject.h:250 | in a valid map the last entry for a name is its only one |
| AnalysisObject.FreshOverlaid | src/Scatter2D.cc:11-13 | the copied annotations win over a new object's own Type, Path and Title |
| Counter.RelErrOf | include/YODA/Counter.h:133-137 | relErr() is 0 when sumW2 is 0, and err() over sumW when both are non-zero |
| Counter.ScaledByOf | include/YODA/Counter.h:101 | annotation<double>("ScaledBy", 1.0) is 1 when the annotation is absent and a bad cast when its text is not a number |
| Counter.Rescaled | include/YODA/Counter.h:100-103 | after scaleW the "ScaledBy" annotation holds the old factor times s, and no other annotation changes |
| Counter.Counter.Create | include/YODA/Counter.h:28-30 | an empty counter with Type, Path and Title set, or an AnnotationError for a bad path |
| Counter.Counter.FromDbn | include/YODA/Counter.h:36-40 | a counter holding the given distribution, or an AnnotationError for a bad path |
| Counter.Counter.FromWeight | include/YODA/Counter.h:46-51 | a counter holding one fill of weight w: one entry, sumW w, sumW2 w*w |
| Counter.Counter.Copy | src/Counter.cc:16-20 | a copy of the distribution and annotations, under the given path or the original's when that is empty |
| Counter.Counter.Assign | include/YODA/Counter.h:60-65 | operator= always sets the path, so an invalid one throws with nothing changed; otherwise path, title and distribution are copied |
| Counter.Counter.Fill | include/YODA/Counter.h:86-88 | one more fill of the weight, annotations kept |
| Counter.Counter.Reset | include/YODA/Counter.h:94-96 | the distribution emptied, annotations kept |
| Counter.Counter.ScaleW | include/YODA/Counter.h:100-103 | a bad cast of "ScaledBy" throws before anything changes; otherwise "ScaledBy" is multiplied by s and the weights scaled |
| Counter.Counter.MulAssign | include/YODA/Counter.h:174-177 | `*= s` is scaleW(s) |
| Counter.Counter.DivAssign | include/YODA/Counter.h:180-183 | `/= s` is scaleW(1/s) |
| Counter.Counter.AddCounter | include/YODA/Counter.h:148-151 | the distributions add, annotations kept |
| Counter.Counter.SubCounter | include/YODA/Counter.h:154-157 | the distributions subtract, annotations kept |
| Counter.Counter.Increment | include/YODA/Counter.h:161-164 | `++` adds a counter holding one fill of weight 1 |
| Counter.Counter.Decrement | include/YODA/Counter.h:168-171 | `--` subtracts that same one-fill counter |
| Counter.Add | include/YODA/Counter.h:205-215 | a copy of the first counter with the second added; the arguments are unchanged |
| Counter.Subtract | include/YODA/Counter.h:219-229 | a copy of the first counter with the second subtracted |
| Counter.IncrementDecrement | include/YODA/Counter.h:161-171 | `++` then `--` restores the distribution, and `--` on an empty counter wraps the fill count to 2^64-1 |
| Counter.FillIsAddOfOneFill | include/YODA/Counter.h:46-51 | Counter(w) holds the same distribution as an empty counter filled with w, and adding it is a fill |
| Counter.ScaledByComposes | include/YODA/Counter.h:100-103 | two scalings multiply "ScaledBy", when the number format reads back what it writes |
| CounterRatio.Divide | src/Counter.cc:24-34 | a scatter with one point: numerator over denominator with the quadrature error, or (0, 0) for a zero denominator |
| CounterRatio.Efficiency | src/Counter.cc:38-65 | a UserError unless accepted is a subset of total (fills and sumW); otherwise the point is reset to the efficiency and its symmetric error |
| CounterRatio.EfficiencyIsRatio | src/Counter.cc:38-65 | the efficiency equals the division's value, and lies in [0, 1] for a subset with non-negative weights |
| CounterRatio.DivideBySelf | src/Counter.cc:24-34 | a non-empty counter over itself is 1; anything over an empty counter is (0, 0) |
| EfficiencyFormula.EfficiencyBounds | src/Counter.cc:51-59 | the efficiency is accepted over total sumW, within [0, 1] for a non-negative subset, and 0 with a 0 error when the total is empty |
| Scatter1D.Scatter1D.Create | include/YODA/Scatter1D.h:36-38 | no points, Type "Scatter1D", the path and title, or an AnnotationError for a bad path |
| Scatter1D.Scatter1D.FromPoints | include/YODA/Scatter1D.h:42-46 | the given sorted vector (a `Points` value, so sorted) taken as it is |
| Scatter1D.Scatter1D.FromValues | include/YODA/Scatter1D.h:50-55 | one error-free point per value, inserted in turn |
| Scatter1D.Scatter1D.FromSymErrors | include/YODA/Scatter1D.h:59-65 | an AnnotationError for a bad path first, then a UserError for different lengths; otherwise one symmetric point per value, inserted in turn |
| Scatter1D.Scatter1D.FromPairErrors | include/YODA/Scatter1D.h:68-74 | the same with one error pair per value |
| Scatter1D.Scatter1D.FromAsymErrors | include/YODA/Scatter1D.h:78-87 | UserErrors when the three lengths differ; otherwise one point per value with its two errors |
| Scatter1D.Scatter1D.Copy | include/YODA/Scatter1D.h:92-95 | the other's annotations and points, under the given path or the other's own |
| Scatter1D.Scatter1D.Assign | include/YODA/Scatter1D.h:99-103 | the analysis-object assignment of path and title, then the other's points; a bad path throws with nothing changed |
| Scatter1D.Scatter1D.SetAnnotation | include/YODA/AnalysisObject.h:144-150 | the name holds the value, no other name changes, and the points stay |
| Scatter1D.Scatter1D.Overlay | src/Scatter1D.cc:10-11 | after copying each annotation of the source, a name has the source's value when it has one, else its own |
| Scatter1D.Scatter1D.Reset | include/YODA/Scatter1D.h:126-128 | no points left, annotations kept |
| Scatter1D.Scatter1D.ScaleX | include/YODA/Scatter1D.h:131-133 | every point scaled in place, in the same position |
| Scatter1D.Scatter1D.Point | include/YODA/Scatter1D.h:163-173 | the point at the index, or a RangeError past the end |
| Scatter1D.Scatter1D.AddPoint | include/YODA/Scatter1D.h:182-204 | the point inserted into the sorted vector: sorted afterwards, holding the old points and the new one |
| Scatter1D.Scatter1D.AddPoints | include/YODA/Scatter1D.h:207-209 | each point inserted in turn |
| Scatter1D.Scatter1D.CombineWith | include/YODA/Scatter1D.h:218-220 | the other's points inserted in turn; the other may be this scatter |
| Scatter1D.Scatter1D.CombineWithAll | include/YODA/Scatter1D.h:224-226 | the points of every scatter inserted, scatter by scatter |
| Scatter1D.Combine | include/YODA/Scatter1D.h:256-260 | a copy of a that also holds b's points |
| Scatter1D.CombineAll | include/YODA/Scatter1D.h:262-266 | a default scatter holding the points of all the scatters |
| Scatter1D.MkScatterOfScatter | include/YODA/Scatter1D.h:282-284 | mkScatter of a Scatter1D is its copy |
| Scatter1D.MkScatterOfCounter | src/Scatter1D.cc:8-15 | the counter's annotations copied, Type set from the counter (an AnnotationError when it has none), and one point at val() with err() on both sides |
| Scatter1D.TransformX | include/YODA/Scatter1D.h:299-314 | each point's value and edges mapped through fx in place, with the lower image as the lower edge |
| Scatter1D.ConstructedPointsSorted | include/YODA/Scatter1D.h:50-87 | the vector constructors build sorted scatters holding exactly the given points |
| Scatter1D.TransformedPointEdges | include/YODA/Scatter1D.h:302-312 | after transformX the value is fx(x), the edges are the min and max of the images of the old edges, and an increasing fx keeps lower edges lower |
| Scatter1D.TransformIdentity | include/YODA/Scatter1D.h:299-314 | the identity transform leaves a point with non-negative errors as it was |
| Scatter1D.ScaledPointsLaws | include/YODA/Scatter1D.h:131-133 | scaling by 1 changes nothing, two scalings compose, and each point's edges scale with it |
| Scatter1D.SamePointsProperties | include/YODA/Scatter1D.h:232-239 | scatter equality is reflexive and symmetric and fails for different sizes |
| Scatter1D.InsertIntoEmpty | include/YODA/Scatter1D.h:182-184 | a point inserted into an empty scatter is the whole vector |
| Histo1D.RouteOf | src/Histo1D.cc:25-34 | the branch of fill: no bins only when there are none, and a bin route names an existing bin |
| Histo1D.Histo1D.Copy | src/Histo1D.cc:119-123 | the other's annotations with Type reset, the given or original path and title, and a copy of the axis with the same statistics and table |
| Histo1D.Histo1D.Fill | src/Histo1D.cc:17-38 | a RangeError for NaN with nothing changed; otherwise the total is filled, then the bin, gap, underflow or overflow as the route says, the axis is locked, and the xMin() RangeError is thrown exactly when there are no bins |
| Histo1D.Histo1D.FillAtBin | src/Histo1D.cc:41-43 | the RangeError of bin(i) past the end; otherwise a fill at bin i's midpoint |
| Histo1D.Histo1D.NumEntries | src/Histo1D.cc:49-54 | the total's count with overflows, else the wrapping sum of the bins' counts |
| Histo1D.Histo1D.EffNumEntries | src/Histo1D.cc:57-62 | the total's effective count with overflows, else the sum over the bins |
| Histo1D.Histo1D.SumW | src/Histo1D.cc:65-70 | the total's sumW with overflows, else the sum over the bins |
| Histo1D.Histo1D.SumW2 | src/Histo1D.cc:73-78 | the total's sumW2 with overflows, else the sum over the bins |
| Histo1D.SlotInsideRange | src/Histo1D.cc:25 | on a laid-out axis every bin's slot lies inside [xMin, xMax) |
| Histo1D.InRangeSlotIsBin | src/Histo1D.cc:25-29 | inside [xMin, xMax) the slot holds either -1 or a bin index |
| Histo1D.RouteToBinSpec | src/Histo1D.cc:25-29 | a fill at x reaches bin i exactly when x lies in bin i's slot |
| Histo1D.RouteOutsideSpec | src/Histo1D.cc:25-34 | the underflow takes exactly x < xMin, the overflow exactly x >= xMax, and a gap (the swallowed RangeError) exactly what is in range but in no bin's slot |
| Histo1D.MidRoutesToBin | src/Histo1D.cc:41-43 | a fill at bin i's midpoint reaches bin i |
| Histo1D.SumDbnsFillBin | src/Histo1D.cc:28 | filling one bin adds the fill to the sum of the bins |
| Histo1D.FillAggregates | src/Histo1D.cc:17-38 | the in-range sums grow by the fill exactly when it reached a bin, and the total always does |
| Histo1D.FillKeepsBalance | src/Histo1D.cc:17-38 | total = bins + underflow + overflow survives a fill exactly when it does not go to a gap or to an axis with no bins |
| Histo1D.FillChangesCount | src/Histo1D.cc:21 | every fill changes the distribution it goes into |
| Histo1DRatios.DivisionIsEmpty | src/Histo1D.cc:174 | divide leaves y = ey = 0 exactly when the denominator height is 0, or the numerator height is 0 with a non-zero error |
| Histo1DRatios.RelErrOrZero | src/Histo1D.cc:181-182 | the relative error of a bin, or 0 when its height error is 0 |
| Histo1DRatios.DivideBinPoint | src/Histo1D.cc:158-189 | a RangeError when the denominator has no bin i, a BinningError for edges that are not fuzzy-equal, otherwise a point at the bin midpoint spanning its edges with a symmetric y error |
| Histo1DRatios.DividePairs | src/Histo1D.cc:157-159 | numerator bin i is paired with the denominator's bin(i), a RangeError past its end |
| Histo1DRatios.Divide | src/Histo1D.cc:154-194 | the scatter holds the points of all numerator bins, inserted in turn, or the first failing bin's error |
| Histo1DRatios.DividePointsMeaning | src/Histo1D.cc:154-194 | a successful division has one point per numerator bin, at its midpoint and spanning its edges, y = 0 when empty and y*height(denominator) = height(numerator) otherwise |
| Histo1DRatios.DivideShortDenominator | src/Histo1D.cc:158-159 | a denominator with fewer bins always throws |
| Histo1DRatios.DivideMismatchedEdges | src/Histo1D.cc:162-163 | a bin pair whose edges are not fuzzy-equal makes divide throw, a BinningError when no earlier bin failed |
| Histo1DRatios.DivideInBinOrder | src/Histo1D.cc:189 | on a laid-out numerator whose midpoints are not fuzzy-equal, the sorted vector keeps the points in bin order |
| Histo1DRatios.DivideBinBySelf | src/Histo1D.cc:179 | a bin divided by itself is 1 when its height is non-zero |
| Histo1DRatios.EfficiencyPoints | src/Histo1D.cc:200-227 | every point's y is reset from bin i of the two histograms |
| Histo1DRatios.Efficiency | src/Histo1D.cc:198-229 | the division's error, or a UserError at a bin that is not a subset, or the divided points with y reset to the efficiency |
| Histo1DRatios.ResetEfficiencies | src/Histo1D.cc:200-227 | the loop passes exactly when every accepted bin is a subset of its total bin, and then resets every point |
| Histo1DRatios.EfficiencyPointBounds | src/Histo1D.cc:214-226 | the efficiency keeps x and its errors, lies in [0, 1] for a non-negative subset bin, and is 0 when the total bin is empty |
| Histo1DRatios.IntegralPoints | src/Histo1D.cc:237-242 | point i's y is the running sum after i+1 bins, with its square root as error |
| Histo1DRatios.ToIntegralHisto | src/Histo1D.cc:233-244 | mkScatter of the histogram (an AnnotationError without a Type), with each point's y replaced by the running integral, starting from the underflow when requested |
| Histo1DRatios.RunningIntegralStep | src/Histo1D.cc:239 | each bin adds its sumW to the running sum |
| Histo1DRatios.RunningIntegralMonotone | src/Histo1D.cc:236-242 | with non-negative bin weights the running sum never decreases |
| Histo1DRatios.IntegralPointsMeaning | src/Histo1D.cc:236-242 | the last point holds the start plus the sum of all bin weights, and y never decreases for non-negative weights |
| Histo1DRatios.IntegralInBinOrder | src/Histo1D.cc:233-244 | on a laid-out histogram point i sits at bin i's midpoint and holds the cumulative sum up to bin i |
| Scatter2D.Scatter2D.Create | src/Scatter2D.cc:10 | a path not starting with '/' is refused with an AnnotationError; otherwise a fresh scatter with no points and the standard Type, Path and Title annotations |
| Scatter2D.Scatter2D.SetAnnotation | src/Scatter2D.cc:12-13 | the one annotation is set or replaced, every other annotation and all points are unchanged |
| Scatter2D.Scatter2D.Overlay | src/Scatter2D.cc:11-12 | after copying, every name of the source annotations has the source's value and every other name keeps its old value |
| Scatter2D.Scatter2D.Point | src/Histo1D.cc:203 | point(i) is the i-th point, a RangeError past the end |
| Scatter2D.Scatter2D.AddPoint | src/Scatter2D.cc:33 | the point is inserted into the sorted vector: the points stay sorted and gain exactly that point |
| Scatter2D.DefaultScatterLookup | src/Scatter2D.cc:10 | a default Scatter2D has Type "Scatter2D", empty path and title and nothing else |
| Scatter2D.InsertedPointsSorted | src/Scatter2D.cc:33-35 | points added one by one to an empty scatter end up sorted, all of them, as many as were added |
| Scatter3D.Scatter3D.Create | src/Scatter3D.cc:31 | a bad path is an AnnotationError; otherwise a fresh, empty Scatter3D with the standard annotations |
| Scatter3D.Scatter3D.SetAnnotation | src/Scatter3D.cc:33-34 | the one annotation is set or replaced; everything else is unchanged |
| Scatter3D.Scatter3D.Overlay | src/Scatter3D.cc:32-33 | the source's names take the source's values, every other name keeps its old value |
| Scatter3D.Scatter3D.AddPoint | src/Scatter3D.cc:49 | the points stay sorted and gain exactly the new point |
| Scatter3D.DefaultScatterLookup | src/Scatter3D.cc:31 | a default Scatter3D has Type "Scatter3D", empty path and title and nothing else |
| Scatter3D.InsertedPointsSorted | src/Scatter3D.cc:35-50 | points added one by one end up sorted, all of them |
| Scatter2DConversions.OrZero | src/Scatter2D.cc:19-30 | a statistic that throws is read as 0 |
| Scatter2DConversions.HistoBinPoint | src/Scatter2D.cc:15-32 | the point sits at the focus or the midpoint, its x errors reach exactly the bin edges, y is the height and the y errors are the height error, each 0 when it throws |
| Scatter2DConversions.HistoPoints | src/Scatter2D.cc:14-34 | one point per bin, in bin order |
| Scatter2DConversions.ProfileBinPoint | src/Scatter2D.cc:47-64 | the point spans the bin edges, y is the mean and the y error is the standard deviation or the standard error as usestddev says, each 0 when it throws |
| Scatter2DConversions.ProfilePoints | src/Scatter2D.cc:46-66 | one point per profile bin, in bin order |
| Scatter2DConversions.ConvertedScatter | src/Scatter2D.cc:10-13 | the source's annotations copied over a default scatter and Type overridden by the source's type, or an AnnotationError when type() throws |
| Scatter2DConversions.MkScatterOfHisto1D | src/Scatter2D.cc:9-37 | the converted annotations and every bin's point inserted in turn, as many points as bins |
| Scatter2DConversions.MkScatterOfProfile1D | src/Scatter2D.cc:41-69 | the converted annotations and every profile bin's point inserted in turn, as many points as bins |
| Scatter2DConversions.MidsIncrease | src/Scatter2D.cc:15 | on a laid-out sorted axis the bin midpoints strictly increase |
| Scatter2DConversions.MidPointsInBinOrder | src/Scatter2D.cc:33 | when neighbouring midpoints are not fuzzy-equal, the sorted scatter keeps the points in bin order |
| Scatter3DConversions.EdgePoint | src/Scatter3D.cc:38-49 | the point rebuilds the bin's four edges from its two centres and carries z with a symmetric z error |
| Scatter3DConversions.Histo2DBinPoint | src/Scatter3D.cc:36-49 | the point of a Histo2D bin, or the exception of height(), else of heightErr(), which is not caught |
| Scatter3DConversions.CatchLowStats | src/Scatter3D.cc:72-83 | a LowStatsError becomes 0, every other error passes through unchanged |
| Scatter3DConversions.Profile2DBinPoint | src/Scatter3D.cc:62-85 | the point exists exactly when neither the mean nor the chosen error throws anything but a LowStatsError |
| Scatter3DConversions.ConvertedScatter | src/Scatter3D.cc:31-34 | the source's annotations copied, Type overridden, or an AnnotationError when type() throws |
| Scatter3DConversions.AddBinPoints | src/Scatter3D.cc:35-50 | the loop inserts every bin's point in turn, or stops at the first bin whose point throws with that error |
| Scatter3DConversions.MkScatterOfHisto2D | src/Scatter3D.cc:30-53 | an AnnotationError without a type, the first failing bin's error, or the converted annotations with every bin's point inserted |
| Scatter3DConversions.MkScatterOfProfile2D | src/Scatter3D.cc:56-89 | as for Histo2D, with the mean and the chosen error, LowStatsError caught |
| Scatter3DConversions.Histo2DPointsRebuildBins | src/Scatter3D.cc:36-49 | point i of a successful conversion rebuilds bin i's edges and carries its height and height error |
| Scatter3DConversions.Profile2DLowStats | src/Scatter3D.cc:72-77 | a profile bin whose mean has too few statistics still gives a point, at z = 0 |
| StringUtils.Find | include/YODA/Utils/StringUtils.h:24 | the result is the first index at or after the start holding the character, or -1 (npos) exactly when none does |
| StringUtils.ReplacePass | include/YODA/Utils/StringUtils.h:23-26 | one find-and-replace loop replaces every occurrence of the character by its entity, resuming the search past each replacement |
| StringUtils.PassesSnoc | include/YODA/Utils/StringUtils.h:22-27 | running one more pass after the earlier ones is that pass applied to their result |
| StringUtils.EncodeForXML | include/YODA/Utils/StringUtils.h:14-29 | the three passes, '&' first, give the per-character entity escape of the input |
| StringUtils.EncodeIsEscape | include/YODA/Utils/StringUtils.h:18-27 | the '&', '<', '>' passes in that order equal replacing each character by its entity once |
| StringUtils.ThreePasses | include/YODA/Utils/StringUtils.h:18-27 | the same equality with the three replacements written out |
| StringUtils.OneCharPasses | include/YODA/Utils/StringUtils.h:18-20 | on one character the three passes give its entity or the character itself; the '&' of a later entity is never escaped again |
| StringUtils.UnescapeEscape | include/YODA/Utils/StringUtils.h:14-29 | decoding the three entities gives the input back, so the escape loses nothing |
| StringUtils.EscapeHasNoAngles | include/YODA/Utils/StringUtils.h:19-20 | the output holds no '<' and no '>' |
| StringUtils.EscapeLength | include/YODA/Utils/StringUtils.h:18-20 | each '&' lengthens the text by four characters, each '<' or '>' by three |
| StringUtils.EscapePlain | include/YODA/Utils/StringUtils.h:24 | text without the three characters is returned unchanged |
| StringUtils.EscapeAppend | include/YODA/Utils/StringUtils.h:14-29 | escaping distributes over concatenation |
| StringUtils.ReplaceAllAppend | include/YODA/Utils/StringUtils.h:24-25 | replacing in a concatenation is replacing in each part |
| StringUtils.ReplaceAllWithout | include/YODA/Utils/StringUtils.h:24 | a pass over text without the character changes nothing |
| Lines.NextLine | src/ReaderYODA.cc:43-72 | a line takes at least one character of non-empty input and never more than there is |
| Lines.LinesOf | src/ReaderYODA.cc:106 | the lines the loop body sees always end with the empty line delivered at end of input |
| Lines.Stream.constructor | src/ReaderYODA.cc:43-72 | a fresh stream is good and at position 0 |
| Lines.Stream.SafeGetline | src/ReaderYODA.cc:43-72 | the line up to the next LF, CR or CR LF is taken and the terminator consumed; a stream that was not good fails; eofbit is set when the buffer was already exhausted; the result is true while the stream has not failed |
| Lines.NextLineAt | src/ReaderYODA.cc:56-68 | LF ends the line, CR ends it and swallows a following LF, any other character is appended |
| Lines.ReadLines | src/ReaderYODA.cc:106 | the loop `while (safe_getline(stream, s))` delivers exactly LinesOf(text) |
| Lines.LinesOfStep | src/ReaderYODA.cc:106 | each turn of the loop delivers the line at the current position and continues after its terminator; at the end one empty line comes |
| Lines.NextLineOfTerminated | src/ReaderYODA.cc:56-61 | a line followed by LF or CR LF is read back whole, with its terminator consumed |
| Lines.LinesOfTerminated | src/ReaderFLAT.cc:34-93 | lines written with LF or CR LF after each come back as they were, followed by the empty end-of-input line |
| Lines.NextLineShape | src/ReaderYODA.cc:54-70 | the line is the text before the first terminator and holds none, and a terminator follows unless the text ran out |
| Lines.LinesHaveNoEnds | src/ReaderYODA.cc:54-70 | no delivered line contains a terminator |
| Lines.LastLineUnterminated | src/ReaderYODA.cc:64-66 | a final line without a terminator is still delivered |
| Lines.NextLineWhole | src/ReaderYODA.cc:64-66 | text without terminators is one line that takes all of it |
| LineGrammar.SkipSpace | src/ReaderYODA.cc:152 | the skipper drops only whitespace and stops at the first non-blank character |
| LineGrammar.WordLength | include/YODA/ReaderYODA.h:443 | a token takes no more characters than the line has |
| LineGrammar.WordLengthShape | include/YODA/ReaderYODA.h:443 | a token is the run of non-blank characters up to the first whitespace |
| LineGrammar.SkipSpaceShape | src/ReaderYODA.cc:152 | the skipper keeps a suffix of the line and drops only whitespace |
| LineGrammar.TokensAreWords | include/YODA/ReaderYODA.h:443-475 | every token is a non-empty run of non-blank characters |
| LineGrammar.ParseULong | include/YODA/ReaderYODA.h:447 | ulong_ accepts exactly a non-empty run of digits whose value fits in an unsigned long, and yields that value |
| LineGrammar.ULongText | src/WriterYODA.cc:81 | a count is written as a non-empty run of decimal digits |
| LineGrammar.Numbers | include/YODA/ReaderYODA.h:443-475 | k double_ columns parse exactly when each of the first k tokens is a number, yielding their values in order |
| LineGrammar.LeadNumbersCount | include/YODA/ReaderYODA.h:443-447 | a row of literal lead tokens, k numbers and a count parses exactly when each part does, yielding the numbers and the count |
| LineGrammar.KeyValue | include/YODA/ReaderYODA.h:482-487 | an annotation line has a key that does not start with a digit or '-', runs up to the first '=', and a value, the rest after leading whitespace; a line with a key-start digit or '-' or with no '=' is not one |
| LineGrammar.SkipSpaceWord | src/ReaderYODA.cc:152 | text starting with a word has nothing to skip |
| LineGrammar.WordLengthWord | include/YODA/ReaderYODA.h:443 | a word followed by whitespace or nothing is exactly one token long |
| LineGrammar.TokensSpaced | include/YODA/ReaderYODA.h:443-475 | words joined by single spaces tokenise back to themselves |
| LineGrammar.TokensOfWord | include/YODA/ReaderYODA.h:443 | a word at the front of a line is its first token |
| LineGrammar.TokensAfterSpace | src/ReaderYODA.cc:152 | leading whitespace does not change the tokens |
| LineGrammar.ParseULongText | include/YODA/ReaderYODA.h:447 | a count written in decimal is read back as itself |
| LineGrammar.DigitsValueText | include/YODA/ReaderYODA.h:447 | the digits a writer emits have the count's value |
| LineGrammar.KeyValueOfLine | include/YODA/ReaderYODA.h:482-487 | a line written as key=value reads back as that key and value when the key starts with neither whitespace, a digit nor '-', holds no '=', and the value starts with no whitespace |
| LineGrammar.CommentOfHash | include/YODA/ReaderYODA.h:489-490 | a line whose first non-blank character is '#' is a comment |
| LineGrammar.SkipSpaceOver | src/ReaderYODA.cc:152 | the skipper drops exactly the leading blanks |
| Lines.ScanLine | src/ReaderYODA.cc:54-70 | the characters taken up to the first terminator or the end of the buffer are the line NextLine reads, and the scan stops exactly there |
| Groups.FirstNamed | include/YODA/ReaderYODA.h:385-386 | the symbol table yields an enabled id whose name starts the rest of the line, and none exactly when no enabled name does |
| Groups.MatchGroup | include/YODA/ReaderYODA.h:390-398 | a positive result is the id of a "# BEGIN " line while the BEGIN table is on; a negative one is minus the id of a "# END " line of an open block; never 0 |
| Groups.Regroup | src/ReaderYODA.cc:111-124 | a non-group line leaves the state alone; BEGIN enters the group, clears the BEGIN table and enables its END; END disables it, restores the BEGIN table and raises the context-change flag |
| Groups.FirstNamedOfName | include/YODA/ReaderYODA.h:385-386 | with prefix-free names, a line starting with a name selects that name's id when it is enabled and nothing otherwise |
| Groups.OtherNameNotPrefix | src/ReaderYODA.cc:82-89 | a line that starts with one group name does not start with another |
| Groups.FirstNamedPast | include/YODA/ReaderYODA.h:385-386 | a name already passed over is not found again |
| Groups.PrefixJoin | include/YODA/ReaderYODA.h:392-397 | the literal tag followed by the name is a prefix of the line |
| Groups.BeginMatches | include/YODA/ReaderYODA.h:392-394 | a BEGIN line opens its group exactly while the BEGIN table is on |
| Groups.EndMatches | include/YODA/ReaderYODA.h:395-397 | an END line closes its group exactly when that group is open |
| Groups.UntaggedByHead | include/YODA/ReaderYODA.h:390-398 | an empty line, one not starting with '#', or a "# " line whose third character starts neither tag word, is no group line |
| TextRows.Kept | src/WriterYODA.cc:28-29 | the entries written are at most the annotations there are |
| TextRows.AnnotationLines | src/WriterYODA.cc:26-33 | _writeAnnotations writes one key=value line per entry kept |
| TextRows.Rows | src/WriterYODA.cc:77-82 | the loop over bins or points writes one line per element |
| TextRows.Texts | src/WriterYODA.cc:78-80 | each number of a row is formatted into one column |
| TextRows.Counted | src/WriterYODA.cc:78-81 | a bin row has its numbers and then the count column |
| TextRows.RowsSnoc | src/WriterYODA.cc:77-82 | one more turn of the loop appends that element's line |
| TextRows.AnnotationLinesSnoc | src/WriterYODA.cc:28-32 | one more entry adds its line unless its name is skipped |
| TextRows.KeptSnoc | src/WriterFLAT.cc:37-42 | one more entry is kept unless its name is empty, or "Type" for the flat writer |
| TextRows.KeptFrom | src/WriterFLAT.cc:37-42 | every entry written is an entry of the object and not skipped |
| TextRows.KeptLookup | src/WriterFLAT.cc:35-43 | the written entries are well formed, leave out exactly the skipped names and keep every other name with its value |
| TextRows.KeptWellFormed | src/WriterFLAT.cc:37 | the entries written stay in key order without duplicates |
| TextRows.KeptAbove | src/WriterFLAT.cc:37 | leaving entries out never brings in a key below the old least key |
| TextRows.KeptValue | src/WriterYODA.cc:28-32 | the value written for a name is the object's value, or nothing for a skipped name |
| TextRows.ConsWellFormed | src/WriterYODA.cc:28 | an entry below every key of a well-formed tail keeps the list well formed |
| TextRows.RowTokens | src/WriterYODA.cc:78-81 | a tab-separated row of words tokenises back to its columns |
| TextRows.RowHead | src/WriterYODA.cc:78 | a row starts with the first character of its first column |
| TextRows.LeadTokens | src/WriterYODA.cc:64 | a word followed by blanks is the first token of the line |
| TextRows.TaggedRowTokens | src/WriterYODA.cc:64-67 | a total or outflow row tokenises to its tag twice and then its columns |
| TextRows.ReadableAt | src/WriterYODA.cc:52 | under a readable formatter the text of a number is one word the lexer takes back |
| TextRows.FormattedWord | src/WriterYODA.cc:52 | a formatted number is a word that starts like a number and not like a comment |
| TextRows.TextsRead | src/WriterYODA.cc:78-80 | a row of formatted numbers splits into those numbers, each read back as itself |
| TextRows.TextsWords | src/WriterYODA.cc:78-80 | each formatted number is a word that reads back as itself |
| TextRows.CountedRead | src/WriterYODA.cc:78-81 | numbers and a count split back into themselves; the count column parses as the count |
| TextRows.TaggedCountedRead | src/WriterYODA.cc:64-75 | a total or outflow row reads back as its tag twice, its numbers and its count |
| TextRows.CountedWords | src/WriterYODA.cc:78-81 | every column of a bin row is a word |
| TextRows.CountWord | src/WriterYODA.cc:81 | the count column is a word that parses back as the count |
| ReaderYODA.Cleared | include/YODA/ReaderYODA.h:54-84 | cleanup() leaves no bins, no points and no annotations, and every distribution reset |
| ReaderYODA.ParseRows | src/ReaderYODA.cc:152 | each line of a block is parsed on its own by the line grammar |
| ReaderYODA.RunSnoc | src/ReaderYODA.cc:106-231 | one more line runs one more pass of the loop body and appends the objects it builds, unless a throw already ended the read |
| ReaderYODA.ReaderYODA.constructor | include/YODA/ReaderYODA.h:90 | before any read the static tables are empty and the records cleared |
| ReaderYODA.ReaderYODA.ReadDoc | src/ReaderYODA.cc:77-232 | the loop over the lines yields exactly the objects of Run from the start state, stops at the RangeError of a rejected axis and reports it, and leaves the static tables and records where Run ends |
| ReaderYODA.ReaderYODA.Read | include/YODA/ReaderYODA.h:39-41 | read is _readDoc over the lines safe_getline delivers, with its objects, its RangeError and its final static state |
| ReaderYODA.YodaGroupsPrefixFree | src/ReaderYODA.cc:82-89 | no group name is a prefix of another, so the longest-match tables and a first match agree |
| ReaderYODA.EnterBlock | src/ReaderYODA.cc:111-117 | a BEGIN line of a known group opens the block: context is the group, the BEGIN table off, its END enabled, and the line itself is parsed as content |
| ReaderYODA.BeginInsideBlock | src/ReaderYODA.cc:114-116 | inside a block a BEGIN line is only content |
| ReaderYODA.LeaveBlock | src/ReaderYODA.cc:118-225 | the END of an open Histo1D to Scatter2D block emits the one object built from the records and clears them, or throws the constructor's RangeError with the records kept; a Scatter3D or Counter block builds nothing and its records carry over |
| ReaderYODA.EndOfOtherGroup | src/ReaderYODA.cc:117 | inside a block the END line of another group is only content |
| ReaderYODA.UntaggedLine | include/YODA/ReaderYODA.h:390-398 | a line with neither tag is never a group line |
| ReaderYODA.LineOutsideBlock | src/ReaderYODA.cc:139-230 | outside any block, once the object is out, an untagged line changes nothing |
| ReaderYODA.LineInsideBlock | src/ReaderYODA.cc:139-155 | inside a block every line but an END is content |
| ReaderYODA.RunLast | src/ReaderYODA.cc:106 | a read is its last pass after the rest |
| ReaderYODA.RunOne | src/ReaderYODA.cc:106 | a one-line read is one pass |
| ReaderYODA.RunOutside | src/ReaderYODA.cc:106-231 | untagged lines outside any block leave the reader as it was and build nothing |
| ReaderYODA.RunAppend | src/ReaderYODA.cc:106-231 | reading two pieces in turn is reading their concatenation, and a read that threw in the first piece never sees the second |
| ReaderYODA.FoldAppend | src/ReaderYODA.cc:106 | any loop body over two pieces in turn is the loop over their concatenation |
| ReaderYODA.RunInsideBlock | src/ReaderYODA.cc:139-155 | a block body without END lines only applies the rows of its lines in order |
| ReaderYODA.BlockYieldsOneObject | src/ReaderYODA.cc:106-225 | a whole block from BEGIN to END without an END inside yields exactly one object, built from its lines' actions (the BEGIN line's included), and leaves the records cleared; or, when the object's axis rejects the bins, it yields nothing, throws RangeError and keeps the records |
| ReaderYODA.BlockOfLines | src/ReaderYODA.cc:106-225 | the same for any BEGIN and END lines the group grammar recognises |
| ReaderYODA.StepAtEnd | src/ReaderYODA.cc:118-225 | an END line of a Histo1D to Scatter2D block emits its object, clears the records and lowers the flag, or throws RangeError and keeps them |
| ReaderYODA.ApplyRowsCons | include/YODA/ReaderYODA.h:280-370 | the actions of a first line come before those of the rest |
| ReaderYODA.Histo1DBinLine | include/YODA/ReaderYODA.h:443-447 | seven columns, six numbers and a count, are a Histo1D bin: edges, sums, then the fill count |
| ReaderYODA.TagsAreNotNumbers | include/YODA/ReaderYODA.h:437-439 | the literal words Total, Underflow and Overflow are not numbers |
| ReaderYODA.Histo1DTaggedLine | include/YODA/ReaderYODA.h:444-447 | tag, tag, four numbers and a count are the Histo1D total, underflow or overflow that the tag names |
| ReaderYODA.DataRow | include/YODA/ReaderYODA.h:412-428 | a line a statistics rule matches is that row |
| ReaderYODA.Profile1DBinLine | include/YODA/ReaderYODA.h:458-462 | nine columns are a Profile1D bin, with no cross term |
| ReaderYODA.Profile1DTaggedLine | include/YODA/ReaderYODA.h:459-462 | tag, tag, six numbers and a count are the Profile1D distribution the tag names |
| ReaderYODA.Histo2DBinLine | include/YODA/ReaderYODA.h:451-454 | twelve columns are a Histo2D bin: four edges, seven sums, the count |
| ReaderYODA.Histo2DTotalLine | include/YODA/ReaderYODA.h:452-454 | "Total Total", seven numbers and a count are the Histo2D total |
| ReaderYODA.Profile2DBinLine | include/YODA/ReaderYODA.h:466-469 | fourteen columns are a Profile2D bin, with the two unused cross terms 0 |
| ReaderYODA.Profile2DTotalLine | include/YODA/ReaderYODA.h:467-469 | "Total Total", nine numbers and a count are the Profile2D total |
| ReaderYODA.Scatter2DPointLine | include/YODA/ReaderYODA.h:475 | six numbers are a Scatter2D point: x, its errors, y, its errors |
| ReaderYODA.Scatter1DPointLine | include/YODA/ReaderYODA.h:472 | three numbers are a Scatter1D point |
| ReaderYODA.NoDataRow | include/YODA/ReaderYODA.h:412-431 | a line whose first word is neither a number nor a tag matches no data rule |
| ReaderYODA.AnnotationLine | include/YODA/ReaderYODA.h:482-487 | a key=value line with a proper key is the annotation key: value |
| ReaderYODA.CommentLine | include/YODA/ReaderYODA.h:489-490 | a '#' line holding no '=' is a comment and changes nothing |
| ReaderYODA.ApplyRowsPushes | include/YODA/ReaderYODA.h:329-370 | bins and points are pushed back in the order of their lines, after those already held |
| ReaderYODA.ApplyRowsReplaces | include/YODA/ReaderYODA.h:282-322 | a total or outflow line replaces the distribution: the last one wins, and without one the old is kept |
| ReaderYODA.ApplyRowsAnnotations | include/YODA/ReaderYODA.h:376-378 | annotation lines are set one after another; a repeated key takes the later value |
| ReaderYODA.ApplyRowsWellFormed | include/YODA/ReaderYODA.h:376-378 | the annotation map stays well formed along the rows |
| ReaderYODA.EmittedAnnotations | src/ReaderYODA.cc:158-162 | an object read carries the block's annotations set over a fresh object of its type |
| ReaderYODA.Emit | src/ReaderYODA.cc:156-219 | leaving a Histo1D or Profile1D block throws RangeError exactly when the axis built from the bins, sorted by edge, has two overlapping proper bins; the other blocks always give their object |
| ReaderYODA.EmittedContents | src/ReaderYODA.cc:156-219 | a Histo1D or Profile1D holds its bins sorted by edge, a permutation of those read, laid out without overlap; a Histo2D or Profile2D holds its bins in line order; a scatter holds a sorted permutation of its points; the distributions are those read |
| ReaderYODA.RunStopped | src/ReaderYODA.cc:106-231 | once a read has thrown, the lines after the throw change nothing |
| ReaderYODA.ApplyRowWellFormed | include/YODA/ReaderYODA.h:376-378 | one row keeps the annotation map well formed |
| ReaderYODA.StepWellFormed | src/ReaderYODA.cc:106-231 | one pass keeps the records and the objects it builds well formed |
| ReaderYODA.RunWellFormed | src/ReaderYODA.cc:106-231 | along a whole read the records and every object read stay well formed |
| ReaderYODA.ReaderYODA.StepLine | src/ReaderYODA.cc:107-230 | one pass of the loop body on a line moves the context, tables and records exactly as Step does and yields the objects Step yields |
| ReaderFLAT.Cleared | include/YODA/ReaderFLAT.h:49-58 | cleanup() empties the three point vectors and the annotations |
| ReaderFLAT.ParseRows | src/ReaderFLAT.cc:124-125 | each line of a block is parsed on its own by the data grammar |
| ReaderFLAT.Emit | src/ReaderFLAT.cc:134-146 | leaving a histogram block throws ReadError exactly when no point of any kind was read |
| ReaderFLAT.RunSnoc | src/ReaderFLAT.cc:93-167 | one more line runs one more pass unless an earlier pass threw, in which case nothing more happens |
| ReaderFLAT.ReaderFLAT.constructor | include/YODA/ReaderFLAT.h:60 | before any read the static tables are empty and the records cleared |
| ReaderFLAT.ReaderFLAT.ReadDoc | src/ReaderFLAT.cc:68-168 | the loop yields the objects of Run pushed before any ReadError, that error if one ended the read, and leaves the static state where Run ends |
| ReaderFLAT.ReaderFLAT.Read | include/YODA/ReaderFLAT.h:35-37 | read is _readDoc over the lines safe_getline delivers |
| ReaderFLAT.RunAppend | src/ReaderFLAT.cc:93-167 | reading two pieces in turn is reading their concatenation; a read that failed in the first never looks at the second |
| ReaderFLAT.RunStopped | src/ReaderFLAT.cc:145 | once a read has thrown, the lines after it change nothing |
| ReaderFLAT.FoldAppend | src/ReaderFLAT.cc:93 | any throwing loop body over two pieces is the loop over their concatenation |
| ReaderFLAT.FlatGroupsPrefixFree | src/ReaderFLAT.cc:73-77 | no group name is a prefix of another (HISTOGRAM and HISTO1D differ at their sixth character) |
| ReaderFLAT.EnterBlock | src/ReaderFLAT.cc:99-106 | a BEGIN line of a known group opens the block and is itself parsed as content |
| ReaderFLAT.LeaveHistogram | src/ReaderFLAT.cc:107-153 | the END of an open histogram block builds the scatter and clears the records, or throws ReadError with the context already switched when no point was read |
| ReaderFLAT.LeaveCounter | src/ReaderFLAT.cc:154-165 | the END of a COUNTER block builds nothing and keeps the records, the counter's rows included |
| ReaderFLAT.LineInsideBlock | src/ReaderFLAT.cc:117-129 | inside a block every line but an END is content |
| ReaderFLAT.LineOutsideBlock | src/ReaderFLAT.cc:117-166 | outside any block, once the last object is out, an untagged line changes nothing |
| ReaderFLAT.RunLast | src/ReaderFLAT.cc:93 | a read is its last pass after the rest, unless the rest threw |
| ReaderFLAT.RunOne | src/ReaderFLAT.cc:93 | a one-line read is one pass |
| ReaderFLAT.RunInsideBlock | src/ReaderFLAT.cc:117-129 | a block body without END lines only applies the rows of its lines in order |
| ReaderFLAT.ContentLineAfter | src/ReaderFLAT.cc:117-129 | inside a block a last content line adds its action to the records |
| ReaderFLAT.ApplyRowsSnoc | include/YODA/ReaderFLAT.h:147-200 | the actions of all lines are those of all but the last, then the last |
| ReaderFLAT.ApplyRowsCons | include/YODA/ReaderFLAT.h:147-200 | the actions of a first line come before those of the rest |
| ReaderFLAT.OpenBlock | src/ReaderFLAT.cc:99-129 | a block up to its END line leaves it open with the actions of its lines, the BEGIN line's included |
| ReaderFLAT.HistogramBlock | src/ReaderFLAT.cc:93-153 | a whole histogram block yields exactly one object from its lines' records, or ReadError when no point was read |
| ReaderFLAT.CounterBlock | src/ReaderFLAT.cc:154-165 | a whole COUNTER block yields nothing and leaves its lines' actions in the records |
| ReaderFLAT.CounterRowsLeak | src/ReaderFLAT.cc:135-137 | after a COUNTER block with a "value error" row the next histogram block always reads as a Scatter1D, whatever it holds |
| ReaderFLAT.Asym2DLine | include/YODA/ReaderFLAT.h:184-191 | seven numbers are a Scatter3D point at the bin's centre with half-widths as x and y errors and asymmetric z errors |
| ReaderFLAT.Sym2DLine | include/YODA/ReaderFLAT.h:175-182 | six numbers are the same with one symmetric z error |
| ReaderFLAT.Asym1DLine | include/YODA/ReaderFLAT.h:167-172 | five numbers are a Scatter2D point at the bin's middle with half the width as x error |
| ReaderFLAT.Sym1DLine | include/YODA/ReaderFLAT.h:160-165 | four numbers are the same with one symmetric y error |
| ReaderFLAT.Asym0DLine | include/YODA/ReaderFLAT.h:154-157 | three numbers are a Scatter1D point and its two errors |
| ReaderFLAT.Sym0DLine | include/YODA/ReaderFLAT.h:149-152 | two numbers are a Scatter1D point with one symmetric error |
| ReaderFLAT.NoPointRow | include/YODA/ReaderFLAT.h:238-253 | a line whose first word is not a number is no point row |
| ReaderFLAT.AnnotationLine | include/YODA/ReaderFLAT.h:260-262 | a key=value line with a proper key is the annotation key: value |
| ReaderFLAT.CommentLine | include/YODA/ReaderFLAT.h:264-265 | a '#' line holding no '=' is a comment |
| ReaderFLAT.ApplyRowsCollects | include/YODA/ReaderFLAT.h:147-200 | points are pushed on their own vector in line order after those held, and annotation lines are set one after another |
| ReaderFLAT.ParseRowsAppend | src/ReaderFLAT.cc:124-125 | parsing two pieces of lines is parsing each |
| ReaderFLAT.ApplyRowsPushes | include/YODA/ReaderFLAT.h:151-157 | the 1D points are pushed back in line order |
| ReaderFLAT.EmitProperties | src/ReaderFLAT.cc:134-148 | the object is a Scatter1D when any 1D point was read, else a Scatter2D, else a Scatter3D; its points are those read, sorted; its annotations are the records' set over a fresh object of its type |
| ReaderFLAT.ApplyRowWellFormed | include/YODA/ReaderFLAT.h:197-200 | one row keeps the annotation map well formed |
| ReaderFLAT.StepWellFormed | src/ReaderFLAT.cc:93-167 | one pass keeps the records and any object it builds well formed |
| ReaderFLAT.RunWellFormed | src/ReaderFLAT.cc:93-167 | along a whole read the records and every object read stay well formed |
| ReaderFLAT.ReaderFLAT.StepLine | src/ReaderFLAT.cc:94-167 | one pass of the loop body on a line moves the context and records exactly as Step does, with Step's objects and outcome |
| WriterYODA.Comment | src/WriterYODA.cc:42 | a comment line starts "# " and then its first word; one whose first word opens with neither B nor E carries no group tag |
| WriterYODA.WriterYODA.constructor | src/WriterYODA.cc:16-23 | a fresh writer has written nothing |
| WriterYODA.WriterYODA.WriteAnnotations | src/WriterYODA.cc:26-33 | one name=value line per entry with a non-empty name, "Type" included, in map order |
| WriterYODA.WriterYODA.WriteRows | src/WriterYODA.cc:77-82 | the loop writes one row per bin or point, in order |
| WriterYODA.WriterYODA.WriteOpening | src/WriterYODA.cc:54-55 | the "BEGIN YODA_kind path" line, then the annotations |
| WriterYODA.WriterYODA.WriteClosing | src/WriterYODA.cc:83 | the "END YODA_kind" line and an empty line |
| WriterYODA.WriterYODA.WriteCounter | src/WriterYODA.cc:36-47 | the counter block: header, annotations, column comment, the sumW, sumW2 and numEntries row, footer |
| WriterYODA.WriterYODA.WriteHisto1D | src/WriterYODA.cc:50-86 | the Histo1D block; a LowStatsError of the mean drops the two summary lines and the write goes on; any other error ends the write after the annotations |
| WriterYODA.WriterYODA.WriteHisto1DBody | src/WriterYODA.cc:56-83 | after the annotations: the summary, the total, underflow and overflow rows, the bin rows in order, the footer |
| WriterYODA.WriterYODA.WriteHisto2D | src/WriterYODA.cc:89-140 | the Histo2D block, with the same LowStatsError treatment of the mean |
| WriterYODA.WriterYODA.WriteHisto2DBody | src/WriterYODA.cc:95-137 | after the annotations: summary, total row, the outflow comment, the bins, footer |
| WriterYODA.WriterYODA.WriteProfile1D | src/WriterYODA.cc:143-176 | the Profile1D block with its total, outflows and bins, and no summary |
| WriterYODA.WriterYODA.WriteProfile2D | src/WriterYODA.cc:179-226 | the Profile2D block with its total and bins |
| WriterYODA.WriterYODA.WriteScatter1D | src/WriterYODA.cc:229-243 | the Scatter1D block: one x, x-, x+ row per point |
| WriterYODA.WriterYODA.WriteScatter2D | src/WriterYODA.cc:246-263 | the Scatter2D block: one row of x and y with their errors per point |
| WriterYODA.WriterYODA.WriteScatter3D | src/WriterYODA.cc:266-284 | the Scatter3D block: one row of x, y and z with their errors per point |
| WriterYODA.Histo1DBinRead | src/WriterYODA.cc:77-82 | a written Histo1D bin row reads back as exactly that bin |
| WriterYODA.Histo1DOutflowsRead | src/WriterYODA.cc:64-75 | the written total, underflow and overflow rows read back as the three distributions |
| WriterYODA.Histo1DTotalRowRead | src/WriterYODA.cc:64-67 | the total row reads back as the total |
| WriterYODA.Histo1DUnderflowRowRead | src/WriterYODA.cc:68-71 | the underflow row reads back as the underflow |
| WriterYODA.Histo1DOverflowRowRead | src/WriterYODA.cc:72-75 | the overflow row reads back as the overflow |
| WriterYODA.TaggedWord | src/WriterYODA.cc:64-72 | the row tags are words that do not start a comment |
| WriterYODA.Profile1DBinRead | src/WriterYODA.cc:166-172 | a Profile1D bin row reads back as the bin without its cross term, which is not written |
| WriterYODA.Profile1DOutflowsRead | src/WriterYODA.cc:150-164 | the Profile1D total and outflow rows read back without the cross term |
| WriterYODA.Profile1DTotalRowRead | src/WriterYODA.cc:150-154 | the Profile1D total row reads back without the cross term |
| WriterYODA.Profile1DUnderflowRowRead | src/WriterYODA.cc:155-159 | the Profile1D underflow row reads back without the cross term |
| WriterYODA.Profile1DOverflowRowRead | src/WriterYODA.cc:160-164 | the Profile1D overflow row reads back without the cross term |
| WriterYODA.Histo2DBinRead | src/WriterYODA.cc:128-136 | a Histo2D bin row reads back as exactly that bin |
| WriterYODA.Histo2DTotalRead | src/WriterYODA.cc:104-110 | the Histo2D total row reads back as the total |
| WriterYODA.Profile2DBinRead | src/WriterYODA.cc:213-222 | a Profile2D bin row reads back without the two cross terms not written |
| WriterYODA.Profile2DTotalRead | src/WriterYODA.cc:186-194 | the Profile2D total row reads back without the two cross terms |
| WriterYODA.Point1DRead | src/WriterYODA.cc:236-238 | a Scatter1D point row reads back as the point |
| WriterYODA.Point2DRead | src/WriterYODA.cc:254-258 | a Scatter2D point row reads back as the point |
| WriterYODA.UntaggedJoin | src/WriterYODA.cc:50-86 | blocks of lines without group tags join into one |
| WriterYODA.OpeningUntagged | src/WriterYODA.cc:54-55 | the written BEGIN line and annotations carry no "# BEGIN " or "# END " tag |
| WriterYODA.ClosingUntagged | src/WriterYODA.cc:83 | the written END line carries no group tag |
| WriterYODA.NumberRowUntagged | src/WriterYODA.cc:78 | a row starting with a formatted number carries no tag |
| WriterYODA.TaggedRowUntagged | src/WriterYODA.cc:64-72 | total and outflow rows carry no tag |
| WriterYODA.RowsUntagged | src/WriterYODA.cc:77-82 | rows without tags stay without tags together |
| WriterYODA.TextsRowUntagged | src/WriterYODA.cc:236-238 | a row of formatted numbers carries no tag |
| WriterYODA.CountedRowUntagged | src/WriterYODA.cc:78-81 | a row of numbers and a count carries no tag |
| WriterYODA.SummaryUntagged | src/WriterYODA.cc:58 | a "# M..." summary line carries no tag |
| WriterYODA.Histo1DSummaryUntagged | src/WriterYODA.cc:56-62 | the Histo1D summary lines carry no tag |
| WriterYODA.Histo2DSummaryUntagged | src/WriterYODA.cc:95-101 | the Histo2D summary lines carry no tag |
| WriterYODA.Histo1DStatsUntagged | src/WriterYODA.cc:63-76 | the Histo1D statistics lines carry no tag |
| WriterYODA.Histo2DStatsUntagged | src/WriterYODA.cc:102-127 | the Histo2D statistics lines carry no tag |
| WriterYODA.Profile1DStatsUntagged | src/WriterYODA.cc:149-165 | the Profile1D statistics lines carry no tag |
| WriterYODA.Profile2DStatsUntagged | src/WriterYODA.cc:187-212 | the Profile2D statistics lines carry no tag |
| WriterYODA.Histo1DRowsUntagged | src/WriterYODA.cc:77-82 | Histo1D bin rows carry no tag |
| WriterYODA.Profile1DRowsUntagged | src/WriterYODA.cc:166-172 | Profile1D bin rows carry no tag |
| WriterYODA.Histo2DRowsUntagged | src/WriterYODA.cc:128-136 | Histo2D bin rows carry no tag |
| WriterYODA.Profile2DRowsUntagged | src/WriterYODA.cc:213-222 | Profile2D bin rows carry no tag |
| WriterYODA.PointRowsUntagged | src/WriterYODA.cc:236-278 | point rows of the three scatters carry no tag |
| WriterYODA.CounterBlockUntagged | src/WriterYODA.cc:36-47 | a whole counter block carries no group tag |
| WriterYODA.Histo1DBlockUntagged | src/WriterYODA.cc:50-86 | a whole Histo1D block carries no group tag |
| WriterYODA.Histo2DBlockUntagged | src/WriterYODA.cc:89-140 | a whole Histo2D block carries no group tag |
| WriterYODA.Profile1DBlockUntagged | src/WriterYODA.cc:143-176 | a whole Profile1D block carries no group tag |
| WriterYODA.Profile2DBlockUntagged | src/WriterYODA.cc:179-226 | a whole Profile2D block carries no group tag |
| WriterYODA.ScatterBlocksUntagged | src/WriterYODA.cc:229-284 | whole scatter blocks carry no group tag |
| WriterYODA.WrittenLinesUnread | src/ReaderYODA.cc:111 | lines without a "# BEGIN " or "# END " tag, as the writer produces, make a fresh read yield no object and leave the reader as it was |
| WriterYODA.Histo1DBlockUnread | src/WriterYODA.cc:54 | a written Histo1D block, opening with "BEGIN YODA_HISTO1D" instead of "# BEGIN YODA_HISTO1D", is not read back at all |
| WriterFLAT.WriterFLAT.constructor | src/WriterFLAT.cc:25-32 | a fresh writer has written nothing |
| WriterFLAT.WriterFLAT.WriteAnnotations | src/WriterFLAT.cc:35-43 | one name=value line per entry whose name is neither empty nor "Type", in map order |
| WriterFLAT.WriterFLAT.WriteRows | src/WriterFLAT.cc:116-119 | the loop writes one row per point, in order |
| WriterFLAT.WriterFLAT.WriteOpening | src/WriterFLAT.cc:113-114 | the "# BEGIN kind path" line, then the annotations without "Type" |
| WriterFLAT.WriterFLAT.WriteClosing | src/WriterFLAT.cc:121 | the "# END kind" line and an empty line |
| WriterFLAT.WriterFLAT.WriteCounter | src/WriterFLAT.cc:46-58 | the COUNTER block with one row of val() = sumW and err() = the square root of sumW2 |
| WriterFLAT.WriterFLAT.WriteScatter1D | src/WriterFLAT.cc:91-105 | a HISTOGRAM block with one x, x-, x+ row per point |
| WriterFLAT.WriterFLAT.WriteScatter2D | src/WriterFLAT.cc:108-125 | a HISTOGRAM block with the x interval, y and its errors per point |
| WriterFLAT.WriterFLAT.WriteScatter3D | src/WriterFLAT.cc:128-160 | a HISTOGRAM block with the x and y intervals, z and its errors per point |
| WriterFLAT.WriterFLAT.WriteHisto1D | src/WriterFLAT.cc:61-65 | the Scatter2D block of mkScatter(h), or an AnnotationError before anything is written when h has no Type |
| WriterFLAT.WriterFLAT.WriteProfile1D | src/WriterFLAT.cc:75-79 | the Scatter2D block of mkScatter(p), or an AnnotationError with nothing written |
| WriterFLAT.WriterFLAT.WriteHisto2D | src/WriterFLAT.cc:68-72 | the Scatter3D block of mkScatter(h), or nothing written and the error when the type or a bin's value throws |
| WriterFLAT.WriterFLAT.WriteProfile2D | src/WriterFLAT.cc:82-86 | the Scatter3D block of mkScatter(p), or nothing written and the error |
| WriterFLAT.ConvertedRetyped | src/WriterFLAT.cc:62-63 | the converted scatter with "Type" set again is the fresh scatter with the source's entries, Type replaced |
| WriterFLAT.KeptRetyped | src/WriterFLAT.cc:39 | setting "Type" leaves the entries the flat writer keeps unchanged |
| WriterFLAT.TypeNotWritten | src/WriterFLAT.cc:63 | the "Type" the flat writer sets changes neither the path nor any annotation line |
| WriterFLAT.Retyped2DBlock | src/WriterFLAT.cc:63-64 | a retyped Scatter2D writes the same block |
| WriterFLAT.Retyped3DBlock | src/WriterFLAT.cc:70-71 | a retyped Scatter3D writes the same block |
| WriterFLAT.HistogramShape | src/WriterFLAT.cc:113-121 | a written block is a reader BEGIN HISTOGRAM line with the path, the body, the END line and an empty line |
| WriterFLAT.FirstTokenHead | include/YODA/ReaderFLAT.h:238 | a line starting with no blank starts its first token |
| WriterFLAT.NoPointLine | include/YODA/ReaderFLAT.h:248-253 | a line starting with neither a blank nor a number is no point |
| WriterFLAT.NoPointsJoin | include/YODA/ReaderFLAT.h:147-192 | lines holding no point join into lines holding none |
| WriterFLAT.LineHoldsNoPoint | include/YODA/ReaderFLAT.h:248-253 | such a line parses to no point |
| WriterFLAT.AnnotationsHoldNoPoint | src/WriterFLAT.cc:35-43 | the written annotation lines hold no point |
| WriterFLAT.OpeningHoldsNoPoint | src/WriterFLAT.cc:113-115 | the BEGIN line, the annotations and the column comment hold no point |
| WriterFLAT.BodyUntagged | src/WriterFLAT.cc:114-119 | the body of a written block holds no group tag, so the reader takes it all as content |
| WriterFLAT.HistogramRead | src/ReaderFLAT.cc:93-153 | reading a written histogram block gives the object its lines' records make, or ReadError when they hold no point |
| WriterFLAT.Reread2DAll | include/YODA/ReaderFLAT.h:167-172 | every written Scatter2D point is reread, one for one |
| WriterFLAT.Reread2DMeaning | include/YODA/ReaderFLAT.h:167-172 | the reread x moves by half the difference of its errors, which both become their mean; y stays; a point comes back as itself exactly when its x errors are equal |
| WriterFLAT.Point2DRowRead | src/WriterFLAT.cc:117-118 | a written Scatter2D row is read back as five numbers: the reread point |
| WriterFLAT.Point2DRowUntagged | src/WriterFLAT.cc:117-118 | such a row carries no tag |
| WriterFLAT.Rows2DRead | src/WriterFLAT.cc:116-119 | the written Scatter2D rows give exactly the reread points and no 1D point |
| WriterFLAT.LeadThenRows | include/YODA/ReaderFLAT.h:147-192 | lines without points before the rows leave fresh records with exactly the rows' points |
| WriterFLAT.BlockRecords | src/WriterFLAT.cc:113-121 | the points a written block leaves in fresh records are those of its rows |
| WriterFLAT.Scatter2DReadBack | src/WriterFLAT.cc:108-125 | a written Scatter2D block read by a fresh reader is one Scatter2D of the reread points, sorted, or ReadError when it has no point |
| WriterFLAT.Reread2DSymmetric | include/YODA/ReaderFLAT.h:167-172 | points with symmetric x errors are reread as they are |
| WriterFLAT.Scatter2DRoundTrip | src/WriterFLAT.cc:108-125 | a Scatter2D with strictly ordered points and symmetric x errors is read back with the same points |
| WriterFLAT.Point1DRowRead | src/WriterFLAT.cc:99 | a written Scatter1D row reads back as the point |
| WriterFLAT.Rows1DRead | src/WriterFLAT.cc:98-100 | the written Scatter1D rows give exactly the points |
| WriterFLAT.Scatter1DReadBack | src/WriterFLAT.cc:91-105 | a written Scatter1D block reads back as one Scatter1D of the same points, sorted, or ReadError when empty |
| WriterFLAT.Scatter1DRoundTrip | src/WriterFLAT.cc:91-105 | a Scatter1D with strictly ordered points is read back with the same points |
| WriterFLAT.Reread3DAll | include/YODA/ReaderFLAT.h:184-191 | every written Scatter3D point is reread, one for one |
| WriterFLAT.Reread3DMeaning | include/YODA/ReaderFLAT.h:184-191 | x and y move by half the difference of their errors, which become their means; z stays; a point comes back as itself exactly when its x and y errors are symmetric |
| WriterFLAT.Point3DRowRead | src/WriterFLAT.cc:141-143 | a written Scatter3D row is read back as seven numbers: the reread point |
| WriterFLAT.Rows3DRead | src/WriterFLAT.cc:140-144 | the written Scatter3D rows give exactly the reread points and no 1D or 2D point |
| WriterFLAT.Scatter3DReadBack | src/WriterFLAT.cc:128-160 | a written Scatter3D block reads back as one Scatter3D of the reread points, sorted, or ReadError when empty |
| WriterFLAT.Reread3DSymmetric | include/YODA/ReaderFLAT.h:184-191 | points with symmetric x and y errors are reread as they are |
| WriterFLAT.Scatter3DRoundTrip | src/WriterFLAT.cc:128-160 | a Scatter3D with strictly ordered points and symmetric x and y errors is read back with the same points |
| WriterFLAT.CounterShape | src/WriterFLAT.cc:50-54 | a written counter block is a reader BEGIN COUNTER line, the body, the END line and an empty line |
| WriterFLAT.CounterRead | src/ReaderFLAT.cc:154-165 | reading a written counter block yields no object and keeps the records its lines leave |
| WriterFLAT.CounterRowRead | src/WriterFLAT.cc:53 | the counter row is read as a 1D point with a symmetric error |
| WriterFLAT.CounterRecords | src/WriterFLAT.cc:50-54 | a counter block leaves exactly its one point in fresh records |
| WriterFLAT.CounterReadBack | src/WriterFLAT.cc:46-58 | a written counter yields nothing, but its value and error stay in the records as a 1D point, deciding the kind of the next histogram block read |
| Formats.ToLower | src/Writer.cc:21 | the same length, no letter A-Z left, each upper-case letter moved to its lower-case one and every other character kept |
| Formats.LastDot | src/Writer.cc:20 | find_last_of("."): a position holding '.' with none after it, or npos exactly when the name has no '.' |
| Formats.FormatOf | src/Writer.cc:19-27 | "yoda", "aida", "dat" or "flat", compared after lower-casing the extension, select their format; anything else is a UserError |
| Formats.ExtensionSplit | src/Writer.cc:20-21 | the extension holds no '.'; without a dot it is the whole name, otherwise the name is the text before the last dot, the dot and the extension |
| Formats.LastDotAfter | src/Reader.cc:17 | the last dot of prefix.ext, when ext has none, is the one after the prefix |
| Formats.FormatOfSuffix | src/Reader.cc:16-24 | only the text after the last '.' decides the format, whatever comes before it |
| Formats.LowerCharDot | src/Reader.cc:18 | lower-casing neither makes nor removes a '.' |
| Formats.LastDotLower | src/Reader.cc:17-18 | lower-casing keeps the last dot where it is |
| Formats.ToLowerTwice | src/Reader.cc:18 | lower-casing twice is lower-casing once |
| Formats.FormatOfLower | src/Reader.cc:18-23 | the case of the name's letters never changes the format chosen |
| Formats.Plan | src/Writer.cc:54-80 | writing as a class happens only when type() names that class and the object is one; the plan skips exactly when the type dispatch skips, fails with type()'s error, the unknown-type Exception, or bad_cast when the cast fails |
| Formats.DispatchNames | src/Writer.cc:56-71 | each of the eight class names is dispatched to its own write, and only that name |
| Formats.DispatchOthers | src/Writer.cc:72-79 | a type starting with '_' is skipped, every other unknown type throws Exception, and a missing type throws AnnotationError |
| Formats.SoundViewOf | src/Writer.cc:54-55 | a sound object gives a sound view of its fields at the start of the write |
| Formats.WriteBodyFLAT | src/Writer.cc:54-80 | writeBody of the FLAT writer adds that class's block, or nothing when the plan fails or skips |
| Formats.WriteDirectFLAT | src/WriterFLAT.cc:46-160 | counters and scatters are written as they are |
| Formats.WriteConvertedFLAT | src/WriterFLAT.cc:61-86 | histograms and profiles are written as the scatter mkScatter makes of them |
| Formats.WriteBodyYODA | src/Writer.cc:54-80 | writeBody of the .yoda writer adds the block, or only the opening when a Histo1D's or Histo2D's mean fails with other than LowStatsError, or nothing when the plan fails or skips |
| Formats.WriteDirectYODA | src/WriterYODA.cc:36-284 | the classes whose .yoda write cannot fail are written whole |
| Formats.WriteProfileYODA | src/WriterYODA.cc:143-226 | profiles are written whole |
| Formats.WriteUnbinnedYODA | src/WriterYODA.cc:36-47 | counters and scatters are written whole |
| Formats.WriteCounterOrScatter1DYODA | src/WriterYODA.cc:229-243 | counters and Scatter1Ds are written whole |
| Formats.WriteScatter2DOr3DYODA | src/WriterYODA.cc:246-284 | Scatter2Ds and Scatter3Ds are written whole |
| Formats.WriteWithMeanYODA | src/WriterYODA.cc:50-140 | Histo1Ds and Histo2Ds are written with their summary, whose mean may end the write |
| Formats.WriteBodyOfFLAT | src/Writer.cc:49-52 | a null object is a WriteError and writes nothing; otherwise writeBody |
| Formats.WriteBodyOfYODA | src/Writer.cc:49-52 | a null object is a WriteError and writes nothing; otherwise writeBody |
| Formats.WriteFLAT | src/Writer.cc:30-34 | header, body and footer: the header and footer only flush, so the stream gains the body's lines |
| Formats.WriteYODA | src/Writer.cc:30-34 | header, body and footer for the .yoda writer |
| Formats.FlatFailWritesNothing | src/WriterFLAT.cc:61-86 | a failed FLAT write leaves the stream as it was, with the plan's error when the plan failed |
| Formats.FlatScatter2DReadBack | src/WriterFLAT.cc:108-125 | a Scatter2D written to an empty FLAT stream is read back by a fresh reader as one Scatter2D of its reread points, sorted |
| Formats.HistoLinesUntagged | src/WriterYODA.cc:50-140 | whatever a Histo1D or Histo2D write adds carries no reader group tag |
| Formats.OtherLinesUntagged | src/WriterYODA.cc:36-47 | whatever the other writes add carries no reader group tag |
| Formats.YodaWrittenUntagged | src/WriterYODA.cc:54 | every line the .yoda writer writes, failed or not, lacks the reader's "# BEGIN " and "# END " tags |
| Formats.YodaWriteUnread | src/ReaderYODA.cc:111 | so a .yoda stream from the writer reads back as nothing and leaves the reader as it was |
| NdArray.NdArray.Cleared | include/YODA/Utils/ndarray.h:27-29 | the default constructor clears every slot to T() |
| NdArray.NdArray.FromArray | include/YODA/Utils/ndarray.h:43-45 | a copy of an array of N values |
| NdArray.NdArray.FromVector | include/YODA/Utils/ndarray.h:32-39 | a RangeError unless the vector holds exactly N values, else those values in order |
| NdArray.NdArray.Clear | include/YODA/Utils/ndarray.h:66-68 | every slot set to T() |
| NdArray.NdArray.Get | include/YODA/Utils/ndarray.h:76-78 | the value of slot i |
| NdArray.NdArray.Set | include/YODA/Utils/ndarray.h:71-73 | slot i replaced, every other slot unchanged |
| Search.TrimEnd | pyext/yoda/search.py:29 | the text up to its last non-whitespace character: a prefix, with only whitespace dropped |
| Search.FirstComment | pyext/yoda/search.py:28 | the first '#' that starts a comment match, or None when no '#' does |
| Search.FloatOf | pyext/yoda/search.py:38 | float() of a text of digits, dots and colons succeeds exactly for digits with at most one dot and at least one digit |
| Search.IndexGroup | pyext/yoda/search.py:16 | group 2 is '#' and a non-empty run of digits, or '@' and a non-empty run of digits, dots and colons, read straight after the path |
| Search.PathLength | pyext/yoda/search.py:16 | group 1 is the longest leading run free of '#' and '@' |
| Search.PatternState | pyext/yoda/search.py:19-43 | an empty pattern leaves every attribute None; otherwise patt is set; the only raises are a regex that does not compile and float()'s ValueError; an index type is set only with a path and is '#' or '@' |
| Search.MatchesPath | pyext/yoda/search.py:45-46 | AttributeError exactly when there is no path regex |
| Search.SearchesPath | pyext/yoda/search.py:48-49 | AttributeError exactly when there is no path regex |
| Search.PointMatcher.constructor | pyext/yoda/search.py:15-17 | the attributes set_patt gives the pattern |
| Search.PointMatcher.SetPatt | pyext/yoda/search.py:19-43 | the attributes and the raise are those set_patt leaves for the pattern, whatever was there before |
| Search.PointMatcher.MatchPath | pyext/yoda/search.py:45-46 | match_path on the current attributes |
| Search.PointMatcher.SearchPath | pyext/yoda/search.py:48-49 | search_path on the current attributes |
| Search.PointMatcher.MatchPos | pyext/yoda/search.py:51-76 | match_pos on the current attributes |
| Search.MatchThenSearch | pyext/yoda/search.py:45-49 | a path matched at the start is also found by the search |
| Search.NoIndexAcceptsAll | pyext/yoda/search.py:64-65 | without an index type every bin is accepted |
| Search.TrimEndSpaces | pyext/yoda/search.py:29 | trailing whitespace does not change the right-trimmed text |
| Search.StripSpaces | pyext/yoda/search.py:29 | trailing whitespace does not change the stripped text |
| Search.StripCommentsCut | pyext/yoda/search.py:28 | on one line, the substitution cuts the text at the whitespace run before the first comment '#' |
| Search.OneLineComment | pyext/yoda/search.py:28-29 | on one line, without a comment '#' the text is kept, and with one the stripped result is the stripped text before that '#' |
| Search.OneLineCommentCut | pyext/yoda/search.py:28-29 | the stripped result is the stripped text before the first comment '#' |
| Search.NoCommentIn | pyext/yoda/search.py:28 | a text whose every '#' follows a non-space character has no comment to strip |
| Search.FirstCommentAfterSpace | pyext/yoda/search.py:28 | in a pattern followed by " #" and a comment, the first comment '#' is the one after the space |
| Search.TrailingComment | pyext/yoda/search.py:28-29 | a " #" comment after a pattern is removed with the space before it |
| Search.StripPlain | pyext/yoda/search.py:29 | a text without leading or trailing whitespace strips to itself |
| Search.PathLengthOf | pyext/yoda/search.py:16 | group 1 of a path free of '#' and '@' followed by '#' or '@' is exactly that path |
| Search.DigitsIndex | pyext/yoda/search.py:16-38 | "#" and digits form group 2, and the index is the float of the digits |
| Search.PosIndexGroup | pyext/yoda/search.py:16-35 | "@" and digits, dots and colons form group 2 |
| Search.CleanPattern | pyext/yoda/search.py:28-43 | a pattern whose cleaned text is a path and group 2 gets that patt, that path, that index type, and the index or the ValueError of its text |
| Search.HashText | pyext/yoda/search.py:28-29 | "path#n" holds no comment '#', no line break and nothing to strip |
| Search.HashPattern | pyext/yoda/search.py:19-43 | "path#n", with or without a trailing " #" comment, sets patt "path#n", the path, type '#' and index n, and does not raise |
| Search.SpacedHashIsComment | pyext/yoda/search.py:28-33 | "path #..." is all comment after the path: no index type and no index |
| Search.AtPattern | pyext/yoda/search.py:35-43 | "path@t" sets type '@' and the index of t, or raises ValueError after setting the type |
| Search.RangeIndex | pyext/yoda/search.py:37-43 | a range splits at its first ':', an empty side is -inf or inf, a failed side or a second ':' is ValueError |
| Search.ValueErrorThenTypeError | pyext/yoda/search.py:38-75 | after set_patt raised ValueError, match_pos fails with TypeError |
| Search.FloatOfDigits | pyext/yoda/search.py:38 | float() of a decimal numeral is its value |
| Search.RangeOverlaps | pyext/yoda/search.py:74-75 | an '@' range accepts a non-empty bin exactly when the bin [xMin, xMax) shares a point with [lo, hi] |
| Search.SingleValueOneBin | pyext/yoda/search.py:72-73 | on increasing edges a single '@' value selects some bin exactly when it is inside the axis range, and never two bins |
| Search.BinContaining | pyext/yoda/search.py:72-73 | a value inside the axis range lies in some bin [edges[i], edges[i+1]) |
| Plotting.AfterLiteral | pyext/yoda/plotting.py:149 | the rest of the text exactly when it starts with the literal |
| Plotting.BeginName | pyext/yoda/plotting.py:149-161 | re_begin's group 1, made of word characters only, and possibly empty |
| Plotting.AttrOf | pyext/yoda/plotting.py:151-170 | re_attr's key is a non-empty run of word characters |
| Plotting.Store | pyext/yoda/plotting.py:170 | setdefault(name, {})[key] = value: name gains an entry, key is set in it, and every other entry is kept |
| Plotting.RunSnoc | pyext/yoda/plotting.py:157-170 | the loop over lines and one more is one more pass of its body |
| Plotting.RunAppend | pyext/yoda/plotting.py:157-170 | the loop over two runs of lines is the loop over the second from where the first ended |
| Plotting.ReadPlotKeys | pyext/yoda/plotting.py:147-171 | the dict read_plot_keys returns is the one the loop over the lines builds from an empty dict outside any block |
| Plotting.CommentAddsNoKey | pyext/yoda/plotting.py:158-166 | a line that strips to a '#' line sets no key |
| Plotting.OutsideBlockIgnored | pyext/yoda/plotting.py:159-169 | outside a block only a BEGIN line changes anything |
| Plotting.KeyStored | pyext/yoda/plotting.py:167-170 | inside a block a key line stores its value under the block's name, replaces that key's earlier value, and keeps every other key and block |
| Plotting.EndWithoutName | pyext/yoda/plotting.py:152-166 | "# END PLOT" with no name does not close the block: re_end wants whitespace after PLOT, so the line is a comment |
| Plotting.StoredFromLines | pyext/yoda/plotting.py:157-170 | every value in the result was in the starting dict or came from some line's key=value |
| Plotting.StepSource | pyext/yoda/plotting.py:170 | after one line a stored value was there before or is that line's value |
| Plotting.KeyLines | pyext/yoda/plotting.py:151 | one key=value line per pair, in order |
| Plotting.LiteralThen | pyext/yoda/plotting.py:149 | the literal is found at the start of literal + rest |
| Plotting.MarkerLineRead | pyext/yoda/plotting.py:149-152 | "# WORD PLOT" followed by a tail matches `#*\s*WORD\s+PLOT` with that tail left over |
| Plotting.MarkerLineOther | pyext/yoda/plotting.py:149-152 | a BEGIN line does not match the END pattern's word, and the other way round |
| Plotting.KeyLineNotPlotMarker | pyext/yoda/plotting.py:149-152 | a line that starts with a word and '=' matches neither re_begin nor re_end |
| Plotting.KeyLineRead | pyext/yoda/plotting.py:151-168 | a key line with a word key and a clean value strips to itself, is no marker or comment, and reads as its key and value |
| Plotting.ValueRead | pyext/yoda/plotting.py:151 | after '=' the value is read whole, up to the end of the line |
| Plotting.KeyLineStep | pyext/yoda/plotting.py:167-170 | inside a block a key line stores its pair under the block's name |
| Plotting.KeyLinesRead | pyext/yoda/plotting.py:157-170 | key lines inside a block add their pairs, later keys winning, to that block's dict, and create it only when there is a pair |
| Plotting.BeginLineRead | pyext/yoda/plotting.py:149-161 | "# BEGIN PLOT name" strips to itself and opens the block called name |
| Plotting.EndLineRead | pyext/yoda/plotting.py:152-164 | "# END PLOT name" strips to itself and closes the block |
| Plotting.BlockRead | pyext/yoda/plotting.py:147-171 | a .plot block written with a word for its name reads back as its pairs as a dict under that name, with no entry when there are no pairs, and no block open afterwards |
| Plotting.FromPoints2D | pyext/yoda/plotting.py:19-37 | a 2D NumpyHist with one entry in each column per point |
| Plotting.FromPoints3D | pyext/yoda/plotting.py:19-41 | a 3D NumpyHist with one entry in each column per point, z columns included |
| Plotting.RangesOfPoints2D | pyext/yoda/plotting.py:31-75 | xmin, xmax, ymin and ymax of the NumpyHist are the points' own ranges, point by point |
| Plotting.RangesOfPoints3D | pyext/yoda/plotting.py:31-75 | the same for Scatter3D points |
| Plotting.XEdgesSgl | pyext/yoda/plotting.py:48-50 | IndexError exactly when there are no points; otherwise one edge more than there are points |
| Plotting.Interleave | pyext/yoda/plotting.py:55-56 | twice as many values as each input |
| Plotting.XEdgesDbl | pyext/yoda/plotting.py:52-57 | a new array of 2n slots, xmin at each even slot and xmax at each odd slot |
| Plotting.DblIsInterleave | pyext/yoda/plotting.py:55-56 | filling the even slots with xmin and the odd ones with xmax gives their interleaving |
| Plotting.SglFromDbl | pyext/yoda/plotting.py:48-57 | for touching bins, bin i runs from single edge i to single edge i + 1, which are its two double edges |
| Plotting.ScanLine | pyext/yoda/plotting.py:158-170 | one pass of the loop body updates inplot, name and plotkeys exactly as Step does, keeping inplot equal to whether a name is set |

## Left out

- Square roots, `exp`, `log` and `pow` are floating-point numerics. The model
  leaves them out or takes them as parameters:
  - `err`, the `relErr` value, `heightErr`, `stdErr`/`stdDev` and the
    efficiency errors;
  - `add_quad`, `correlation`, `logspace` and `approx`.

  The distribution summaries `xMean`, `height`, `mean`, `volume` and their
  errors are parameters of the conversions and writers.
- `toIntegralEfficiencyHisto` uses those error formulas and is left out.
- ROOT conversions are calls into a foreign library.
- The matplotlib and multiprocessing code in plotting.py is user interface
  and concurrency. This covers `setup_mpl`, `mk_figaxes_1d`, the `plot_*`
  functions and `mplot`.
- `NumpyHist.same_binning_as` has an operator-precedence slip, so it is not
  binning equality. It is left out.
- File and stream I/O is left out: opening and closing files (IO.h, the
  Reader and Writer headers, `Writer::write(filename, …)`), and the reader
  test program.
  - Readers take the file as a sequence of lines, split by `safe_getline`
    from a character sequence.
  - Writers append lines to a sequence.
  - `writeHeader`/`writeFooter` only flush, so they add nothing.
- Numeric text is abstract. A formatter `fmt: real -> string` and a lexer
  `lex: string -> Option<real>` are parameters, standing for `scientific`,
  `setprecision` and `boost::lexical_cast`.
  - Round-trip lemmas assume the lexer reads back what the formatter writes.
  - Unsigned count columns are concrete decimal digits of a value below
    2^64.
- Boost Spirit mechanics (the dynamic `qi::symbols`, `phrase_parse` prefix
  matching) are left out. The grammars are a first-match classifier over
  tokenised lines.
- A `.yoda` write-then-read round trip does not hold: the block header lines
  disagree. `WriterYODA.WrittenLinesUnread` and `Formats.YodaWriteUnread`
  state what happens instead.
- The headers of Bin, BinSearcher, the Dbn classes, HistoBin1D, Histo2D,
  the Profiles, Scatter2D, Scatter3D and the exceptions are not part of this
  model. Their behaviour is kept abstract:
  - a bin is an interval `xMin < xMax` with a distribution;
  - merging two bins adds their distributions and takes the absorbed bin's
    upper edge;
  - a distribution is a record of sums with field-wise `+` and `-`;
  - the searcher's slot for x is the number of edges at or below x.
- The Python scatter test script and Point1D.cc/Point3D.cc use an API (error
  sources, `getVariationsFromParent`) absent from the headers modelled. They
  are not part of this model.
- The debug printing in `_gapInRange` is a side effect only.
- `std::sort` is modelled by a stable insertion sort, because the order of
  fuzzy-equal points after the sort is unspecified. "Sorted" means that no
  adjacent pair is inverted (`std::is_sorted`), because the fuzzy `<` is not
  a strict weak order.
- The readers' group tables and records are static in the source and persist
  between reads. The model keeps them as fields of the reader, and each read
  continues from `Start(ends, records)` built from those fields.
  - The source pushes the objects onto the caller's vector `aos`. The model
    returns the objects one read pushes, which the caller appends.
- ReaderYODA.Emit: a Histo2D or Profile2D block keeps its bins in line order
  and never throws, because the two-dimensional axis is not part of this
  model.
  - The Histo1D and Profile1D constructors are taken to pass their bins to
    the Axis1D constructor.
  - A bin whose lower edge is not below its upper edge is accepted, because
    the Bin1D edge check is not part of this model.
- ReaderYODA.EmittedContents: a Histo2D or Profile2D holds its bins in line
  order, for the same reason.
- ReaderYODA.ReaderYODA.ReadDoc: a Histo2D or Profile2D block never throws,
  as for Emit.
- ReaderYODA.ReaderYODA.Read: a Histo2D or Profile2D block never throws, as
  for Emit.
- ReaderYODA.LeaveBlock: a Histo2D or Profile2D block never throws, as for
  Emit.
- ReaderYODA.BlockYieldsOneObject: a Histo2D or Profile2D block never throws,
  as for Emit.
- ReaderYODA.BlockOfLines: a Histo2D or Profile2D block never throws, as for
  Emit.
- ReaderYODA.StepAtEnd: a Histo2D or Profile2D block never throws, as for
  Emit.
- Counter.RelErrOf: a zero sumW with a non-zero sumW2 gives 0. The source
  divides by zero there and gets an infinite value, which exact reals cannot
  hold.
- CounterRatio.Divide: with a numerator sumW of 0 and a non-zero sumW2, the
  source's error is 0 times infinity, a NaN. The model gives 0, following
  Counter.RelErrOf.
- Counter.Counter.DivAssign requires `s != 0`. Dividing by zero gives
  infinite weights in the source, and exact reals cannot hold them.
- The `.yoda` reader's eight-entry 2D outflow vectors are left out. `cleanup`
  only resizes them, and no row fills them.
- The `.yoda` reader has no Scatter3D or Counter rows in its content grammar,
  so in the model those blocks collect only annotations. The source builds
  nothing from them either.
- The messages a failed parse prints to `cerr` are left out. The line is
  skipped, as in the source.
- The comment lines the writers emit are fixed strings with an untagged first
  word. Their exact text is not modelled.
- Annotations in the FLAT format are a one-way path. The writer writes them
  and the reader reads `key=value` lines. The round-trip lemmas cover points
  only, because the value text comes from an abstract formatter.
- `usefocus` and `usestddev` are parameters of the conversions. The FLAT
  writer passes their default, `false`, as the source does.
- `toLower` comes from a header that is not part of this model. It is
  modelled as ASCII-only: A-Z to a-z.
- The AIDA reader and writer are not part of this model. `mkWriter` and
  `mkReader` choose the AIDA format without building anything.
- Python's regular expressions are abstract. `compiles` and a matcher
  (pattern, text, position) are parameters. `\s`, `\d` and `\w` are ASCII-only, following
  Python 2 byte strings.
- `float()` is modelled as an exact decimal reader. `int(float(digits))`
  therefore loses no precision, which Python's doubles would.
- Search.PointMatcher.constructor: when `set_patt` raises, Python has no
  object, but the model keeps the attributes assigned before the raise.
- NumpyHist stores its columns as 4-byte floats ("f4"). The model keeps
  exact reals and does not round.
- `read_plot_keys` takes the file as its sequence of lines.
- NdArray.NdArray.Get: `operator[]` is unchecked, so the model requires
  `i < N`. Likewise for NdArray.NdArray.Set.
- Axis1D.Axis1D.ScaleX requires `s > 0`. The source leaves negative factors
  as a to-do, and they would reverse the bin order.
- Axis1D.Axis1D.MergeBins requires a synced axis, meaning bins sorted with
  the table their layout, as after every rebuild. On an unsynced vector the
  merged bin may not be a valid interval.
- Axis1D.Axis1D.Rebin requires a synced axis too, for the same reason.

## Findings

| source | as written | input that shows it | evidently intended | confidence | as-written member | corrected member |
|---|---|---|---|---|---|---|
| include/YODA/Axis1D.h:38-40 | the default constructor leaves the slot table `_indexes` empty, yet `binIndexAt` (lines 126-129) reads `_indexes[slot]` | any x on `Axis1D()`: slot 0 of an empty vector is read | a table with its single outflow slot `[-1]`, so `binIndexAt` gives -1 (no bin) | not executed | Axis1D.DefaultLookupOutOfRange, Axis1D.RawBinIndexAt | Axis1D.CorrectedDefaultLookup, Axis1D.Axis1D.constructor |
