# Hirschberg alignment, modelled in Dafny

`numpy_hirschberg` aligns two sequences with Hirschberg's divide-and-conquer
algorithm. It rests on the Needleman–Wunsch score recurrence and needs only
linear memory. This project models its three functions and the two integer
cost functions its tests use:

- `score_matrix` sweeps two row buffers and returns only the last row of the
  score matrix. `Hirschberg.ScoreMatrix` is a method that is
  proved against the recurrence `Hirschberg.Score`. Its inner loop
  (`Hirschberg.SweepInsertions`) writes an `array` in place, left to right.
- `linear_search` places one item at the first position of minimum cost
  in a line of gaps. `Hirschberg.LinearSearch` allocates the line, writes
  one slot, and is proved equal to the pure `Hirschberg.Placement`.
- `align` is the recursive driver (`Hirschberg.Align`). It has the base
  cases in the source's order. The general case splits the source at
  `n / 2`, sweeps the top half forwards and the bottom half backwards,
  splits the target at the first arg-max of `upper + reversed(lower)`,
  and concatenates the two halves' alignments.
- `match_distance` and `symbol_distance` from `tests/distance.py` are
  `Distance.Match` and `Distance.Symbol`.

Modelling choices:

- Items are a type parameter `T`.
- A padded slot is `Option<T>`: `None` is the gap.
- A cost function is a pairwise `(T, T) -> int`. The vector that
  `cost_function(item, vector)` returns is `Vectors.Costs`, which applies
  the pair cost at each position. This is the only way the code ever
  reads a cost function.
- Integers are unbounded.
- The NumPy primitives (`add.accumulate`, `full`, `flipud`, `argmax`,
  `argmin`, `fmax`) are functions on sequences in module `Vectors`.

Proved properties:

- Every alignment has padded lines of one length.
- No slot of an alignment is a gap on both sides.
- Removing the gaps from an alignment gives back the inputs.
- The base cases and the general case return what the code returns.
- The split index is the lowest maximiser of the forward score plus the
  backward score.
- For a symmetric cost, the score is the sum of the scores of the slots.
- The sweep returns the last row of the Needleman–Wunsch matrix.
- The expected values of the repository's tests hold, restated as lemmas
  in module `Examples`.

## Model

| member | source | states |
|---|---|---|
| Hirschberg.ScoreMatrix | numpy_hirschberg/align.py:120-172 | An empty source gives the running totals `ic, 2·ic, …, m·ic` of the insertion cost, with no leading 0. An otherwise empty target gives `dc, …, n·dc`. Otherwise the result has `m + 1` entries and is row `n` of the Needleman–Wunsch matrix `Score`, starting with `n·dc`. |
| Hirschberg.SweepInsertions | numpy_hirschberg/align.py:166-170 | After the inner loop, each cell of the in-place buffer is the larger of its diagonal-or-deletion value and `ic` plus the cell before it. Before column 0, that cell is the deletion column. |
| Hirschberg.DiagonalOfScoreRow | numpy_hirschberg/align.py:162-164 | The vectorised step on row `i` of the matrix: at column `j`, the larger of `Score(i, j) - cost(source[i], target[j])` and `Score(i, j + 1) + dc`. |
| Hirschberg.InsertionCellIsScore | numpy_hirschberg/align.py:166-170 | Cell `k` of the insertion sweep over those values is `Score(i + 1, k + 1)`. |
| Hirschberg.NextScoreRow | numpy_hirschberg/align.py:161-171 | One outer pass turns row `i` of the matrix into row `i + 1`: the deletion-column entry `(i + 1)·dc` followed by the swept buffer. |
| Hirschberg.LastRowDegenerate | numpy_hirschberg/align.py:145-149 | The degenerate rows in closed form: `(j + 1)·ic` for an empty source, `(i + 1)·dc` for an otherwise empty target. |
| Hirschberg.LastRow | numpy_hirschberg/align.py:143-172 | The returned row has length `m` for an empty source, `n` for an empty target, and `m + 1` otherwise. |
| Hirschberg.PlacementAtFirstMinimum | numpy_hirschberg/align.py:187-191 | The line has the target's length. A first minimum of the costs exists. The line holds the subject exactly at that first minimum and a gap everywhere else. The cost returned is the minimum cost, not negated. |
| Hirschberg.LinearSearch | numpy_hirschberg/align.py:175-191 | The method allocates the gap line and writes one slot. Its result equals `Placement`: the subject at the first minimum-cost position, gaps elsewhere, and that cost. Requires a non-empty target, as `argmin` does. |
| Hirschberg.SplitIndex | numpy_hirschberg/align.py:84-96 | The target split lies in `0..m`. |
| Hirschberg.Align | numpy_hirschberg/align.py:28-117 | For every input, the padded source and target have equal length. No slot is a gap on both sides. Stripping the gaps gives back `source` and `target`. |
| Hirschberg.AlignedConcat | numpy_hirschberg/align.py:113-116 | Concatenating alignments of consecutive pieces aligns the concatenated pieces. |
| Hirschberg.AlignEmptyCases | numpy_hirschberg/align.py:59-74 | An empty target gives `(source, n gaps, n·dc)`. An empty source gives `(m gaps, target, m·ic)`. Both empty gives `([], [], 0)`. |
| Hirschberg.AlignSingleTarget | numpy_hirschberg/align.py:76-78 | With a one-item target, which includes `n = m = 1`: the source is unchanged, and the target item sits at the first position minimising `cost(target[0], source[j])` with gaps elsewhere. The score is `dc·(n - 1)` minus that cost. |
| Hirschberg.AlignSingleSource | numpy_hirschberg/align.py:80-82 | With a one-item source and a longer target: symmetric to the case above, with the score `ic·(m - 1)` minus the cost. |
| Hirschberg.AlignSplit | numpy_hirschberg/align.py:84-117 | For `n, m ≥ 2`: `1 ≤ n/2 ≤ n - 1`, both sweeps return `m + 1` entries, and the split index is the lowest `k ≤ m` maximising forward score plus backward score. The result is the halves' alignments end to end, with score `left + right`. |
| Hirschberg.SplitIndexMaximises | numpy_hirschberg/align.py:84-96 | The split index is the first maximum over `k` of `Score` of the top half to column `k` plus `Score` of the reversed bottom half to column `m - k`. |
| Hirschberg.AlignGeneralCase | numpy_hirschberg/align.py:98-117 | For `n, m ≥ 2`, the result is the concatenation of the two recursive alignments, with their scores added. |
| Hirschberg.TotalScoreConcat | numpy_hirschberg/align.py:113-116 | The slot score of two lines joined end to end is the sum of the slot scores of the parts. |
| Hirschberg.TotalScoreDeleted | numpy_hirschberg/align.py:62-67 | A source against gaps has slot score `n·dc`, which is the score the empty-target case returns. |
| Hirschberg.TotalScoreInserted | numpy_hirschberg/align.py:69-74 | Gaps against a target have slot score `m·ic`, which is the score the empty-source case returns. |
| Hirschberg.TotalScoreOneInTarget | numpy_hirschberg/align.py:76-78 | A source against one item at `k` has slot score `dc·(n - 1) - cost(source[k], x)`. |
| Hirschberg.TotalScoreOneInSource | numpy_hirschberg/align.py:80-82 | One item at `k` against a target has slot score `ic·(m - 1) - cost(x, target[k])`. |
| Hirschberg.AlignScoreIsSlotSum | numpy_hirschberg/align.py:57-117 | For a symmetric cost, the returned score is the sum over slots: `dc` per source-only slot, `ic` per target-only slot, and `-cost(s, t)` per matched slot. |
| Vectors.ArgMax | numpy_hirschberg/align.py:96 | The index is in range, holds a largest value, and every earlier value is strictly smaller. |
| Vectors.ArgMin | numpy_hirschberg/align.py:189 | The index is in range, holds a smallest value, and every earlier value is strictly larger. |
| Vectors.ArgMaxIsTheFirstMaximum | numpy_hirschberg/align.py:96 | `k` is the first position of the maximum if and only if `k` is the `argmax` index. |
| Vectors.ArgMinIsTheFirstMinimum | numpy_hirschberg/align.py:189 | `k` is the first position of the minimum if and only if `k` is the `argmin` index. |
| Vectors.AccumulateFull | numpy_hirschberg/align.py:146-149 | The running totals of `n` copies of `c` are `c, 2c, …, n·c`. |
| Vectors.AccumulateFromZero | numpy_hirschberg/align.py:151-156 | The running totals of `0` followed by `n` copies of `c` are `0, c, …, n·c`: the deletion column and the insertion row. |
| Vectors.StripPlaced | numpy_hirschberg/align.py:187-190 | A gap line with one item written in gives back just that item once its gaps are stripped. |
| Distance.Match | tests/distance.py:46 | The result is `-2` exactly when the items are equal, and `1` exactly when they differ. |
| Distance.MatchSymmetric | tests/distance.py:46 | `match_distance` is symmetric. |
| Distance.Symbol | tests/distance.py:31 | The absolute difference of character codes is non-negative, and zero exactly when the characters are equal. |
| Distance.SymbolSymmetric | tests/distance.py:31 | `symbol_distance` is symmetric. |
| Examples.MatchDistanceExamples | tests/test_match_distance.py:14-21 | The expected vectors of the scalar-subject rows of the `match_distance` test are `-2` or `1`, position by position and case-sensitive. |
| Examples.SymbolDistanceExamples | tests/test_symbol_distance.py:14-18 | The expected code differences of the `symbol_distance` test, such as `[32, 33, 34]` for `'A'` against `"abc"`. |
| Examples.PlacementAt | numpy_hirschberg/align.py:187-191 | Once `k` is the first minimum of the costs, the placement is the gap line with the subject at `k`, and that cost. |
| Examples.LinearSearch_A_ABC | tests/test_linear_search.py:17 | `linear_search('A', "ABC")` gives `(['A', None, None], 0)`. |
| Examples.LinearSearch_B_ABC | tests/test_linear_search.py:18 | `linear_search('B', "ABC")` gives `([None, 'B', None], 0)`. |
| Examples.LinearSearch_D_ABC | tests/test_linear_search.py:19 | `linear_search('D', "ABC")` gives `([None, None, 'D'], 1)`. |
| Examples.LinearSearch_F_ABC | tests/test_linear_search.py:20 | `linear_search('F', "ABC")` gives `([None, None, 'F'], 3)`. |
| Examples.LinearSearch_C_T | tests/test_linear_search.py:21 | `linear_search('C', "T")` gives `(['C'], 17)`. |
| Examples.LinearSearch_T_C | tests/test_linear_search.py:22 | `linear_search('T', "C")` gives `(['T'], 17)`. |
| Examples.AlignAtSingleTarget | numpy_hirschberg/align.py:76-78 | With a one-item target whose first cheapest source position is `k`, the alignment is the source against the item at `k`. |
| Examples.AlignAtSingleSource | numpy_hirschberg/align.py:80-82 | With a one-item source and a longer target whose first cheapest position is `k`, the alignment is the item at `k` against the target. |
| Examples.SplitAt | numpy_hirschberg/align.py:84-96 | Once both sweeps are known, the split index is the first maximum of their combination. |
| Examples.AlignJoin | numpy_hirschberg/align.py:98-117 | Once the split and the halves' alignments are known, the alignment is their concatenation. |
| Examples.ScoreMatrixDegenerateExamples | tests/test_score_matrix.py:14-63 | `score_matrix` returns `[]` for two empty inputs. With the default costs it returns `[10, 20]` and `[100, 200]`, and with costs `-2` it returns `[-2, -4]`. |
| Examples.AlignEmptyExample | tests/test_align.py:14-28 | Two empty inputs give `([], [], 0)`. |
| Examples.AlignDeletionExample | tests/test_align.py:31-47 | `"ABC"` against nothing gives `("ABC", [None, None, None], -6)`. |
| Examples.AlignInsertionExample | tests/test_align.py:50-66 | Nothing against `"AB"` gives `([None, None], "AB", -4)`. |
| Examples.AlignSingleTargetExample | tests/test_align.py:69-85 | `"AB"` against `"A"` gives `("AB", ['A', None], -2)`. |
| Examples.AlignSingleSourceExample | tests/test_align.py:88-104 | `"B"` against `"AB"` gives `([None, 'B'], "AB", -2)`. |
| Examples.AlignIsNotAlwaysOptimal | numpy_hirschberg/align.py:76-78 | The score is not always the optimum that line 41 promises. With a mismatch cost of 10 and `dc = ic = -2`, `"A"` against `"T"` scores `-10`, while the recurrence gives `-4`. |
| Examples.Align_CG_TG | tests/test_align.py:110 | `"CG"` against `"TG"` gives `("CG", "TG", 1)`. |
| Examples.Align_C_CA | tests/test_align.py:111 | `"C"` against `"CA"` gives `(['C', None], "CA", 0)`. |
| Examples.Align_CA_C | tests/test_align.py:112 | `"CA"` against `"C"` gives `("CA", ['C', None], 0)`. |
| Examples.Align_CGCA_TGC | tests/test_align.py:113 | `"CGCA"` against `"TGC"` gives `("CGCA", ['T', 'G', 'C', None], 1)`. |
| Examples.Align_TA_TA | tests/test_align.py:114 | `"TA"` against `"TA"` gives `("TA", "TA", 4)`. |
| Examples.Align_AG_Empty | tests/test_align.py:115 | `"AG"` against nothing gives `("AG", [None, None], -4)`. |
| Examples.Align_AGTA_TA | tests/test_align.py:116 | `"AGTA"` against `"TA"` gives `("AGTA", [None, None, 'T', 'A'], 0)`. |
| Examples.Align_AGTACGCA_TATGC | tests/test_align.py:117-121 | `"AGTACGCA"` against `"TATGC"` gives `("AGTACGCA", [None, None, 'T', 'A', 'T', 'G', 'C', None], 1)`. |
| Examples.Align_GAAAAAAT_GAAT | tests/test_align.py:122-126 | `"GAAAAAAT"` against `"GAAT"` gives `("GAAAAAAT", ['G', None, None, None, 'A', None, 'A', 'T'], 0)`. |
| Examples.AlignSameItem | numpy_hirschberg/align.py:76-78 | One item against the same item is one matched slot, scoring `2` under `match_distance` with both gap costs `-2`. |
| Examples.Row_A_A | tests/test_score_matrix.py:64 | `score_matrix("A", "A")` is `[-2, 2]`. |
| Examples.Row_A_T | tests/test_score_matrix.py:65 | `score_matrix("A", "T")` is `[-2, -1]`. |
| Examples.Row_A_TA | tests/test_score_matrix.py:66 | `score_matrix("A", "TA")` is `[-2, -1, 0]`. |
| Examples.Row_AG_T | tests/test_score_matrix.py:67 | `score_matrix("AG", "T")` is `[-4, -3]`. |
| Examples.Row_AGTA_TATGC | tests/test_score_matrix.py:68 | `score_matrix("AGTA", "TATGC")` is `[-8, -4, 0, -2, -1, -3]`. |
| Examples.Row_ACGC_CGTAT | tests/test_score_matrix.py:69 | `score_matrix("ACGC", "CGTAT")` is `[-8, -4, 0, 1, -1, -3]`. |

## Left out

- Global optimality of `align`, which the docstring at numpy_hirschberg/align.py:41 promises, is not claimed. It does not hold for the code: the one-item-target case always matches the item and never considers deleting and inserting instead. `Examples.AlignIsNotAlwaysOptimal` shows a concrete input where this happens.
- `geo_distance` (tests/distance.py:49-68) and its test are not modelled, because they are floating-point trigonometry.
- The `int32` dtype of the `row2` buffer (numpy_hirschberg/align.py:159) would truncate large scores. The model uses unbounded integers.
- The float cast in `linear_search` (numpy_hirschberg/align.py:188) is not modelled, because costs are integers. The NaN semantics of `fmax` (numpy_hirschberg/align.py:164) are not modelled for the same reason.
- `int(source_length / 2)` goes through float division. It is modelled as integer division, which agrees for every length below 2^53. Above that, the float quotient can round (for `n = 2^53 + 3`, `int(n / 2)` is not `n // 2`).
- The `None` gap sentinel is ambiguous when an item is itself `None`. The model uses `Option<T>`, which makes a gap and an item distinct.
- The empty result `np.empty(shape=0)` is a float array. The model returns empty sequences.
- A cost function is modelled as a pairwise `Cost<T>` applied position by position (`Vectors.Costs`). The model therefore cannot express a Python cost whose entries depend on other positions of the vector or on the position itself. It also cannot express a cost that returns a vector of another length: NumPy broadcasts a length-1 result at numpy_hirschberg/align.py:162 and raises otherwise. No cost function in the repository does either.
- `cost_function` can be `None` when it is never called, as in the tests with empty inputs. The model always takes a cost function and ignores it on those paths.
- Examples.MatchDistanceExamples: does not restate the rows `("bbb", "abc")` and `([1, 2, 3], [2, 2, 2])` of tests/test_match_distance.py:19,22. There, NumPy broadcasting compares two vectors element by element, while the core only ever calls a cost function with one item and one vector.
- Hirschberg.AlignScoreIsSlotSum: requires a symmetric cost. Line 77 asks the cost with the target item first, while lines 81 and 162 put the source item first, so without symmetry a matched slot has two readings.
- `symbol_distance` reinterprets a Unicode array as `int32` codes (tests/distance.py:31). This is modelled as the absolute difference of the code points of two characters, which is what the view yields for one-character items.
- numpy_hirschberg/types.py, numpy_hirschberg/__init__.py and tests/test_numpy_hirschberg.py hold only type aliases, a re-export and version metadata, so they are not part of this model.
