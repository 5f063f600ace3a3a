/** Hirschberg's linear-space sequence alignment (numpy_hirschberg/align.py):
    the two-row Needleman–Wunsch sweep `ScoreMatrix`, the single-item
    placement `LinearSearch`, and the divide-and-conquer driver `Align`. */
module Hirschberg {
  import opened Vectors

  /** A pairwise cost: `cost(subject, item)` is the entry a cost function
      returns at the position of `item` when asked about `subject`. */
  type Cost<!T> = (T, T) -> int

  /** The default fixed costs of `align` and of `score_matrix`; they differ. */
  const AlignDeletionCost := 100
  const AlignInsertionCost := 0
  const SweepDeletionCost := 100
  const SweepInsertionCost := 10

  /** Padded source, padded target (gaps where a slot is only on the other side)
      and the total score. */
  datatype Alignment<T> = Alignment(source: seq<Option<T>>, target: seq<Option<T>>, score: int)

  /** The Needleman–Wunsch score matrix, entry (i, j): the score of aligning
      `source[..i]` with `target[..j]`, maximised over the last move
      (replace, delete `source[i-1]`, insert `target[j-1]`). Deletion scores
      `dc`, insertion `ic`, replacement subtracts the cost. */
  function Score<T>(source: seq<T>, target: seq<T>, cost: Cost<T>, dc: int, ic: int, i: nat, j: nat): int
    requires i <= |source| && j <= |target|
    decreases i + j
  {
    if i == 0 then j * ic
    else if j == 0 then i * dc
    else
      Max(Max(Score(source, target, cost, dc, ic, i - 1, j - 1) - cost(source[i - 1], target[j - 1]),
              Score(source, target, cost, dc, ic, i - 1, j) + dc),
          Score(source, target, cost, dc, ic, i, j - 1) + ic)
  }

  /** What `score_matrix` returns: the running totals of the fixed cost when
      one side is empty (no leading 0), otherwise the last matrix row. */
  function LastRow<T>(source: seq<T>, target: seq<T>, cost: Cost<T>, dc: int, ic: int): (r: seq<int>)
    ensures |r| == if |source| == 0 then |target| else if |target| == 0 then |source| else |target| + 1
  {
    if |source| == 0 then Accumulate(Full(|target|, ic))
    else if |target| == 0 then Accumulate(Full(|source|, dc))
    else seq(|target| + 1, j requires 0 <= j <= |target| => Score(source, target, cost, dc, ic, |source|, j))
  }

  /** `score_matrix`: the last row of the score matrix from two row buffers.
      `row1` is the previous row, rebuilt each pass; `row2` is written in
      place left to right, each cell reading the one before it. */
  method ScoreMatrix<T>(source: seq<T>, target: seq<T>, cost: Cost<T>, dc: int, ic: int) returns (r: seq<int>)
    ensures r == LastRow(source, target, cost, dc, ic)
    ensures |source| == 0 ==> r == seq(|target|, j => (j + 1) * ic)
    ensures |source| > 0 && |target| == 0 ==> r == seq(|source|, i => (i + 1) * dc)
    ensures |source| > 0 && |target| > 0 ==> |r| == |target| + 1 && r[0] == |source| * dc
  {
    var n, m := |source|, |target|;
    LastRowDegenerate(source, target, cost, dc, ic);
    if n == 0 {
      return Accumulate(Full(m, ic));
    }
    if m == 0 {
      return Accumulate(Full(n, dc));
    }
    var deletionColumn := Accumulate([0] + Full(n, dc));
    var insertionRow := Accumulate([0] + Full(m, ic));
    AccumulateFromZero(n, dc);
    AccumulateFromZero(m, ic);
    var row1 := insertionRow;
    var row2 := new int[m];
    for i := 0 to n
      invariant row1 == ScoreRow(source, target, cost, dc, ic, i)
    {
      var costs := Costs(cost, source[i], target);
      var replacement := Subtract(row1[..m], costs);
      var deletion := Shift(row1[1..], dc);
      var best := MaxEach(replacement, deletion);
      var first := deletionColumn[i + 1];
      SweepInsertions(row2, best, first, ic);
      assert best == Diagonal(row1, costs, dc) && first == (i + 1) * dc;
      DiagonalOfScoreRow(source, target, cost, dc, ic, i);
      NextScoreRow(source, target, cost, dc, ic, i, best, row2[..]);
      row1 := [first] + row2[..];
    }
    r := row1;
  }

  /** The inner loop of `score_matrix`: fill `row` left to right, each cell
      the larger of `best[j]` and `ic` plus the cell before it (`first`
      before column 0). */
  method SweepInsertions(row: array<int>, best: seq<int>, first: int, ic: int)
    requires row.Length == |best|
    modifies row
    ensures forall k :: 0 <= k < row.Length ==> row[k] == InsertionCell(best, first, ic, k)
  {
    for j := 0 to row.Length
      invariant forall k :: 0 <= k < j ==> row[k] == InsertionCell(best, first, ic, k)
    {
      var insertion := ic + (if j == 0 then first else row[j - 1]);
      row[j] := Max(best[j], insertion);
    }
  }

  /** Row `i` of the score matrix. */
  function ScoreRow<T>(source: seq<T>, target: seq<T>, cost: Cost<T>, dc: int, ic: int, i: nat): seq<int>
    requires i <= |source|
  {
    seq(|target| + 1, j requires 0 <= j <= |target| => Score(source, target, cost, dc, ic, i, j))
  }

  /** The vectorised part of one pass: per column, the better of the
      diagonal move (previous row minus the cost) and the deletion move
      (previous row one column on, plus `dc`). */
  function Diagonal(prev: seq<int>, costs: seq<int>, dc: int): seq<int>
    requires |prev| == |costs| + 1
  {
    MaxEach(Subtract(prev[..|costs|], costs), Shift(prev[1..], dc))
  }

  /** Cell `k` of what the inner loop writes: the larger of `best[k]` and
      `ic` plus the cell before it, the cell before column 0 being `first`. */
  function InsertionCell(best: seq<int>, first: int, ic: int, k: nat): int
    requires k < |best|
  {
    Max(best[k], (if k == 0 then first else InsertionCell(best, first, ic, k - 1)) + ic)
  }

  /** The better of the diagonal and the deletion move into row `i + 1`,
      column `j + 1`: what the vectorised part of a pass computes. */
  predicate DiagonalMoves<T>(source: seq<T>, target: seq<T>, cost: Cost<T>, dc: int, ic: int, i: nat, best: seq<int>)
    requires i < |source|
  {
    |best| == |target| &&
    forall j :: 0 <= j < |target| ==>
      best[j] == Max(Score(source, target, cost, dc, ic, i, j) - cost(source[i], target[j]),
                     Score(source, target, cost, dc, ic, i, j + 1) + dc)
  }

  /** The vectorised part of a pass over row `i` of the matrix. */
  lemma DiagonalOfScoreRow<T>(source: seq<T>, target: seq<T>, cost: Cost<T>, dc: int, ic: int, i: nat)
    requires i < |source|
    ensures DiagonalMoves(source, target, cost, dc, ic, i,
      Diagonal(ScoreRow(source, target, cost, dc, ic, i), Costs(cost, source[i], target), dc))
  {
    var row, costs := ScoreRow(source, target, cost, dc, ic, i), Costs(cost, source[i], target);
    var best := Diagonal(row, costs, dc);
    forall j | 0 <= j < |target|
      ensures best[j] == Max(Score(source, target, cost, dc, ic, i, j) - cost(source[i], target[j]),
                             Score(source, target, cost, dc, ic, i, j + 1) + dc)
    {
      assert best[j] == Max(row[j] - costs[j], row[j + 1] + dc);
    }
  }

  /** The insertion sweep over the diagonal moves into row `i + 1` yields
      row `i + 1` of the matrix, cell by cell. */
  lemma {:induction false} InsertionCellIsScore<T>(source: seq<T>, target: seq<T>, cost: Cost<T>, dc: int, ic: int,
                                                   i: nat, best: seq<int>, k: nat)
    requires i < |source| && k < |target| && DiagonalMoves(source, target, cost, dc, ic, i, best)
    ensures InsertionCell(best, (i + 1) * dc, ic, k) == Score(source, target, cost, dc, ic, i + 1, k + 1)
  {
    if k > 0 {
      InsertionCellIsScore(source, target, cost, dc, ic, i, best, k - 1);
    }
  }

  /** A pass: row `i + 1` of the matrix is `(i + 1)·dc` followed by the
      insertion sweep over the diagonal moves into it. */
  lemma NextScoreRow<T>(source: seq<T>, target: seq<T>, cost: Cost<T>, dc: int, ic: int,
                        i: nat, best: seq<int>, cells: seq<int>)
    requires i < |source| && DiagonalMoves(source, target, cost, dc, ic, i, best)
    requires |cells| == |target|
    requires forall k :: 0 <= k < |target| ==> cells[k] == InsertionCell(best, (i + 1) * dc, ic, k)
    ensures [(i + 1) * dc] + cells == ScoreRow(source, target, cost, dc, ic, i + 1)
  {
    forall k | 0 <= k < |target|
      ensures cells[k] == Score(source, target, cost, dc, ic, i + 1, k + 1)
    {
      InsertionCellIsScore(source, target, cost, dc, ic, i, best, k);
    }
  }

  /** The degenerate rows in closed form: `ic, 2·ic, ..., m·ic` for an empty
      source, `dc, ..., n·dc` for an empty target, `[]` for both. */
  lemma LastRowDegenerate<T>(source: seq<T>, target: seq<T>, cost: Cost<T>, dc: int, ic: int)
    ensures |source| == 0 ==> LastRow(source, target, cost, dc, ic) == seq(|target|, j => (j + 1) * ic)
    ensures |source| > 0 && |target| == 0 ==>
      LastRow(source, target, cost, dc, ic) == seq(|source|, i => (i + 1) * dc)
  {
    AccumulateFull(|target|, ic);
    AccumulateFull(|source|, dc);
  }

  /** Where `linear_search` puts `subject`: a gap line the length of `target`
      with `subject` at the first minimum of its costs, and that cost. */
  function Placement<T>(subject: T, target: seq<T>, cost: Cost<T>): (seq<Option<T>>, int)
    requires |target| > 0
  {
    var costs := Costs(cost, subject, target);
    var index := ArgMin(costs);
    (Placed(|target|, index, subject), costs[index])
  }

  /** A slot of the placement line holds `subject` exactly at the first
      position of minimum cost and is a gap everywhere else; the cost
      returned is that minimum, not negated. */
  lemma PlacementAtFirstMinimum<T>(subject: T, target: seq<T>, cost: Cost<T>)
    requires |target| > 0
    ensures |Placement(subject, target, cost).0| == |target|
    ensures exists k :: IsFirstMinimum(Costs(cost, subject, target), k)
    ensures forall k :: 0 <= k < |target| ==>
      Placement(subject, target, cost).0[k] ==
        if IsFirstMinimum(Costs(cost, subject, target), k) then Some(subject) else None
    ensures forall k :: IsFirstMinimum(Costs(cost, subject, target), k) ==>
      Placement(subject, target, cost).1 == cost(subject, target[k])
  {
    var costs := Costs(cost, subject, target);
    forall k | 0 <= k < |target|
      ensures IsFirstMinimum(costs, k) <==> k == ArgMin(costs)
    {
      ArgMinIsTheFirstMinimum(costs, k);
    }
    assert IsFirstMinimum(costs, ArgMin(costs));
  }

  /** `linear_search`: allocate a gap line, write `subject` into its cheapest slot. */
  method LinearSearch<T>(subject: T, target: seq<T>, cost: Cost<T>) returns (line: seq<Option<T>>, best: int)
    requires |target| > 0
    ensures (line, best) == Placement(subject, target, cost)
    ensures |line| == |target|
    ensures forall k :: 0 <= k < |target| ==>
      line[k] == if IsFirstMinimum(Costs(cost, subject, target), k) then Some(subject) else None
    ensures forall k :: IsFirstMinimum(Costs(cost, subject, target), k) ==> best == cost(subject, target[k])
  {
    var slots := new Option<T>[|target|](_ => None);
    var costs := Costs(cost, subject, target);
    var index := ArgMin(costs);
    slots[index] := Some(subject);
    line, best := slots[..], costs[index];
    assert line == Placed(|target|, index, subject);
    PlacementAtFirstMinimum(subject, target, cost);
  }

  /** The target split of the general case: the first `k` maximising the
      forward row of the top half plus the reversed backward row of the
      bottom half. */
  function SplitIndex<T>(source: seq<T>, target: seq<T>, cost: Cost<T>, dc: int, ic: int): (k: nat)
    requires |source| >= 2 && |target| >= 2
    ensures k <= |target|
  {
    var cut := |source| / 2;
    var upper := LastRow(source[..cut], target, cost, dc, ic);
    var lower := LastRow(Reverse(source[cut..]), Reverse(target), cost, dc, ic);
    ArgMax(Add(upper, Reverse(lower)))
  }

  /** `align`: base cases in the source's order, otherwise split the source
      in half, the target at `SplitIndex`, and concatenate the two halves'
      alignments. Whatever the input, the padded lines have one length,
      no slot is a gap on both sides, and removing the gaps gives back the
      inputs. */
  function Align<T>(source: seq<T>, target: seq<T>, cost: Cost<T>, dc: int, ic: int): (r: Alignment<T>)
    ensures |r.source| == |r.target|
    ensures forall k :: 0 <= k < |r.source| ==> r.source[k].Some? || r.target[k].Some?
    ensures Strip(r.source) == source && Strip(r.target) == target
    decreases |source|
  {
    var n, m := |source|, |target|;
    if n == 0 && m == 0 then
      Alignment([], [], 0)
    else if m == 0 then
      AlignedDeleted(source);
      Alignment(Padded(source), Gaps(n), n * dc)
    else if n == 0 then
      AlignedInserted(target);
      Alignment(Gaps(m), Padded(target), m * ic)
    else if m == 1 then
      var (line, c) := Placement(target[0], source, cost);
      AlignedOneInTarget(source, ArgMin(Costs(cost, target[0], source)), target[0]);
      assert target == [target[0]];
      Alignment(Padded(source), line, dc * (n - 1) - c)
    else if n == 1 then
      var (line, c) := Placement(source[0], target, cost);
      AlignedOneInSource(target, ArgMin(Costs(cost, source[0], target)), source[0]);
      assert source == [source[0]];
      Alignment(line, Padded(target), ic * (m - 1) - c)
    else
      var cut := n / 2;
      var k := SplitIndex(source, target, cost, dc, ic);
      var left := Align(source[..cut], target[..k], cost, dc, ic);
      var right := Align(source[cut..], target[k..], cost, dc, ic);
      SliceJoin(source, cut);
      SliceJoin(target, k);
      AlignedConcat(left.source, left.target, source[..cut], target[..k],
                    right.source, right.target, source[cut..], target[k..]);
      Alignment(left.source + right.source, left.target + right.target, left.score + right.score)
  }

  /** `ps` and `pt` align `source` with `target`: one length, no slot a gap
      on both sides, and the gaps removed they give back the two inputs. */
  ghost predicate Aligned<T>(ps: seq<Option<T>>, pt: seq<Option<T>>, source: seq<T>, target: seq<T>)
  {
    |ps| == |pt| &&
    (forall k :: 0 <= k < |ps| ==> ps[k].Some? || pt[k].Some?) &&
    Strip(ps) == source && Strip(pt) == target
  }

  lemma AlignedDeleted<T>(source: seq<T>)
    ensures Aligned(Padded(source), Gaps(|source|), source, [])
  {
    StripPadded(source);
    StripGaps<T>(|source|);
  }

  lemma AlignedInserted<T>(target: seq<T>)
    ensures Aligned(Gaps(|target|), Padded(target), [], target)
  {
    StripPadded(target);
    StripGaps<T>(|target|);
  }

  lemma AlignedOneInTarget<T>(source: seq<T>, k: nat, x: T)
    requires k < |source|
    ensures Aligned(Padded(source), Placed(|source|, k, x), source, [x])
  {
    StripPadded(source);
    StripPlaced(|source|, k, x);
  }

  lemma AlignedOneInSource<T>(target: seq<T>, k: nat, x: T)
    requires k < |target|
    ensures Aligned(Placed(|target|, k, x), Padded(target), [x], target)
  {
    StripPadded(target);
    StripPlaced(|target|, k, x);
  }

  /** Alignments of consecutive pieces, end to end, align the joined pieces. */
  lemma AlignedConcat<T>(ps1: seq<Option<T>>, pt1: seq<Option<T>>, s1: seq<T>, t1: seq<T>,
                         ps2: seq<Option<T>>, pt2: seq<Option<T>>, s2: seq<T>, t2: seq<T>)
    requires Aligned(ps1, pt1, s1, t1) && Aligned(ps2, pt2, s2, t2)
    ensures Aligned(ps1 + ps2, pt1 + pt2, s1 + s2, t1 + t2)
  {
    StripConcat(ps1, ps2);
    StripConcat(pt1, pt2);
    forall k | 0 <= k < |ps1 + ps2|
      ensures (ps1 + ps2)[k].Some? || (pt1 + pt2)[k].Some?
    {
      if k >= |ps1| {
        assert (ps1 + ps2)[k] == ps2[k - |ps1|] && (pt1 + pt2)[k] == pt2[k - |ps1|];
      }
    }
  }

  /** The empty base cases: an empty target gives the source against gaps at
      `n·dc`, an empty source gives gaps against the target at `m·ic`; both
      empty gives `([], [], 0)`, so the order of the two checks is immaterial. */
  lemma AlignEmptyCases<T>(source: seq<T>, target: seq<T>, cost: Cost<T>, dc: int, ic: int)
    ensures |target| == 0 ==> Align(source, target, cost, dc, ic) == Alignment(Padded(source), Gaps(|source|), |source| * dc)
    ensures |source| == 0 ==> Align(source, target, cost, dc, ic) == Alignment(Gaps(|target|), Padded(target), |target| * ic)
  {
  }

  /** A one-item target (taken before a one-item source, so also `n = m = 1`):
      the source is left as it is, the item goes to the first cheapest source
      position, and the score charges `dc` for every other source item and
      subtracts the cost of that match. */
  lemma AlignSingleTarget<T>(source: seq<T>, target: seq<T>, cost: Cost<T>, dc: int, ic: int)
    requires |source| >= 1 && |target| == 1
    ensures Align(source, target, cost, dc, ic).source == Padded(source)
    ensures forall j :: 0 <= j < |source| ==>
      Align(source, target, cost, dc, ic).target[j] ==
        if IsFirstMinimum(Costs(cost, target[0], source), j) then Some(target[0]) else None
    ensures forall j :: IsFirstMinimum(Costs(cost, target[0], source), j) ==>
      Align(source, target, cost, dc, ic).score == dc * (|source| - 1) - cost(target[0], source[j])
  {
    PlacementAtFirstMinimum(target[0], source, cost);
  }

  /** A one-item source with a longer target: symmetric, charging `ic`. */
  lemma AlignSingleSource<T>(source: seq<T>, target: seq<T>, cost: Cost<T>, dc: int, ic: int)
    requires |source| == 1 && |target| >= 2
    ensures Align(source, target, cost, dc, ic).target == Padded(target)
    ensures forall j :: 0 <= j < |target| ==>
      Align(source, target, cost, dc, ic).source[j] ==
        if IsFirstMinimum(Costs(cost, source[0], target), j) then Some(source[0]) else None
    ensures forall j :: IsFirstMinimum(Costs(cost, source[0], target), j) ==>
      Align(source, target, cost, dc, ic).score == ic * (|target| - 1) - cost(source[0], target[j])
  {
    PlacementAtFirstMinimum(source[0], target, cost);
  }

  /** The general case: the midpoint leaves both halves non-empty, both
      sweeps return `m + 1` entries, the split is the lowest `k` maximising
      the forward score of the top half to column `k` plus the backward
      score of the bottom half from column `k`, and the result is the two
      halves' alignments end to end with their scores added. */
  lemma AlignSplit<T>(source: seq<T>, target: seq<T>, cost: Cost<T>, dc: int, ic: int)
    requires |source| >= 2 && |target| >= 2
    ensures 1 <= |source| / 2 <= |source| - 1
    ensures |LastRow(source[..|source| / 2], target, cost, dc, ic)| == |target| + 1
    ensures |LastRow(Reverse(source[|source| / 2..]), Reverse(target), cost, dc, ic)| == |target| + 1
    ensures SplitIndex(source, target, cost, dc, ic) <= |target|
    ensures forall k :: 0 <= k <= |target| ==>
      Halves(source, target, cost, dc, ic, k) <= Halves(source, target, cost, dc, ic, SplitIndex(source, target, cost, dc, ic))
    ensures forall k :: 0 <= k < SplitIndex(source, target, cost, dc, ic) ==>
      Halves(source, target, cost, dc, ic, k) < Halves(source, target, cost, dc, ic, SplitIndex(source, target, cost, dc, ic))
    ensures var cut, k := |source| / 2, SplitIndex(source, target, cost, dc, ic);
      var left, right := Align(source[..cut], target[..k], cost, dc, ic), Align(source[cut..], target[k..], cost, dc, ic);
      Align(source, target, cost, dc, ic) ==
        Alignment(left.source + right.source, left.target + right.target, left.score + right.score)
  {
    SplitIndexMaximises(source, target, cost, dc, ic);
    AlignGeneralCase(source, target, cost, dc, ic);
  }

  /** The split index is the first `k` maximising `Halves`. */
  lemma SplitIndexMaximises<T>(source: seq<T>, target: seq<T>, cost: Cost<T>, dc: int, ic: int)
    requires |source| >= 2 && |target| >= 2
    ensures forall k :: 0 <= k <= |target| ==>
      Halves(source, target, cost, dc, ic, k) <= Halves(source, target, cost, dc, ic, SplitIndex(source, target, cost, dc, ic))
    ensures forall k :: 0 <= k < SplitIndex(source, target, cost, dc, ic) ==>
      Halves(source, target, cost, dc, ic, k) < Halves(source, target, cost, dc, ic, SplitIndex(source, target, cost, dc, ic))
  {
    var n, m := |source|, |target|;
    var cut := n / 2;
    var upper := LastRow(source[..cut], target, cost, dc, ic);
    var lower := LastRow(Reverse(source[cut..]), Reverse(target), cost, dc, ic);
    var combined := Add(upper, Reverse(lower));
    forall k | 0 <= k <= m
      ensures combined[k] == Halves(source, target, cost, dc, ic, k)
    {
    }
  }

  /** The general branch of `align`, unfolded once. */
  lemma AlignGeneralCase<T>(source: seq<T>, target: seq<T>, cost: Cost<T>, dc: int, ic: int)
    requires |source| >= 2 && |target| >= 2
    ensures var cut, k := |source| / 2, SplitIndex(source, target, cost, dc, ic);
      var left, right := Align(source[..cut], target[..k], cost, dc, ic), Align(source[cut..], target[k..], cost, dc, ic);
      Align(source, target, cost, dc, ic) ==
        Alignment(left.source + right.source, left.target + right.target, left.score + right.score)
  {
    assert |source| != 1 && |target| != 1;
  }

  /** Forward score of `source[..n/2]` against `target[..k]` plus backward
      score of `source[n/2..]` against `target[k..]`, both read off the sweeps. */
  function Halves<T>(source: seq<T>, target: seq<T>, cost: Cost<T>, dc: int, ic: int, k: nat): int
    requires |source| >= 2 && k <= |target|
  {
    var cut := |source| / 2;
    Score(source[..cut], target, cost, dc, ic, cut, k) +
    Score(Reverse(source[cut..]), Reverse(target), cost, dc, ic, |source| - cut, |target| - k)
  }

  /** One slot's share of the score: `dc` for a source item against a gap,
      `ic` for a target item against a gap, minus the cost for a match. */
  function SlotScore<T>(s: Option<T>, t: Option<T>, cost: Cost<T>, dc: int, ic: int): int
  {
    match (s, t)
    case (Some(a), Some(b)) => -cost(a, b)
    case (Some(_), None) => dc
    case (None, Some(_)) => ic
    case (None, None) => 0
  }

  /** The sum of the slot scores of two padded lines of one length. */
  function TotalScore<T>(ps: seq<Option<T>>, pt: seq<Option<T>>, cost: Cost<T>, dc: int, ic: int): int
    requires |ps| == |pt|
    decreases |ps|
  {
    if |ps| == 0 then 0
    else SlotScore(ps[0], pt[0], cost, dc, ic) + TotalScore(ps[1..], pt[1..], cost, dc, ic)
  }

  lemma {:induction false} TotalScoreConcat<T>(a: seq<Option<T>>, b: seq<Option<T>>, c: seq<Option<T>>, d: seq<Option<T>>,
                                               cost: Cost<T>, dc: int, ic: int)
    requires |a| == |c| && |b| == |d|
    ensures TotalScore(a + b, c + d, cost, dc, ic) == TotalScore(a, c, cost, dc, ic) + TotalScore(b, d, cost, dc, ic)
    decreases |a|
  {
    if |a| == 0 {
      assert a + b == b && c + d == d;
    } else {
      assert (a + b)[0] == a[0] && (a + b)[1..] == a[1..] + b;
      assert (c + d)[0] == c[0] && (c + d)[1..] == c[1..] + d;
      TotalScoreConcat(a[1..], b, c[1..], d, cost, dc, ic);
    }
  }

  lemma {:induction false} TotalScoreDeleted<T>(s: seq<T>, cost: Cost<T>, dc: int, ic: int)
    ensures TotalScore(Padded(s), Gaps(|s|), cost, dc, ic) == |s| * dc
    decreases |s|
  {
    if |s| > 0 {
      assert Padded(s)[1..] == Padded(s[1..]) && Gaps<T>(|s|)[1..] == Gaps(|s| - 1);
      TotalScoreDeleted(s[1..], cost, dc, ic);
      assert |s| * dc == dc + (|s| - 1) * dc;
    }
  }

  lemma {:induction false} TotalScoreInserted<T>(t: seq<T>, cost: Cost<T>, dc: int, ic: int)
    ensures TotalScore(Gaps(|t|), Padded(t), cost, dc, ic) == |t| * ic
    decreases |t|
  {
    if |t| > 0 {
      assert Padded(t)[1..] == Padded(t[1..]) && Gaps<T>(|t|)[1..] == Gaps(|t| - 1);
      TotalScoreInserted(t[1..], cost, dc, ic);
      assert |t| * ic == ic + (|t| - 1) * ic;
    }
  }

  /** A source left as it is against a line with one target item at `k`. */
  lemma {:induction false} TotalScoreOneInTarget<T>(s: seq<T>, k: nat, x: T, cost: Cost<T>, dc: int, ic: int)
    requires k < |s|
    ensures TotalScore(Padded(s), Placed(|s|, k, x), cost, dc, ic) == dc * (|s| - 1) - cost(s[k], x)
    decreases |s|
  {
    var n := |s|;
    assert Padded(s)[1..] == Padded(s[1..]);
    if k == 0 {
      assert Placed(n, k, x)[1..] == Gaps(n - 1);
      TotalScoreDeleted(s[1..], cost, dc, ic);
    } else {
      assert Placed(n, k, x)[1..] == Placed(n - 1, k - 1, x);
      TotalScoreOneInTarget(s[1..], k - 1, x, cost, dc, ic);
      assert dc + dc * (n - 2) == dc * (n - 1);
    }
  }

  /** A line with one source item at `k` against a target left as it is. */
  lemma {:induction false} TotalScoreOneInSource<T>(t: seq<T>, k: nat, x: T, cost: Cost<T>, dc: int, ic: int)
    requires k < |t|
    ensures TotalScore(Placed(|t|, k, x), Padded(t), cost, dc, ic) == ic * (|t| - 1) - cost(x, t[k])
    decreases |t|
  {
    var m := |t|;
    assert Padded(t)[1..] == Padded(t[1..]);
    if k == 0 {
      assert Placed(m, k, x)[1..] == Gaps(m - 1);
      TotalScoreInserted(t[1..], cost, dc, ic);
    } else {
      assert Placed(m, k, x)[1..] == Placed(m - 1, k - 1, x);
      TotalScoreOneInSource(t[1..], k - 1, x, cost, dc, ic);
      assert ic + ic * (m - 2) == ic * (m - 1);
    }
  }

  /** For a symmetric cost, the score `align` returns is the sum of its
      slots' scores. (The one-item-target case asks the cost about the
      target item against the source, the other cases the other way round,
      so without symmetry the two readings of a match differ.) */
  lemma {:induction false} AlignScoreIsSlotSum<T>(source: seq<T>, target: seq<T>, cost: Cost<T>, dc: int, ic: int)
    requires forall a, b :: cost(a, b) == cost(b, a)
    ensures var r := Align(source, target, cost, dc, ic);
      r.score == TotalScore(r.source, r.target, cost, dc, ic)
    decreases |source|
  {
    var n, m := |source|, |target|;
    if n == 0 && m == 0 {
    } else if m == 0 {
      TotalScoreDeleted(source, cost, dc, ic);
    } else if n == 0 {
      TotalScoreInserted(target, cost, dc, ic);
    } else if m == 1 {
      var k := ArgMin(Costs(cost, target[0], source));
      TotalScoreOneInTarget(source, k, target[0], cost, dc, ic);
      assert cost(source[k], target[0]) == cost(target[0], source[k]);
    } else if n == 1 {
      var k := ArgMin(Costs(cost, source[0], target));
      TotalScoreOneInSource(target, k, source[0], cost, dc, ic);
    } else {
      var cut := n / 2;
      var k := SplitIndex(source, target, cost, dc, ic);
      var left := Align(source[..cut], target[..k], cost, dc, ic);
      var right := Align(source[cut..], target[k..], cost, dc, ic);
      AlignScoreIsSlotSum(source[..cut], target[..k], cost, dc, ic);
      AlignScoreIsSlotSum(source[cut..], target[k..], cost, dc, ic);
      TotalScoreConcat(left.source, right.source, left.target, right.target, cost, dc, ic);
    }
  }
}
