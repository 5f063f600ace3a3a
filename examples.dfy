/** The expected values of the repository's tests, as lemmas about the model. */
module Examples {
  import opened Vectors
  import opened Hirschberg
  import opened Distance

  lemma MatchDistanceExamples()
    ensures Costs(Match, 'a', "a") == [-2]
    ensures Costs(Match, 'a', "b") == [1]
    ensures Costs(Match, 'c', "a") == [1]
    ensures Costs(Match, 'A', "a") == [1]
    ensures Costs(Match, 'a', "abc") == [-2, 1, 1]
    ensures Costs(Match, 1, [1]) == [-2]
    ensures Costs(Match, 1, [1, 2]) == [-2, 1]
  {
    assert Costs(Match, 'a', "b")[0] == Match('a', 'b');
    assert Costs(Match, 'c', "a")[0] == Match('c', 'a');
    assert Costs(Match, 'A', "a")[0] == Match('A', 'a');
    var abc := Costs(Match, 'a', "abc");
    assert abc[0] == Match('a', 'a') && abc[1] == Match('a', 'b') && abc[2] == Match('a', 'c');
    assert Costs(Match, 1, [1])[0] == Match(1, 1);
    var ints := Costs(Match, 1, [1, 2]);
    assert ints[0] == Match(1, 1) && ints[1] == Match(1, 2);
  }

  lemma SymbolDistanceExamples()
    ensures Costs(Symbol, 'a', "a") == [0]
    ensures Costs(Symbol, 'a', "b") == [1]
    ensures Costs(Symbol, 'c', "a") == [2]
    ensures Costs(Symbol, 'A', "a") == [32]
    ensures Costs(Symbol, 'A', "abc") == [32, 33, 34]
  {
    assert Costs(Symbol, 'a', "a")[0] == Symbol('a', 'a');
    assert Costs(Symbol, 'a', "b")[0] == Symbol('a', 'b');
    assert Costs(Symbol, 'c', "a")[0] == Symbol('c', 'a');
    assert Costs(Symbol, 'A', "a")[0] == Symbol('A', 'a');
    var abc := Costs(Symbol, 'A', "abc");
    assert abc[0] == Symbol('A', 'a') && abc[1] == Symbol('A', 'b') && abc[2] == Symbol('A', 'c');
  }

  /** A placement is fixed once the first minimum of the costs is known. */
  lemma PlacementAt<T>(subject: T, target: seq<T>, cost: Cost<T>, k: nat)
    requires IsFirstMinimum(Costs(cost, subject, target), k)
    ensures Placement(subject, target, cost) == (Placed(|target|, k, subject), cost(subject, target[k]))
  {
    ArgMinIsTheFirstMinimum(Costs(cost, subject, target), k);
  }

  lemma LinearSearch_A_ABC()
    ensures Placement('A', "ABC", Symbol) == ([Some('A'), None, None], 0)
  {
    var c := Costs(Symbol, 'A', "ABC");
    assert c[0] == Symbol('A', 'A') && c[1] == Symbol('A', 'B') && c[2] == Symbol('A', 'C');
    PlacementAt('A', "ABC", Symbol, 0);
    assert Placed(3, 0, 'A') == [Some('A'), None, None];
  }

  lemma LinearSearch_B_ABC()
    ensures Placement('B', "ABC", Symbol) == ([None, Some('B'), None], 0)
  {
    var c := Costs(Symbol, 'B', "ABC");
    assert c[0] == Symbol('B', 'A') && c[1] == Symbol('B', 'B') && c[2] == Symbol('B', 'C');
    PlacementAt('B', "ABC", Symbol, 1);
    assert Placed(3, 1, 'B') == [None, Some('B'), None];
  }

  lemma LinearSearch_D_ABC()
    ensures Placement('D', "ABC", Symbol) == ([None, None, Some('D')], 1)
  {
    var c := Costs(Symbol, 'D', "ABC");
    assert c[0] == Symbol('D', 'A') && c[1] == Symbol('D', 'B') && c[2] == Symbol('D', 'C');
    PlacementAt('D', "ABC", Symbol, 2);
    assert Placed(3, 2, 'D') == [None, None, Some('D')];
  }

  lemma LinearSearch_F_ABC()
    ensures Placement('F', "ABC", Symbol) == ([None, None, Some('F')], 3)
  {
    var c := Costs(Symbol, 'F', "ABC");
    assert c[0] == Symbol('F', 'A') && c[1] == Symbol('F', 'B') && c[2] == Symbol('F', 'C');
    PlacementAt('F', "ABC", Symbol, 2);
    assert Placed(3, 2, 'F') == [None, None, Some('F')];
  }

  lemma LinearSearch_C_T()
    ensures Placement('C', "T", Symbol) == ([Some('C')], 17)
  {
    var c := Costs(Symbol, 'C', "T");
    assert c[0] == Symbol('C', 'T');
    PlacementAt('C', "T", Symbol, 0);
    assert Placed(1, 0, 'C') == [Some('C')];
  }

  lemma LinearSearch_T_C()
    ensures Placement('T', "C", Symbol) == ([Some('T')], 17)
  {
    var c := Costs(Symbol, 'T', "C");
    assert c[0] == Symbol('T', 'C');
    PlacementAt('T', "C", Symbol, 0);
    assert Placed(1, 0, 'T') == [Some('T')];
  }

  /** With a one-item target at the first cheapest position `k` of the source. */
  lemma AlignAtSingleTarget<T>(source: seq<T>, x: T, cost: Cost<T>, dc: int, ic: int, k: nat)
    requires IsFirstMinimum(Costs(cost, x, source), k)
    ensures Align(source, [x], cost, dc, ic) ==
      Alignment(Padded(source), Placed(|source|, k, x), dc * (|source| - 1) - cost(x, source[k]))
  {
    PlacementAt(x, source, cost, k);
    assert [x][0] == x;
  }

  /** With a one-item source and a longer target, at the first cheapest position `k` of the target. */
  lemma AlignAtSingleSource<T>(target: seq<T>, x: T, cost: Cost<T>, dc: int, ic: int, k: nat)
    requires |target| >= 2 && IsFirstMinimum(Costs(cost, x, target), k)
    ensures Align([x], target, cost, dc, ic) ==
      Alignment(Placed(|target|, k, x), Padded(target), ic * (|target| - 1) - cost(x, target[k]))
  {
    PlacementAt(x, target, cost, k);
    assert [x][0] == x;
  }

  /** The split index once both sweeps are known, as `k` is the first
      maximum of their sum. */
  lemma SplitAt<T>(source: seq<T>, target: seq<T>, cost: Cost<T>, dc: int, ic: int,
                   cut: int, upper: seq<int>, lower: seq<int>, k: int)
    requires |source| >= 2 && |target| >= 2 && cut == |source| / 2 && |upper| == |lower|
    requires (LastRow(source[..cut], target, cost, dc, ic), LastRow(Reverse(source[cut..]), Reverse(target), cost, dc, ic)) == (upper, lower)
    requires IsFirstMaximum(Add(upper, Reverse(lower)), k)
    ensures SplitIndex(source, target, cost, dc, ic) == k
  {
    ArgMaxIsTheFirstMaximum(Add(upper, Reverse(lower)), k);
  }

  /** The general case once the cut `n / 2`, the split index `k` and the alignments of the
      two halves are known: the whole is the halves end to end. */
  lemma AlignJoin<T>(source: seq<T>, target: seq<T>, cost: Cost<T>, dc: int, ic: int, cut: int, k: int,
                     left: Alignment<T>, right: Alignment<T>)
    requires |source| >= 2 && |target| >= 2 && cut == |source| / 2
    requires SplitIndex(source, target, cost, dc, ic) == k
    requires (Align(source[..cut], target[..k], cost, dc, ic), Align(source[cut..], target[k..], cost, dc, ic)) == (left, right)
    ensures Align(source, target, cost, dc, ic) ==
      Alignment(left.source + right.source, left.target + right.target, left.score + right.score)
  {
    AlignGeneralCase(source, target, cost, dc, ic);
  }

  /** One item against the same item is a match, scoring `2` under `match_distance`. */
  lemma AlignSameItem(x: char)
    ensures Align([x], [x], Match, -2, -2) == Alignment([Some(x)], [Some(x)], 2)
  {
    assert Costs(Match, x, [x])[0] == Match(x, x);
    AlignAtSingleTarget([x], x, Match, -2, -2, 0);
    assert Padded([x]) == [Some(x)];
    assert Placed(1, 0, x) == [Some(x)];
  }

  lemma ScoreMatrixDegenerateExamples()
    ensures LastRow<char>([], [], Match, SweepDeletionCost, SweepInsertionCost) == []
    ensures LastRow([], "AB", Match, SweepDeletionCost, SweepInsertionCost) == [10, 20]
    ensures LastRow("AB", [], Match, SweepDeletionCost, SweepInsertionCost) == [100, 200]
    ensures LastRow([], "AB", Match, -2, -2) == [-2, -4]
    ensures LastRow("AB", [], Match, -2, -2) == [-2, -4]
  {
    LastRowDegenerate([], "AB", Match, SweepDeletionCost, SweepInsertionCost);
    LastRowDegenerate("AB", [], Match, SweepDeletionCost, SweepInsertionCost);
    LastRowDegenerate([], "AB", Match, -2, -2);
    LastRowDegenerate("AB", [], Match, -2, -2);
  }

  lemma AlignEmptyExample()
    ensures Align<char>([], [], Match, AlignDeletionCost, AlignInsertionCost) == Alignment([], [], 0)
  {
  }

  lemma AlignDeletionExample()
    ensures Align("ABC", [], Symbol, -2, AlignInsertionCost) == Alignment([Some('A'), Some('B'), Some('C')], [None, None, None], -6)
  {
    AlignEmptyCases("ABC", [], Symbol, -2, AlignInsertionCost);
    assert Padded("ABC") == [Some('A'), Some('B'), Some('C')] && Gaps<char>(3) == [None, None, None];
  }

  lemma AlignInsertionExample()
    ensures Align([], "AB", Symbol, AlignDeletionCost, -2) == Alignment([None, None], [Some('A'), Some('B')], -4)
  {
    AlignEmptyCases([], "AB", Symbol, AlignDeletionCost, -2);
    assert Padded("AB") == [Some('A'), Some('B')] && Gaps<char>(2) == [None, None];
  }

  lemma AlignSingleTargetExample()
    ensures Align("AB", "A", Symbol, -2, AlignInsertionCost) == Alignment([Some('A'), Some('B')], [Some('A'), None], -2)
  {
    var c := Costs(Symbol, 'A', "AB");
    assert c[0] == Symbol('A', 'A') && c[1] == Symbol('A', 'B');
    AlignAtSingleTarget("AB", 'A', Symbol, -2, AlignInsertionCost, 0);
    assert Padded("AB") == [Some('A'), Some('B')];
    assert Placed(2, 0, 'A') == [Some('A'), None];
  }

  lemma AlignSingleSourceExample()
    ensures Align("B", "AB", Symbol, AlignDeletionCost, -2) == Alignment([None, Some('B')], [Some('A'), Some('B')], -2)
  {
    var c := Costs(Symbol, 'B', "AB");
    assert c[0] == Symbol('B', 'A') && c[1] == Symbol('B', 'B');
    AlignAtSingleSource("AB", 'B', Symbol, AlignDeletionCost, -2, 1);
    assert Padded("AB") == [Some('A'), Some('B')];
    assert Placed(2, 1, 'B') == [None, Some('B')];
  }

  /** A cost of 10 for a mismatch and nothing for a match. */
  function Mismatch(a: char, b: char): (d: int)
    ensures d == 0 <==> a == b
    ensures d == 10 <==> a != b
  {
    if a == b then 0 else 10
  }

  /** The score need not be the optimum of the recurrence: a one-item target
      is always matched, at score -10 here, where deleting and inserting
      would score -4. */
  lemma AlignIsNotAlwaysOptimal()
    ensures Align("A", "T", Mismatch, -2, -2).score == -10
    ensures Score("A", "T", Mismatch, -2, -2, 1, 1) == -4
  {
    assert Costs(Mismatch, 'T', "A")[0] == Mismatch('T', 'A');
    AlignAtSingleTarget("A", 'T', Mismatch, -2, -2, 0);
    assert Mismatch("A"[0], "T"[0]) == 10;
  }

  /* The `test_align` cases under `match_distance` with both gap costs -2, worked out by the
     recursion one level at a time. For a general case X:
       Row_      the last score row of a literal pair;
       Upper_X   and Lower_X, the sweeps of the top half and of the reversed bottom half,
                 combined by Rows_X;
       Peak_X    the first maximum of their sum;
       Split_X   the split index;
       Left_X    and Right_X, the alignments of the two halves, combined by Halves_X;
       Step_X    the whole as the halves end to end;
       Join_X    that concatenation written out;
       Align_X   the expected value of the test. */

  lemma Row_AGTA_TATGC()
    ensures LastRow("AGTA", "TATGC", Match, -2, -2) == [-8, -4, 0, -2, -1, -3]
  {
    var s, t := "AGTA", "TATGC";
    assert Score(s, t, Match, -2, -2, 1, 1) == -1;
    assert Score(s, t, Match, -2, -2, 1, 2) == 0;
    assert Score(s, t, Match, -2, -2, 1, 3) == -2;
    assert Score(s, t, Match, -2, -2, 1, 4) == -4;
    assert Score(s, t, Match, -2, -2, 1, 5) == -6;
    assert Score(s, t, Match, -2, -2, 2, 1) == -3;
    assert Score(s, t, Match, -2, -2, 2, 2) == -2;
    assert Score(s, t, Match, -2, -2, 2, 3) == -1;
    assert Score(s, t, Match, -2, -2, 2, 4) == 0;
    assert Score(s, t, Match, -2, -2, 2, 5) == -2;
    assert Score(s, t, Match, -2, -2, 3, 1) == -2;
    assert Score(s, t, Match, -2, -2, 3, 2) == -4;
    assert Score(s, t, Match, -2, -2, 3, 3) == 0;
    assert Score(s, t, Match, -2, -2, 3, 4) == -2;
    assert Score(s, t, Match, -2, -2, 3, 5) == -1;
    assert Score(s, t, Match, -2, -2, 4, 1) == -4;
    assert Score(s, t, Match, -2, -2, 4, 2) == 0;
    assert Score(s, t, Match, -2, -2, 4, 3) == -2;
    assert Score(s, t, Match, -2, -2, 4, 4) == -1;
    assert Score(s, t, Match, -2, -2, 4, 5) == -3;
    var r := LastRow(s, t, Match, -2, -2);
    assert r[0] == -8 && r[1] == -4 && r[2] == 0 && r[3] == -2 && r[4] == -1 && r[5] == -3;
  }

  lemma Row_ACGC_CGTAT()
    ensures LastRow("ACGC", "CGTAT", Match, -2, -2) == [-8, -4, 0, 1, -1, -3]
  {
    var s, t := "ACGC", "CGTAT";
    assert Score(s, t, Match, -2, -2, 1, 1) == -1;
    assert Score(s, t, Match, -2, -2, 1, 2) == -3;
    assert Score(s, t, Match, -2, -2, 1, 3) == -5;
    assert Score(s, t, Match, -2, -2, 1, 4) == -4;
    assert Score(s, t, Match, -2, -2, 1, 5) == -6;
    assert Score(s, t, Match, -2, -2, 2, 1) == 0;
    assert Score(s, t, Match, -2, -2, 2, 2) == -2;
    assert Score(s, t, Match, -2, -2, 2, 3) == -4;
    assert Score(s, t, Match, -2, -2, 2, 4) == -6;
    assert Score(s, t, Match, -2, -2, 2, 5) == -5;
    assert Score(s, t, Match, -2, -2, 3, 1) == -2;
    assert Score(s, t, Match, -2, -2, 3, 2) == 2;
    assert Score(s, t, Match, -2, -2, 3, 3) == 0;
    assert Score(s, t, Match, -2, -2, 3, 4) == -2;
    assert Score(s, t, Match, -2, -2, 3, 5) == -4;
    assert Score(s, t, Match, -2, -2, 4, 1) == -4;
    assert Score(s, t, Match, -2, -2, 4, 2) == 0;
    assert Score(s, t, Match, -2, -2, 4, 3) == 1;
    assert Score(s, t, Match, -2, -2, 4, 4) == -1;
    assert Score(s, t, Match, -2, -2, 4, 5) == -3;
    var r := LastRow(s, t, Match, -2, -2);
    assert r[0] == -8 && r[1] == -4 && r[2] == 0 && r[3] == 1 && r[4] == -1 && r[5] == -3;
  }

  lemma Row_A_A()
    ensures LastRow("A", "A", Match, -2, -2) == [-2, 2]
  {
    var s, t := "A", "A";
    assert Score(s, t, Match, -2, -2, 1, 1) == 2;
    var r := LastRow(s, t, Match, -2, -2);
    assert r[0] == -2 && r[1] == 2;
  }

  lemma Row_A_T()
    ensures LastRow("A", "T", Match, -2, -2) == [-2, -1]
  {
    var s, t := "A", "T";
    assert Score(s, t, Match, -2, -2, 1, 1) == -1;
    var r := LastRow(s, t, Match, -2, -2);
    assert r[0] == -2 && r[1] == -1;
  }

  lemma Row_A_TA()
    ensures LastRow("A", "TA", Match, -2, -2) == [-2, -1, 0]
  {
    var s, t := "A", "TA";
    assert Score(s, t, Match, -2, -2, 1, 1) == -1;
    assert Score(s, t, Match, -2, -2, 1, 2) == 0;
    var r := LastRow(s, t, Match, -2, -2);
    assert r[0] == -2 && r[1] == -1 && r[2] == 0;
  }

  lemma Row_AG_T()
    ensures LastRow("AG", "T", Match, -2, -2) == [-4, -3]
  {
    var s, t := "AG", "T";
    assert Score(s, t, Match, -2, -2, 1, 1) == -1;
    assert Score(s, t, Match, -2, -2, 2, 1) == -3;
    var r := LastRow(s, t, Match, -2, -2);
    assert r[0] == -4 && r[1] == -3;
  }

  lemma Row_C_TG()
    ensures LastRow("C", "TG", Match, -2, -2) == [-2, -1, -3]
  {
    var s, t := "C", "TG";
    assert Score(s, t, Match, -2, -2, 1, 1) == -1;
    assert Score(s, t, Match, -2, -2, 1, 2) == -3;
    var r := LastRow(s, t, Match, -2, -2);
    assert r[0] == -2 && r[1] == -1 && r[2] == -3;
  }

  lemma Row_G_GT()
    ensures LastRow("G", "GT", Match, -2, -2) == [-2, 2, 0]
  {
    var s, t := "G", "GT";
    assert Score(s, t, Match, -2, -2, 1, 1) == 2;
    assert Score(s, t, Match, -2, -2, 1, 2) == 0;
    var r := LastRow(s, t, Match, -2, -2);
    assert r[0] == -2 && r[1] == 2 && r[2] == 0;
  }

  lemma Upper_CG_TG()
    ensures LastRow("CG"[..1], "TG", Match, -2, -2) == [-2, -1, -3]
  {
    assert "CG"[..1] == "C";
    Row_C_TG();
  }

  lemma Lower_CG_TG()
    ensures LastRow(Reverse("CG"[1..]), Reverse("TG"), Match, -2, -2) == [-2, 2, 0]
  {
    var s, t := Reverse("CG"[1..]), Reverse("TG");
    assert s[0] == 'G';
    assert t[0] == 'G' && t[1] == 'T';
    assert s == "G" && t == "GT";
    Row_G_GT();
  }

  lemma Rows_CG_TG()
    ensures (LastRow("CG"[..1], "TG", Match, -2, -2), LastRow(Reverse("CG"[1..]), Reverse("TG"), Match, -2, -2)) ==
      ([-2, -1, -3], [-2, 2, 0])
  {
    Upper_CG_TG();
    Lower_CG_TG();
  }

  lemma Peak_CG_TG()
    ensures IsFirstMaximum(Add([-2, -1, -3], Reverse([-2, 2, 0])), 1)
  {
    var combined := Add([-2, -1, -3], Reverse([-2, 2, 0]));
    assert combined[0] == -2 && combined[1] == 1 && combined[2] == -5;
  }

  lemma Split_CG_TG()
    ensures SplitIndex("CG", "TG", Match, -2, -2) == 1
  {
    Rows_CG_TG();
    Peak_CG_TG();
    SplitAt("CG", "TG", Match, -2, -2, 1, [-2, -1, -3], [-2, 2, 0], 1);
  }

  lemma Align_C_T()
    ensures Align("C", "T", Match, -2, -2) == Alignment([Some('C')], [Some('T')], -1)
  {
    var s, t := "C", "T";
    var c := Costs(Match, 'T', "C");
    assert c[0] == Match('T', 'C');
    AlignAtSingleTarget(s, 'T', Match, -2, -2, 0);
    assert Padded(s) == [Some('C')];
    assert Placed(1, 0, 'T') == [Some('T')];
  }

  lemma Left_CG_TG()
    ensures Align("CG"[..1], "TG"[..1], Match, -2, -2) == Alignment([Some('C')], [Some('T')], -1)
  {
    assert "CG"[..1] == "C" && "TG"[..1] == "T";
    Align_C_T();
  }

  lemma Right_CG_TG()
    ensures Align("CG"[1..], "TG"[1..], Match, -2, -2) == Alignment([Some('G')], [Some('G')], 2)
  {
    assert "CG"[1..] == "G" && "TG"[1..] == "G";
    AlignSameItem('G');
  }

  lemma Halves_CG_TG()
    ensures (Align("CG"[..1], "TG"[..1], Match, -2, -2), Align("CG"[1..], "TG"[1..], Match, -2, -2)) ==
      (Alignment([Some('C')], [Some('T')], -1),
       Alignment([Some('G')], [Some('G')], 2))
  {
    Left_CG_TG();
    Right_CG_TG();
  }

  lemma Step_CG_TG()
    ensures var left, right := Alignment([Some('C')], [Some('T')], -1),
        Alignment([Some('G')], [Some('G')], 2);
      Align("CG", "TG", Match, -2, -2) ==
        Alignment(left.source + right.source, left.target + right.target, left.score + right.score)
  {
    Split_CG_TG();
    Halves_CG_TG();
    AlignJoin("CG", "TG", Match, -2, -2, 1, 1, Alignment([Some('C')], [Some('T')], -1),
      Alignment([Some('G')], [Some('G')], 2));
  }

  lemma Join_CG_TG()
    ensures var left, right := Alignment([Some('C')], [Some('T')], -1),
        Alignment([Some('G')], [Some('G')], 2);
      Alignment([Some('C'), Some('G')], [Some('T'), Some('G')], 1) ==
        Alignment(left.source + right.source, left.target + right.target, left.score + right.score)
  {
  }

  lemma Align_CG_TG()
    ensures Align("CG", "TG", Match, -2, -2) == Alignment([Some('C'), Some('G')], [Some('T'), Some('G')], 1)
  {
    Step_CG_TG();
    Join_CG_TG();
  }

  lemma Align_C_CA()
    ensures Align("C", "CA", Match, -2, -2) == Alignment([Some('C'), None], [Some('C'), Some('A')], 0)
  {
    var s, t := "C", "CA";
    var c := Costs(Match, 'C', "CA");
    assert c[0] == Match('C', 'C') && c[1] == Match('C', 'A');
    AlignAtSingleSource(t, 'C', Match, -2, -2, 0);
    assert Padded(t) == [Some('C'), Some('A')];
    assert Placed(2, 0, 'C') == [Some('C'), None];
  }

  lemma Align_CA_C()
    ensures Align("CA", "C", Match, -2, -2) == Alignment([Some('C'), Some('A')], [Some('C'), None], 0)
  {
    var s, t := "CA", "C";
    var c := Costs(Match, 'C', "CA");
    assert c[0] == Match('C', 'C') && c[1] == Match('C', 'A');
    AlignAtSingleTarget(s, 'C', Match, -2, -2, 0);
    assert Padded(s) == [Some('C'), Some('A')];
    assert Placed(2, 0, 'C') == [Some('C'), None];
  }

  lemma Row_CG_TGC()
    ensures LastRow("CG", "TGC", Match, -2, -2) == [-4, -3, 1, -1]
  {
    var s, t := "CG", "TGC";
    assert Score(s, t, Match, -2, -2, 1, 1) == -1;
    assert Score(s, t, Match, -2, -2, 1, 2) == -3;
    assert Score(s, t, Match, -2, -2, 1, 3) == -2;
    assert Score(s, t, Match, -2, -2, 2, 1) == -3;
    assert Score(s, t, Match, -2, -2, 2, 2) == 1;
    assert Score(s, t, Match, -2, -2, 2, 3) == -1;
    var r := LastRow(s, t, Match, -2, -2);
    assert r[0] == -4 && r[1] == -3 && r[2] == 1 && r[3] == -1;
  }

  lemma Row_AC_CGT()
    ensures LastRow("AC", "CGT", Match, -2, -2) == [-4, 0, -2, -4]
  {
    var s, t := "AC", "CGT";
    assert Score(s, t, Match, -2, -2, 1, 1) == -1;
    assert Score(s, t, Match, -2, -2, 1, 2) == -3;
    assert Score(s, t, Match, -2, -2, 1, 3) == -5;
    assert Score(s, t, Match, -2, -2, 2, 1) == 0;
    assert Score(s, t, Match, -2, -2, 2, 2) == -2;
    assert Score(s, t, Match, -2, -2, 2, 3) == -4;
    var r := LastRow(s, t, Match, -2, -2);
    assert r[0] == -4 && r[1] == 0 && r[2] == -2 && r[3] == -4;
  }

  lemma Upper_CGCA_TGC()
    ensures LastRow("CGCA"[..2], "TGC", Match, -2, -2) == [-4, -3, 1, -1]
  {
    assert "CGCA"[..2] == "CG";
    Row_CG_TGC();
  }

  lemma Lower_CGCA_TGC()
    ensures LastRow(Reverse("CGCA"[2..]), Reverse("TGC"), Match, -2, -2) == [-4, 0, -2, -4]
  {
    var s, t := Reverse("CGCA"[2..]), Reverse("TGC");
    assert s[0] == 'A' && s[1] == 'C';
    assert t[0] == 'C' && t[1] == 'G' && t[2] == 'T';
    assert s == "AC" && t == "CGT";
    Row_AC_CGT();
  }

  lemma Rows_CGCA_TGC()
    ensures (LastRow("CGCA"[..2], "TGC", Match, -2, -2), LastRow(Reverse("CGCA"[2..]), Reverse("TGC"), Match, -2, -2)) ==
      ([-4, -3, 1, -1], [-4, 0, -2, -4])
  {
    Upper_CGCA_TGC();
    Lower_CGCA_TGC();
  }

  lemma Peak_CGCA_TGC()
    ensures IsFirstMaximum(Add([-4, -3, 1, -1], Reverse([-4, 0, -2, -4])), 2)
  {
    var combined := Add([-4, -3, 1, -1], Reverse([-4, 0, -2, -4]));
    assert combined[0] == -8 && combined[1] == -5 && combined[2] == 1 && combined[3] == -5;
  }

  lemma Split_CGCA_TGC()
    ensures SplitIndex("CGCA", "TGC", Match, -2, -2) == 2
  {
    Rows_CGCA_TGC();
    Peak_CGCA_TGC();
    SplitAt("CGCA", "TGC", Match, -2, -2, 2, [-4, -3, 1, -1], [-4, 0, -2, -4], 2);
  }

  lemma Left_CGCA_TGC()
    ensures Align("CGCA"[..2], "TGC"[..2], Match, -2, -2) == Alignment([Some('C'), Some('G')], [Some('T'), Some('G')], 1)
  {
    assert "CGCA"[..2] == "CG" && "TGC"[..2] == "TG";
    Align_CG_TG();
  }

  lemma Right_CGCA_TGC()
    ensures Align("CGCA"[2..], "TGC"[2..], Match, -2, -2) == Alignment([Some('C'), Some('A')], [Some('C'), None], 0)
  {
    assert "CGCA"[2..] == "CA" && "TGC"[2..] == "C";
    Align_CA_C();
  }

  lemma Halves_CGCA_TGC()
    ensures (Align("CGCA"[..2], "TGC"[..2], Match, -2, -2), Align("CGCA"[2..], "TGC"[2..], Match, -2, -2)) ==
      (Alignment([Some('C'), Some('G')], [Some('T'), Some('G')], 1),
       Alignment([Some('C'), Some('A')], [Some('C'), None], 0))
  {
    Left_CGCA_TGC();
    Right_CGCA_TGC();
  }

  lemma Step_CGCA_TGC()
    ensures var left, right := Alignment([Some('C'), Some('G')], [Some('T'), Some('G')], 1),
        Alignment([Some('C'), Some('A')], [Some('C'), None], 0);
      Align("CGCA", "TGC", Match, -2, -2) ==
        Alignment(left.source + right.source, left.target + right.target, left.score + right.score)
  {
    Split_CGCA_TGC();
    Halves_CGCA_TGC();
    AlignJoin("CGCA", "TGC", Match, -2, -2, 2, 2, Alignment([Some('C'), Some('G')], [Some('T'), Some('G')], 1),
      Alignment([Some('C'), Some('A')], [Some('C'), None], 0));
  }

  lemma Join_CGCA_TGC()
    ensures var left, right := Alignment([Some('C'), Some('G')], [Some('T'), Some('G')], 1),
        Alignment([Some('C'), Some('A')], [Some('C'), None], 0);
      Alignment([Some('C'), Some('G'), Some('C'), Some('A')], [Some('T'), Some('G'), Some('C'), None], 1) ==
        Alignment(left.source + right.source, left.target + right.target, left.score + right.score)
  {
  }

  lemma Align_CGCA_TGC()
    ensures Align("CGCA", "TGC", Match, -2, -2) == Alignment([Some('C'), Some('G'), Some('C'), Some('A')], [Some('T'), Some('G'), Some('C'), None], 1)
  {
    Step_CGCA_TGC();
    Join_CGCA_TGC();
  }

  lemma Row_T_TA()
    ensures LastRow("T", "TA", Match, -2, -2) == [-2, 2, 0]
  {
    var s, t := "T", "TA";
    assert Score(s, t, Match, -2, -2, 1, 1) == 2;
    assert Score(s, t, Match, -2, -2, 1, 2) == 0;
    var r := LastRow(s, t, Match, -2, -2);
    assert r[0] == -2 && r[1] == 2 && r[2] == 0;
  }

  lemma Row_A_AT()
    ensures LastRow("A", "AT", Match, -2, -2) == [-2, 2, 0]
  {
    var s, t := "A", "AT";
    assert Score(s, t, Match, -2, -2, 1, 1) == 2;
    assert Score(s, t, Match, -2, -2, 1, 2) == 0;
    var r := LastRow(s, t, Match, -2, -2);
    assert r[0] == -2 && r[1] == 2 && r[2] == 0;
  }

  lemma Upper_TA_TA()
    ensures LastRow("TA"[..1], "TA", Match, -2, -2) == [-2, 2, 0]
  {
    assert "TA"[..1] == "T";
    Row_T_TA();
  }

  lemma Lower_TA_TA()
    ensures LastRow(Reverse("TA"[1..]), Reverse("TA"), Match, -2, -2) == [-2, 2, 0]
  {
    var s, t := Reverse("TA"[1..]), Reverse("TA");
    assert s[0] == 'A';
    assert t[0] == 'A' && t[1] == 'T';
    assert s == "A" && t == "AT";
    Row_A_AT();
  }

  lemma Rows_TA_TA()
    ensures (LastRow("TA"[..1], "TA", Match, -2, -2), LastRow(Reverse("TA"[1..]), Reverse("TA"), Match, -2, -2)) ==
      ([-2, 2, 0], [-2, 2, 0])
  {
    Upper_TA_TA();
    Lower_TA_TA();
  }

  lemma Peak_TA_TA()
    ensures IsFirstMaximum(Add([-2, 2, 0], Reverse([-2, 2, 0])), 1)
  {
    var combined := Add([-2, 2, 0], Reverse([-2, 2, 0]));
    assert combined[0] == -2 && combined[1] == 4 && combined[2] == -2;
  }

  lemma Split_TA_TA()
    ensures SplitIndex("TA", "TA", Match, -2, -2) == 1
  {
    Rows_TA_TA();
    Peak_TA_TA();
    SplitAt("TA", "TA", Match, -2, -2, 1, [-2, 2, 0], [-2, 2, 0], 1);
  }

  lemma Left_TA_TA()
    ensures Align("TA"[..1], "TA"[..1], Match, -2, -2) == Alignment([Some('T')], [Some('T')], 2)
  {
    assert "TA"[..1] == "T" && "TA"[..1] == "T";
    AlignSameItem('T');
  }

  lemma Right_TA_TA()
    ensures Align("TA"[1..], "TA"[1..], Match, -2, -2) == Alignment([Some('A')], [Some('A')], 2)
  {
    assert "TA"[1..] == "A" && "TA"[1..] == "A";
    AlignSameItem('A');
  }

  lemma Halves_TA_TA()
    ensures (Align("TA"[..1], "TA"[..1], Match, -2, -2), Align("TA"[1..], "TA"[1..], Match, -2, -2)) ==
      (Alignment([Some('T')], [Some('T')], 2),
       Alignment([Some('A')], [Some('A')], 2))
  {
    Left_TA_TA();
    Right_TA_TA();
  }

  lemma Step_TA_TA()
    ensures var left, right := Alignment([Some('T')], [Some('T')], 2),
        Alignment([Some('A')], [Some('A')], 2);
      Align("TA", "TA", Match, -2, -2) ==
        Alignment(left.source + right.source, left.target + right.target, left.score + right.score)
  {
    Split_TA_TA();
    Halves_TA_TA();
    AlignJoin("TA", "TA", Match, -2, -2, 1, 1, Alignment([Some('T')], [Some('T')], 2),
      Alignment([Some('A')], [Some('A')], 2));
  }

  lemma Join_TA_TA()
    ensures var left, right := Alignment([Some('T')], [Some('T')], 2),
        Alignment([Some('A')], [Some('A')], 2);
      Alignment([Some('T'), Some('A')], [Some('T'), Some('A')], 4) ==
        Alignment(left.source + right.source, left.target + right.target, left.score + right.score)
  {
  }

  lemma Align_TA_TA()
    ensures Align("TA", "TA", Match, -2, -2) == Alignment([Some('T'), Some('A')], [Some('T'), Some('A')], 4)
  {
    Step_TA_TA();
    Join_TA_TA();
  }

  lemma Align_AG_Empty()
    ensures Align("AG", [], Match, -2, -2) == Alignment([Some('A'), Some('G')], [None, None], -4)
  {
    var s, t := "AG", [];
    AlignEmptyCases(s, t, Match, -2, -2);
    assert Padded(s) == [Some('A'), Some('G')];
    assert Gaps<char>(2) == [None, None];
  }

  lemma Row_AG_TA()
    ensures LastRow("AG", "TA", Match, -2, -2) == [-4, -3, -2]
  {
    var s, t := "AG", "TA";
    assert Score(s, t, Match, -2, -2, 1, 1) == -1;
    assert Score(s, t, Match, -2, -2, 1, 2) == 0;
    assert Score(s, t, Match, -2, -2, 2, 1) == -3;
    assert Score(s, t, Match, -2, -2, 2, 2) == -2;
    var r := LastRow(s, t, Match, -2, -2);
    assert r[0] == -4 && r[1] == -3 && r[2] == -2;
  }

  lemma Row_AT_AT()
    ensures LastRow("AT", "AT", Match, -2, -2) == [-4, 0, 4]
  {
    var s, t := "AT", "AT";
    assert Score(s, t, Match, -2, -2, 1, 1) == 2;
    assert Score(s, t, Match, -2, -2, 1, 2) == 0;
    assert Score(s, t, Match, -2, -2, 2, 1) == 0;
    assert Score(s, t, Match, -2, -2, 2, 2) == 4;
    var r := LastRow(s, t, Match, -2, -2);
    assert r[0] == -4 && r[1] == 0 && r[2] == 4;
  }

  lemma Upper_AGTA_TA()
    ensures LastRow("AGTA"[..2], "TA", Match, -2, -2) == [-4, -3, -2]
  {
    assert "AGTA"[..2] == "AG";
    Row_AG_TA();
  }

  lemma Lower_AGTA_TA()
    ensures LastRow(Reverse("AGTA"[2..]), Reverse("TA"), Match, -2, -2) == [-4, 0, 4]
  {
    var s, t := Reverse("AGTA"[2..]), Reverse("TA");
    assert s[0] == 'A' && s[1] == 'T';
    assert t[0] == 'A' && t[1] == 'T';
    assert s == "AT" && t == "AT";
    Row_AT_AT();
  }

  lemma Rows_AGTA_TA()
    ensures (LastRow("AGTA"[..2], "TA", Match, -2, -2), LastRow(Reverse("AGTA"[2..]), Reverse("TA"), Match, -2, -2)) ==
      ([-4, -3, -2], [-4, 0, 4])
  {
    Upper_AGTA_TA();
    Lower_AGTA_TA();
  }

  lemma Peak_AGTA_TA()
    ensures IsFirstMaximum(Add([-4, -3, -2], Reverse([-4, 0, 4])), 0)
  {
    var combined := Add([-4, -3, -2], Reverse([-4, 0, 4]));
    assert combined[0] == 0 && combined[1] == -3 && combined[2] == -6;
  }

  lemma Split_AGTA_TA()
    ensures SplitIndex("AGTA", "TA", Match, -2, -2) == 0
  {
    Rows_AGTA_TA();
    Peak_AGTA_TA();
    SplitAt("AGTA", "TA", Match, -2, -2, 2, [-4, -3, -2], [-4, 0, 4], 0);
  }

  lemma Left_AGTA_TA()
    ensures Align("AGTA"[..2], "TA"[..0], Match, -2, -2) == Alignment([Some('A'), Some('G')], [None, None], -4)
  {
    assert "AGTA"[..2] == "AG" && "TA"[..0] == [];
    Align_AG_Empty();
  }

  lemma Right_AGTA_TA()
    ensures Align("AGTA"[2..], "TA"[0..], Match, -2, -2) == Alignment([Some('T'), Some('A')], [Some('T'), Some('A')], 4)
  {
    assert "AGTA"[2..] == "TA" && "TA"[0..] == "TA";
    Align_TA_TA();
  }

  lemma Halves_AGTA_TA()
    ensures (Align("AGTA"[..2], "TA"[..0], Match, -2, -2), Align("AGTA"[2..], "TA"[0..], Match, -2, -2)) ==
      (Alignment([Some('A'), Some('G')], [None, None], -4),
       Alignment([Some('T'), Some('A')], [Some('T'), Some('A')], 4))
  {
    Left_AGTA_TA();
    Right_AGTA_TA();
  }

  lemma Step_AGTA_TA()
    ensures var left, right := Alignment([Some('A'), Some('G')], [None, None], -4),
        Alignment([Some('T'), Some('A')], [Some('T'), Some('A')], 4);
      Align("AGTA", "TA", Match, -2, -2) ==
        Alignment(left.source + right.source, left.target + right.target, left.score + right.score)
  {
    Split_AGTA_TA();
    Halves_AGTA_TA();
    AlignJoin("AGTA", "TA", Match, -2, -2, 2, 0, Alignment([Some('A'), Some('G')], [None, None], -4),
      Alignment([Some('T'), Some('A')], [Some('T'), Some('A')], 4));
  }

  lemma Join_AGTA_TA()
    ensures var left, right := Alignment([Some('A'), Some('G')], [None, None], -4),
        Alignment([Some('T'), Some('A')], [Some('T'), Some('A')], 4);
      Alignment([Some('A'), Some('G'), Some('T'), Some('A')], [None, None, Some('T'), Some('A')], 0) ==
        Alignment(left.source + right.source, left.target + right.target, left.score + right.score)
  {
  }

  lemma Align_AGTA_TA()
    ensures Align("AGTA", "TA", Match, -2, -2) == Alignment([Some('A'), Some('G'), Some('T'), Some('A')], [None, None, Some('T'), Some('A')], 0)
  {
    Step_AGTA_TA();
    Join_AGTA_TA();
  }

  lemma Upper_AGTACGCA_TATGC()
    ensures LastRow("AGTACGCA"[..4], "TATGC", Match, -2, -2) == [-8, -4, 0, -2, -1, -3]
  {
    assert "AGTACGCA"[..4] == "AGTA";
    Row_AGTA_TATGC();
  }

  lemma Lower_AGTACGCA_TATGC()
    ensures LastRow(Reverse("AGTACGCA"[4..]), Reverse("TATGC"), Match, -2, -2) == [-8, -4, 0, 1, -1, -3]
  {
    var s, t := Reverse("AGTACGCA"[4..]), Reverse("TATGC");
    assert s[0] == 'A' && s[1] == 'C' && s[2] == 'G' && s[3] == 'C';
    assert t[0] == 'C' && t[1] == 'G' && t[2] == 'T' && t[3] == 'A' && t[4] == 'T';
    assert s == "ACGC" && t == "CGTAT";
    Row_ACGC_CGTAT();
  }

  lemma Rows_AGTACGCA_TATGC()
    ensures (LastRow("AGTACGCA"[..4], "TATGC", Match, -2, -2), LastRow(Reverse("AGTACGCA"[4..]), Reverse("TATGC"), Match, -2, -2)) ==
      ([-8, -4, 0, -2, -1, -3], [-8, -4, 0, 1, -1, -3])
  {
    Upper_AGTACGCA_TATGC();
    Lower_AGTACGCA_TATGC();
  }

  lemma Peak_AGTACGCA_TATGC()
    ensures IsFirstMaximum(Add([-8, -4, 0, -2, -1, -3], Reverse([-8, -4, 0, 1, -1, -3])), 2)
  {
    var combined := Add([-8, -4, 0, -2, -1, -3], Reverse([-8, -4, 0, 1, -1, -3]));
    assert combined[0] == -11 && combined[1] == -5 && combined[2] == 1 && combined[3] == -2 && combined[4] == -5 && combined[5] == -11;
  }

  lemma Split_AGTACGCA_TATGC()
    ensures SplitIndex("AGTACGCA", "TATGC", Match, -2, -2) == 2
  {
    Rows_AGTACGCA_TATGC();
    Peak_AGTACGCA_TATGC();
    SplitAt("AGTACGCA", "TATGC", Match, -2, -2, 4, [-8, -4, 0, -2, -1, -3], [-8, -4, 0, 1, -1, -3], 2);
  }

  lemma Left_AGTACGCA_TATGC()
    ensures Align("AGTACGCA"[..4], "TATGC"[..2], Match, -2, -2) == Alignment([Some('A'), Some('G'), Some('T'), Some('A')], [None, None, Some('T'), Some('A')], 0)
  {
    assert "AGTACGCA"[..4] == "AGTA" && "TATGC"[..2] == "TA";
    Align_AGTA_TA();
  }

  lemma Right_AGTACGCA_TATGC()
    ensures Align("AGTACGCA"[4..], "TATGC"[2..], Match, -2, -2) == Alignment([Some('C'), Some('G'), Some('C'), Some('A')], [Some('T'), Some('G'), Some('C'), None], 1)
  {
    assert "AGTACGCA"[4..] == "CGCA" && "TATGC"[2..] == "TGC";
    Align_CGCA_TGC();
  }

  lemma Halves_AGTACGCA_TATGC()
    ensures (Align("AGTACGCA"[..4], "TATGC"[..2], Match, -2, -2), Align("AGTACGCA"[4..], "TATGC"[2..], Match, -2, -2)) ==
      (Alignment([Some('A'), Some('G'), Some('T'), Some('A')], [None, None, Some('T'), Some('A')], 0),
       Alignment([Some('C'), Some('G'), Some('C'), Some('A')], [Some('T'), Some('G'), Some('C'), None], 1))
  {
    Left_AGTACGCA_TATGC();
    Right_AGTACGCA_TATGC();
  }

  lemma Step_AGTACGCA_TATGC()
    ensures var left, right := Alignment([Some('A'), Some('G'), Some('T'), Some('A')], [None, None, Some('T'), Some('A')], 0),
        Alignment([Some('C'), Some('G'), Some('C'), Some('A')], [Some('T'), Some('G'), Some('C'), None], 1);
      Align("AGTACGCA", "TATGC", Match, -2, -2) ==
        Alignment(left.source + right.source, left.target + right.target, left.score + right.score)
  {
    Split_AGTACGCA_TATGC();
    Halves_AGTACGCA_TATGC();
    AlignJoin("AGTACGCA", "TATGC", Match, -2, -2, 4, 2, Alignment([Some('A'), Some('G'), Some('T'), Some('A')], [None, None, Some('T'), Some('A')], 0),
      Alignment([Some('C'), Some('G'), Some('C'), Some('A')], [Some('T'), Some('G'), Some('C'), None], 1));
  }

  lemma Join_AGTACGCA_TATGC()
    ensures var left, right := Alignment([Some('A'), Some('G'), Some('T'), Some('A')], [None, None, Some('T'), Some('A')], 0),
        Alignment([Some('C'), Some('G'), Some('C'), Some('A')], [Some('T'), Some('G'), Some('C'), None], 1);
      Alignment([Some('A'), Some('G'), Some('T'), Some('A'), Some('C'), Some('G'), Some('C'), Some('A')], [None, None, Some('T'), Some('A'), Some('T'), Some('G'), Some('C'), None], 1) ==
        Alignment(left.source + right.source, left.target + right.target, left.score + right.score)
  {
  }

  lemma Align_AGTACGCA_TATGC()
    ensures Align("AGTACGCA", "TATGC", Match, -2, -2) == Alignment([Some('A'), Some('G'), Some('T'), Some('A'), Some('C'), Some('G'), Some('C'), Some('A')], [None, None, Some('T'), Some('A'), Some('T'), Some('G'), Some('C'), None], 1)
  {
    Step_AGTACGCA_TATGC();
    Join_AGTACGCA_TATGC();
  }

  lemma Row_GAAA_GAAT()
    ensures LastRow("GAAA", "GAAT", Match, -2, -2) == [-8, -4, 0, 4, 5]
  {
    var s, t := "GAAA", "GAAT";
    assert Score(s, t, Match, -2, -2, 1, 1) == 2;
    assert Score(s, t, Match, -2, -2, 1, 2) == 0;
    assert Score(s, t, Match, -2, -2, 1, 3) == -2;
    assert Score(s, t, Match, -2, -2, 1, 4) == -4;
    assert Score(s, t, Match, -2, -2, 2, 1) == 0;
    assert Score(s, t, Match, -2, -2, 2, 2) == 4;
    assert Score(s, t, Match, -2, -2, 2, 3) == 2;
    assert Score(s, t, Match, -2, -2, 2, 4) == 0;
    assert Score(s, t, Match, -2, -2, 3, 1) == -2;
    assert Score(s, t, Match, -2, -2, 3, 2) == 2;
    assert Score(s, t, Match, -2, -2, 3, 3) == 6;
    assert Score(s, t, Match, -2, -2, 3, 4) == 4;
    assert Score(s, t, Match, -2, -2, 4, 1) == -4;
    assert Score(s, t, Match, -2, -2, 4, 2) == 0;
    assert Score(s, t, Match, -2, -2, 4, 3) == 4;
    assert Score(s, t, Match, -2, -2, 4, 4) == 5;
    var r := LastRow(s, t, Match, -2, -2);
    assert r[0] == -8 && r[1] == -4 && r[2] == 0 && r[3] == 4 && r[4] == 5;
  }

  lemma Row_TAAA_TAAG()
    ensures LastRow("TAAA", "TAAG", Match, -2, -2) == [-8, -4, 0, 4, 5]
  {
    var s, t := "TAAA", "TAAG";
    assert Score(s, t, Match, -2, -2, 1, 1) == 2;
    assert Score(s, t, Match, -2, -2, 1, 2) == 0;
    assert Score(s, t, Match, -2, -2, 1, 3) == -2;
    assert Score(s, t, Match, -2, -2, 1, 4) == -4;
    assert Score(s, t, Match, -2, -2, 2, 1) == 0;
    assert Score(s, t, Match, -2, -2, 2, 2) == 4;
    assert Score(s, t, Match, -2, -2, 2, 3) == 2;
    assert Score(s, t, Match, -2, -2, 2, 4) == 0;
    assert Score(s, t, Match, -2, -2, 3, 1) == -2;
    assert Score(s, t, Match, -2, -2, 3, 2) == 2;
    assert Score(s, t, Match, -2, -2, 3, 3) == 6;
    assert Score(s, t, Match, -2, -2, 3, 4) == 4;
    assert Score(s, t, Match, -2, -2, 4, 1) == -4;
    assert Score(s, t, Match, -2, -2, 4, 2) == 0;
    assert Score(s, t, Match, -2, -2, 4, 3) == 4;
    assert Score(s, t, Match, -2, -2, 4, 4) == 5;
    var r := LastRow(s, t, Match, -2, -2);
    assert r[0] == -8 && r[1] == -4 && r[2] == 0 && r[3] == 4 && r[4] == 5;
  }

  lemma Upper_GAAAAAAT_GAAT()
    ensures LastRow("GAAAAAAT"[..4], "GAAT", Match, -2, -2) == [-8, -4, 0, 4, 5]
  {
    assert "GAAAAAAT"[..4] == "GAAA";
    Row_GAAA_GAAT();
  }

  lemma Lower_GAAAAAAT_GAAT()
    ensures LastRow(Reverse("GAAAAAAT"[4..]), Reverse("GAAT"), Match, -2, -2) == [-8, -4, 0, 4, 5]
  {
    var s, t := Reverse("GAAAAAAT"[4..]), Reverse("GAAT");
    assert s[0] == 'T' && s[1] == 'A' && s[2] == 'A' && s[3] == 'A';
    assert t[0] == 'T' && t[1] == 'A' && t[2] == 'A' && t[3] == 'G';
    assert s == "TAAA" && t == "TAAG";
    Row_TAAA_TAAG();
  }

  lemma Rows_GAAAAAAT_GAAT()
    ensures (LastRow("GAAAAAAT"[..4], "GAAT", Match, -2, -2), LastRow(Reverse("GAAAAAAT"[4..]), Reverse("GAAT"), Match, -2, -2)) ==
      ([-8, -4, 0, 4, 5], [-8, -4, 0, 4, 5])
  {
    Upper_GAAAAAAT_GAAT();
    Lower_GAAAAAAT_GAAT();
  }

  lemma Peak_GAAAAAAT_GAAT()
    ensures IsFirstMaximum(Add([-8, -4, 0, 4, 5], Reverse([-8, -4, 0, 4, 5])), 1)
  {
    var combined := Add([-8, -4, 0, 4, 5], Reverse([-8, -4, 0, 4, 5]));
    assert combined[0] == -3 && combined[1] == 0 && combined[2] == 0 && combined[3] == 0 && combined[4] == -3;
  }

  lemma Split_GAAAAAAT_GAAT()
    ensures SplitIndex("GAAAAAAT", "GAAT", Match, -2, -2) == 1
  {
    Rows_GAAAAAAT_GAAT();
    Peak_GAAAAAAT_GAAT();
    SplitAt("GAAAAAAT", "GAAT", Match, -2, -2, 4, [-8, -4, 0, 4, 5], [-8, -4, 0, 4, 5], 1);
  }

  lemma Align_GAAA_G()
    ensures Align("GAAA", "G", Match, -2, -2) == Alignment([Some('G'), Some('A'), Some('A'), Some('A')], [Some('G'), None, None, None], -4)
  {
    var s, t := "GAAA", "G";
    var c := Costs(Match, 'G', "GAAA");
    assert c[0] == Match('G', 'G') && c[1] == Match('G', 'A') && c[2] == Match('G', 'A') && c[3] == Match('G', 'A');
    AlignAtSingleTarget(s, 'G', Match, -2, -2, 0);
    assert Padded(s) == [Some('G'), Some('A'), Some('A'), Some('A')];
    assert Placed(4, 0, 'G') == [Some('G'), None, None, None];
  }

  lemma Row_AA_AAT()
    ensures LastRow("AA", "AAT", Match, -2, -2) == [-4, 0, 4, 2]
  {
    var s, t := "AA", "AAT";
    assert Score(s, t, Match, -2, -2, 1, 1) == 2;
    assert Score(s, t, Match, -2, -2, 1, 2) == 0;
    assert Score(s, t, Match, -2, -2, 1, 3) == -2;
    assert Score(s, t, Match, -2, -2, 2, 1) == 0;
    assert Score(s, t, Match, -2, -2, 2, 2) == 4;
    assert Score(s, t, Match, -2, -2, 2, 3) == 2;
    var r := LastRow(s, t, Match, -2, -2);
    assert r[0] == -4 && r[1] == 0 && r[2] == 4 && r[3] == 2;
  }

  lemma Row_TA_TAA()
    ensures LastRow("TA", "TAA", Match, -2, -2) == [-4, 0, 4, 2]
  {
    var s, t := "TA", "TAA";
    assert Score(s, t, Match, -2, -2, 1, 1) == 2;
    assert Score(s, t, Match, -2, -2, 1, 2) == 0;
    assert Score(s, t, Match, -2, -2, 1, 3) == -2;
    assert Score(s, t, Match, -2, -2, 2, 1) == 0;
    assert Score(s, t, Match, -2, -2, 2, 2) == 4;
    assert Score(s, t, Match, -2, -2, 2, 3) == 2;
    var r := LastRow(s, t, Match, -2, -2);
    assert r[0] == -4 && r[1] == 0 && r[2] == 4 && r[3] == 2;
  }

  lemma Upper_AAAT_AAT()
    ensures LastRow("AAAT"[..2], "AAT", Match, -2, -2) == [-4, 0, 4, 2]
  {
    assert "AAAT"[..2] == "AA";
    Row_AA_AAT();
  }

  lemma Lower_AAAT_AAT()
    ensures LastRow(Reverse("AAAT"[2..]), Reverse("AAT"), Match, -2, -2) == [-4, 0, 4, 2]
  {
    var s, t := Reverse("AAAT"[2..]), Reverse("AAT");
    assert s[0] == 'T' && s[1] == 'A';
    assert t[0] == 'T' && t[1] == 'A' && t[2] == 'A';
    assert s == "TA" && t == "TAA";
    Row_TA_TAA();
  }

  lemma Rows_AAAT_AAT()
    ensures (LastRow("AAAT"[..2], "AAT", Match, -2, -2), LastRow(Reverse("AAAT"[2..]), Reverse("AAT"), Match, -2, -2)) ==
      ([-4, 0, 4, 2], [-4, 0, 4, 2])
  {
    Upper_AAAT_AAT();
    Lower_AAAT_AAT();
  }

  lemma Peak_AAAT_AAT()
    ensures IsFirstMaximum(Add([-4, 0, 4, 2], Reverse([-4, 0, 4, 2])), 1)
  {
    var combined := Add([-4, 0, 4, 2], Reverse([-4, 0, 4, 2]));
    assert combined[0] == -2 && combined[1] == 4 && combined[2] == 4 && combined[3] == -2;
  }

  lemma Split_AAAT_AAT()
    ensures SplitIndex("AAAT", "AAT", Match, -2, -2) == 1
  {
    Rows_AAAT_AAT();
    Peak_AAAT_AAT();
    SplitAt("AAAT", "AAT", Match, -2, -2, 2, [-4, 0, 4, 2], [-4, 0, 4, 2], 1);
  }

  lemma Align_AA_A()
    ensures Align("AA", "A", Match, -2, -2) == Alignment([Some('A'), Some('A')], [Some('A'), None], 0)
  {
    var s, t := "AA", "A";
    var c := Costs(Match, 'A', "AA");
    assert c[0] == Match('A', 'A') && c[1] == Match('A', 'A');
    AlignAtSingleTarget(s, 'A', Match, -2, -2, 0);
    assert Padded(s) == [Some('A'), Some('A')];
    assert Placed(2, 0, 'A') == [Some('A'), None];
  }

  lemma Upper_AT_AT()
    ensures LastRow("AT"[..1], "AT", Match, -2, -2) == [-2, 2, 0]
  {
    assert "AT"[..1] == "A";
    Row_A_AT();
  }

  lemma Lower_AT_AT()
    ensures LastRow(Reverse("AT"[1..]), Reverse("AT"), Match, -2, -2) == [-2, 2, 0]
  {
    var s, t := Reverse("AT"[1..]), Reverse("AT");
    assert s[0] == 'T';
    assert t[0] == 'T' && t[1] == 'A';
    assert s == "T" && t == "TA";
    Row_T_TA();
  }

  lemma Rows_AT_AT()
    ensures (LastRow("AT"[..1], "AT", Match, -2, -2), LastRow(Reverse("AT"[1..]), Reverse("AT"), Match, -2, -2)) ==
      ([-2, 2, 0], [-2, 2, 0])
  {
    Upper_AT_AT();
    Lower_AT_AT();
  }

  lemma Peak_AT_AT()
    ensures IsFirstMaximum(Add([-2, 2, 0], Reverse([-2, 2, 0])), 1)
  {
    var combined := Add([-2, 2, 0], Reverse([-2, 2, 0]));
    assert combined[0] == -2 && combined[1] == 4 && combined[2] == -2;
  }

  lemma Split_AT_AT()
    ensures SplitIndex("AT", "AT", Match, -2, -2) == 1
  {
    Rows_AT_AT();
    Peak_AT_AT();
    SplitAt("AT", "AT", Match, -2, -2, 1, [-2, 2, 0], [-2, 2, 0], 1);
  }

  lemma Left_AT_AT()
    ensures Align("AT"[..1], "AT"[..1], Match, -2, -2) == Alignment([Some('A')], [Some('A')], 2)
  {
    assert "AT"[..1] == "A" && "AT"[..1] == "A";
    AlignSameItem('A');
  }

  lemma Right_AT_AT()
    ensures Align("AT"[1..], "AT"[1..], Match, -2, -2) == Alignment([Some('T')], [Some('T')], 2)
  {
    assert "AT"[1..] == "T" && "AT"[1..] == "T";
    AlignSameItem('T');
  }

  lemma Halves_AT_AT()
    ensures (Align("AT"[..1], "AT"[..1], Match, -2, -2), Align("AT"[1..], "AT"[1..], Match, -2, -2)) ==
      (Alignment([Some('A')], [Some('A')], 2),
       Alignment([Some('T')], [Some('T')], 2))
  {
    Left_AT_AT();
    Right_AT_AT();
  }

  lemma Step_AT_AT()
    ensures var left, right := Alignment([Some('A')], [Some('A')], 2),
        Alignment([Some('T')], [Some('T')], 2);
      Align("AT", "AT", Match, -2, -2) ==
        Alignment(left.source + right.source, left.target + right.target, left.score + right.score)
  {
    Split_AT_AT();
    Halves_AT_AT();
    AlignJoin("AT", "AT", Match, -2, -2, 1, 1, Alignment([Some('A')], [Some('A')], 2),
      Alignment([Some('T')], [Some('T')], 2));
  }

  lemma Join_AT_AT()
    ensures var left, right := Alignment([Some('A')], [Some('A')], 2),
        Alignment([Some('T')], [Some('T')], 2);
      Alignment([Some('A'), Some('T')], [Some('A'), Some('T')], 4) ==
        Alignment(left.source + right.source, left.target + right.target, left.score + right.score)
  {
  }

  lemma Align_AT_AT()
    ensures Align("AT", "AT", Match, -2, -2) == Alignment([Some('A'), Some('T')], [Some('A'), Some('T')], 4)
  {
    Step_AT_AT();
    Join_AT_AT();
  }

  lemma Left_AAAT_AAT()
    ensures Align("AAAT"[..2], "AAT"[..1], Match, -2, -2) == Alignment([Some('A'), Some('A')], [Some('A'), None], 0)
  {
    assert "AAAT"[..2] == "AA" && "AAT"[..1] == "A";
    Align_AA_A();
  }

  lemma Right_AAAT_AAT()
    ensures Align("AAAT"[2..], "AAT"[1..], Match, -2, -2) == Alignment([Some('A'), Some('T')], [Some('A'), Some('T')], 4)
  {
    assert "AAAT"[2..] == "AT" && "AAT"[1..] == "AT";
    Align_AT_AT();
  }

  lemma Halves_AAAT_AAT()
    ensures (Align("AAAT"[..2], "AAT"[..1], Match, -2, -2), Align("AAAT"[2..], "AAT"[1..], Match, -2, -2)) ==
      (Alignment([Some('A'), Some('A')], [Some('A'), None], 0),
       Alignment([Some('A'), Some('T')], [Some('A'), Some('T')], 4))
  {
    Left_AAAT_AAT();
    Right_AAAT_AAT();
  }

  lemma Step_AAAT_AAT()
    ensures var left, right := Alignment([Some('A'), Some('A')], [Some('A'), None], 0),
        Alignment([Some('A'), Some('T')], [Some('A'), Some('T')], 4);
      Align("AAAT", "AAT", Match, -2, -2) ==
        Alignment(left.source + right.source, left.target + right.target, left.score + right.score)
  {
    Split_AAAT_AAT();
    Halves_AAAT_AAT();
    AlignJoin("AAAT", "AAT", Match, -2, -2, 2, 1, Alignment([Some('A'), Some('A')], [Some('A'), None], 0),
      Alignment([Some('A'), Some('T')], [Some('A'), Some('T')], 4));
  }

  lemma Join_AAAT_AAT()
    ensures var left, right := Alignment([Some('A'), Some('A')], [Some('A'), None], 0),
        Alignment([Some('A'), Some('T')], [Some('A'), Some('T')], 4);
      Alignment([Some('A'), Some('A'), Some('A'), Some('T')], [Some('A'), None, Some('A'), Some('T')], 4) ==
        Alignment(left.source + right.source, left.target + right.target, left.score + right.score)
  {
  }

  lemma Align_AAAT_AAT()
    ensures Align("AAAT", "AAT", Match, -2, -2) == Alignment([Some('A'), Some('A'), Some('A'), Some('T')], [Some('A'), None, Some('A'), Some('T')], 4)
  {
    Step_AAAT_AAT();
    Join_AAAT_AAT();
  }

  lemma Left_GAAAAAAT_GAAT()
    ensures Align("GAAAAAAT"[..4], "GAAT"[..1], Match, -2, -2) == Alignment([Some('G'), Some('A'), Some('A'), Some('A')], [Some('G'), None, None, None], -4)
  {
    assert "GAAAAAAT"[..4] == "GAAA" && "GAAT"[..1] == "G";
    Align_GAAA_G();
  }

  lemma Right_GAAAAAAT_GAAT()
    ensures Align("GAAAAAAT"[4..], "GAAT"[1..], Match, -2, -2) == Alignment([Some('A'), Some('A'), Some('A'), Some('T')], [Some('A'), None, Some('A'), Some('T')], 4)
  {
    assert "GAAAAAAT"[4..] == "AAAT" && "GAAT"[1..] == "AAT";
    Align_AAAT_AAT();
  }

  lemma Halves_GAAAAAAT_GAAT()
    ensures (Align("GAAAAAAT"[..4], "GAAT"[..1], Match, -2, -2), Align("GAAAAAAT"[4..], "GAAT"[1..], Match, -2, -2)) ==
      (Alignment([Some('G'), Some('A'), Some('A'), Some('A')], [Some('G'), None, None, None], -4),
       Alignment([Some('A'), Some('A'), Some('A'), Some('T')], [Some('A'), None, Some('A'), Some('T')], 4))
  {
    Left_GAAAAAAT_GAAT();
    Right_GAAAAAAT_GAAT();
  }

  lemma Step_GAAAAAAT_GAAT()
    ensures var left, right := Alignment([Some('G'), Some('A'), Some('A'), Some('A')], [Some('G'), None, None, None], -4),
        Alignment([Some('A'), Some('A'), Some('A'), Some('T')], [Some('A'), None, Some('A'), Some('T')], 4);
      Align("GAAAAAAT", "GAAT", Match, -2, -2) ==
        Alignment(left.source + right.source, left.target + right.target, left.score + right.score)
  {
    Split_GAAAAAAT_GAAT();
    Halves_GAAAAAAT_GAAT();
    AlignJoin("GAAAAAAT", "GAAT", Match, -2, -2, 4, 1, Alignment([Some('G'), Some('A'), Some('A'), Some('A')], [Some('G'), None, None, None], -4),
      Alignment([Some('A'), Some('A'), Some('A'), Some('T')], [Some('A'), None, Some('A'), Some('T')], 4));
  }

  lemma Join_GAAAAAAT_GAAT()
    ensures var left, right := Alignment([Some('G'), Some('A'), Some('A'), Some('A')], [Some('G'), None, None, None], -4),
        Alignment([Some('A'), Some('A'), Some('A'), Some('T')], [Some('A'), None, Some('A'), Some('T')], 4);
      Alignment([Some('G'), Some('A'), Some('A'), Some('A'), Some('A'), Some('A'), Some('A'), Some('T')], [Some('G'), None, None, None, Some('A'), None, Some('A'), Some('T')], 0) ==
        Alignment(left.source + right.source, left.target + right.target, left.score + right.score)
  {
  }

  lemma Align_GAAAAAAT_GAAT()
    ensures Align("GAAAAAAT", "GAAT", Match, -2, -2) == Alignment([Some('G'), Some('A'), Some('A'), Some('A'), Some('A'), Some('A'), Some('A'), Some('T')], [Some('G'), None, None, None, Some('A'), None, Some('A'), Some('T')], 0)
  {
    Step_GAAAAAAT_GAAT();
    Join_GAAAAAAT_GAAT();
  }

}
