/** The vector primitives the aligner takes from NumPy, on Dafny sequences:
    gap-padded lines, running totals, first arg-min / arg-max, reversal,
    and the per-position application of a pairwise cost. */
module Vectors {

  /** One slot of a padded line: an item, or the gap that NumPy writes as `None`. */
  datatype Option<T> = None | Some(value: T)

  /** A line of `n` gaps (`full(shape, None)`). */
  function Gaps<T>(n: nat): seq<Option<T>>
  {
    seq(n, _ => None)
  }

  /** A sequence used unchanged as a padded line: every slot holds its item. */
  function Padded<T>(s: seq<T>): seq<Option<T>>
  {
    seq(|s|, k requires 0 <= k < |s| => Some(s[k]))
  }

  /** A line of `n` gaps with `x` written at `k` (`line[index] = subject`). */
  function Placed<T>(n: nat, k: nat, x: T): seq<Option<T>>
    requires k < n
  {
    Gaps(n)[k := Some(x)]
  }

  /** The items of a padded line with the gaps removed, in order. */
  function Strip<T>(p: seq<Option<T>>): seq<T>
    decreases |p|
  {
    if |p| == 0 then []
    else
      match p[0]
      case None => Strip(p[1..])
      case Some(x) => [x] + Strip(p[1..])
  }

  /** `flipud`: the sequence read back to front. */
  function Reverse<T>(s: seq<T>): seq<T>
  {
    seq(|s|, k requires 0 <= k < |s| => s[|s| - 1 - k])
  }

  /** `full(n, c)`: `n` copies of `c`. */
  function Full(n: nat, c: int): seq<int>
  {
    seq(n, _ => c)
  }

  function Max(a: int, b: int): int
  {
    if a >= b then a else b
  }

  /** Element-wise sum of two vectors of one length. */
  function Add(a: seq<int>, b: seq<int>): seq<int>
    requires |a| == |b|
  {
    seq(|a|, k requires 0 <= k < |a| => a[k] + b[k])
  }

  /** Element-wise difference of two vectors of one length. */
  function Subtract(a: seq<int>, b: seq<int>): seq<int>
    requires |a| == |b|
  {
    seq(|a|, k requires 0 <= k < |a| => a[k] - b[k])
  }

  /** A vector plus a scalar. */
  function Shift(a: seq<int>, c: int): seq<int>
  {
    seq(|a|, k requires 0 <= k < |a| => a[k] + c)
  }

  /** `fmax` on integer vectors of one length: the larger entry at each position. */
  function MaxEach(a: seq<int>, b: seq<int>): seq<int>
    requires |a| == |b|
  {
    seq(|a|, k requires 0 <= k < |a| => Max(a[k], b[k]))
  }

  /** `add.accumulate`: entry `k` is the sum of `s[0..k]`. */
  function Accumulate(s: seq<int>): (r: seq<int>)
    ensures |r| == |s|
    decreases |s|
  {
    if |s| == 0 then []
    else
      var p := Accumulate(s[..|s| - 1]);
      p + [(if |s| == 1 then 0 else p[|s| - 2]) + s[|s| - 1]]
  }

  /** The vector a cost function returns for `subject` against `target`:
      one cost per position of `target`, the pairwise cost applied there. */
  function Costs<T>(cost: (T, T) -> int, subject: T, target: seq<T>): seq<int>
  {
    seq(|target|, j requires 0 <= j < |target| => cost(subject, target[j]))
  }

  /** `argmax`: the lowest index holding the largest value. */
  function ArgMax(s: seq<int>): (k: nat)
    requires |s| > 0
    ensures k < |s|
    ensures forall i :: 0 <= i < |s| ==> s[i] <= s[k]
    ensures forall i :: 0 <= i < k ==> s[i] < s[k]
    decreases |s|
  {
    if |s| == 1 then 0
    else
      var k := ArgMax(s[..|s| - 1]);
      if s[|s| - 1] > s[k] then |s| - 1 else k
  }

  /** `argmin`: the lowest index holding the smallest value. */
  function ArgMin(s: seq<int>): (k: nat)
    requires |s| > 0
    ensures k < |s|
    ensures forall i :: 0 <= i < |s| ==> s[k] <= s[i]
    ensures forall i :: 0 <= i < k ==> s[k] < s[i]
    decreases |s|
  {
    if |s| == 1 then 0
    else
      var k := ArgMin(s[..|s| - 1]);
      if s[|s| - 1] < s[k] then |s| - 1 else k
  }

  /** `k` is the first position of the maximum of `s`. */
  predicate IsFirstMaximum(s: seq<int>, k: int)
  {
    0 <= k < |s| &&
    (forall i :: 0 <= i < |s| ==> s[i] <= s[k]) &&
    (forall i :: 0 <= i < k ==> s[i] < s[k])
  }

  /** The first maximum is unique, so `argmax` finds exactly it. */
  lemma ArgMaxIsTheFirstMaximum(s: seq<int>, k: int)
    requires |s| > 0
    ensures IsFirstMaximum(s, k) <==> k == ArgMax(s)
  {
  }

  /** `k` is the first position of the minimum of `s`. */
  predicate IsFirstMinimum(s: seq<int>, k: int)
  {
    0 <= k < |s| &&
    (forall i :: 0 <= i < |s| ==> s[k] <= s[i]) &&
    (forall i :: 0 <= i < k ==> s[k] < s[i])
  }

  /** The first minimum is unique, so `argmin` finds exactly it. */
  lemma ArgMinIsTheFirstMinimum(s: seq<int>, k: int)
    requires |s| > 0
    ensures IsFirstMinimum(s, k) <==> k == ArgMin(s)
  {
  }

  /** Running totals of `n` copies of `c` are `c, 2c, ..., n·c`. */
  lemma {:induction false} AccumulateFull(n: nat, c: int)
    ensures Accumulate(Full(n, c)) == seq(n, k => (k + 1) * c)
  {
    if n > 0 {
      assert Full(n, c)[..n - 1] == Full(n - 1, c);
      AccumulateFull(n - 1, c);
      if n > 1 {
        assert (n - 1 + 1) * c == (n - 2 + 1) * c + c;
      }
    }
  }

  /** Running totals of `0` followed by `n` copies of `c` are `0, c, ..., n·c`. */
  lemma {:induction false} AccumulateFromZero(n: nat, c: int)
    ensures Accumulate([0] + Full(n, c)) == seq(n + 1, k => k * c)
  {
    if n > 0 {
      assert ([0] + Full(n, c))[..n] == [0] + Full(n - 1, c);
      AccumulateFromZero(n - 1, c);
      assert n * c == (n - 1) * c + c;
    }
  }

  lemma SliceJoin<T>(s: seq<T>, i: nat)
    requires i <= |s|
    ensures s[..i] + s[i..] == s
  {
  }

  lemma {:induction false} StripConcat<T>(a: seq<Option<T>>, b: seq<Option<T>>)
    ensures Strip(a + b) == Strip(a) + Strip(b)
    decreases |a|
  {
    if |a| > 0 {
      assert (a + b)[0] == a[0] && (a + b)[1..] == a[1..] + b;
      StripConcat(a[1..], b);
    } else {
      assert a + b == b;
    }
  }

  lemma {:induction false} StripPadded<T>(s: seq<T>)
    ensures Strip(Padded(s)) == s
    decreases |s|
  {
    if |s| > 0 {
      assert Padded(s)[1..] == Padded(s[1..]);
      StripPadded(s[1..]);
    }
  }

  lemma {:induction false} StripGaps<T>(n: nat)
    ensures Strip(Gaps<T>(n)) == []
  {
    if n > 0 {
      assert Gaps<T>(n)[1..] == Gaps<T>(n - 1);
      StripGaps<T>(n - 1);
    }
  }

  lemma StripPlaced<T>(n: nat, k: nat, x: T)
    requires k < n
    ensures Strip(Placed(n, k, x)) == [x]
  {
    var p := Placed(n, k, x);
    assert p == Gaps<T>(k) + [Some(x)] + Gaps<T>(n - k - 1);
    StripConcat(Gaps<T>(k) + [Some(x)], Gaps<T>(n - k - 1));
    StripConcat(Gaps<T>(k), [Some(x)]);
    StripGaps<T>(k);
    StripGaps<T>(n - k - 1);
  }
}
