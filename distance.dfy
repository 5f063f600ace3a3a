/** The two integer cost functions of tests/distance.py, written pairwise:
    `Costs(Match, a, b)` and `Costs(Symbol, a, b)` are the vectors
    `match_distance(a, b)` and `symbol_distance(a, b)` return. */
module Distance {

  /** `match_distance` at one position: `1 - 3·(a == b)`. */
  function Match<T(==)>(a: T, b: T): (d: int)
    ensures d == -2 <==> a == b
    ensures d == 1 <==> a != b
  {
    1 - (if a == b then 1 else 0) * 3
  }

  /** `match_distance` depends only on equality, so it is symmetric. */
  lemma MatchSymmetric<T>(a: T, b: T)
    ensures Match(a, b) == Match(b, a)
  {
  }

  /** `symbol_distance` at one position: the absolute difference of the
      character codes of `b` and `a`. */
  function Symbol(a: char, b: char): (d: int)
    ensures d >= 0
    ensures d == 0 <==> a == b
  {
    var diff := b as int - a as int;
    if diff < 0 then -diff else diff
  }

  lemma SymbolSymmetric(a: char, b: char)
    ensures Symbol(a, b) == Symbol(b, a)
  {
  }
}
