/** Shared vocabulary: optional values, time units and facts about numbers and finite sets. */
module Prelude {

  datatype Option<+T> = None | Some(value: T)

  /** Instants, wall-clock readings and durations are integers counting microseconds. */
  const SECOND := 1_000_000
  const DAY := 86_400_000_000

  function Least(a: int, b: int): int { if a <= b then a else b }

  lemma Scale(gap: int, n: int)
    requires gap > 0 && n >= 1
    ensures gap * n >= gap
  {
  }

  lemma {:induction false} SubsetSize<T>(small: set<T>, large: set<T>)
    requires small <= large
    ensures |small| <= |large|
  {
    if small != {} {
      var x :| x in small;
      SubsetSize(small - {x}, large - {x});
    }
  }
}
