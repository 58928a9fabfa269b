/** SQL conditions: three truth values and comparisons that a NULL operand makes unknown. */
module Sql {
  import opened Prelude

  datatype Truth = Yes | No | Null

  function Is(b: bool): Truth { if b then Yes else No }

  function And(a: Truth, b: Truth): Truth {
    if a.No? || b.No? then No else if a.Null? || b.Null? then Null else Yes
  }

  function Or(a: Truth, b: Truth): Truth {
    if a.Yes? || b.Yes? then Yes else if a.Null? || b.Null? then Null else No
  }

  function Not(a: Truth): Truth {
    match a
    case Yes => No
    case No => Yes
    case Null => Null
  }

  /** CASE WHEN c THEN x ELSE y: an unknown condition takes the ELSE. */
  function Case<T>(c: Truth, x: T, y: T): T { if c.Yes? then x else y }

  function Less(a: Option<int>, b: Option<int>): Truth {
    if a.None? || b.None? then Null else Is(a.value < b.value)
  }

  function AtMost(a: Option<int>, b: Option<int>): Truth {
    if a.None? || b.None? then Null else Is(a.value <= b.value)
  }

  function Plus(a: Option<int>, b: int): Option<int> {
    if a.None? then None else Some(a.value + b)
  }

  function Coalesce<T>(a: Option<T>, b: Option<T>): Option<T> { if a.None? then b else a }
}
