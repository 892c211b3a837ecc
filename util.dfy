/** The helpers of util/common.go. */
module Util {
  import opened Values

  /** The conditional expression Go lacks. */
  function Ternary<T(==)>(expr: bool, whenTrue: T, whenFalse: T): (r: T)
    ensures r == whenTrue || r == whenFalse
    ensures whenTrue != whenFalse ==> (r == whenTrue <==> expr)
  {
    if expr then whenTrue else whenFalse
  }

  /** `Min` goes through `Ternary` and a type assertion that cannot fail. */
  function Min(a: int, b: int): (r: int)
    ensures r <= a && r <= b
    ensures r == a || r == b
    ensures r == a <==> a <= b
  {
    Ternary(a <= b, a, b)
  }

  function Max(a: int, b: int): (r: int)
    ensures r >= a && r >= b
    ensures r == a || r == b
    ensures r == a <==> a >= b
  {
    Ternary(a >= b, a, b)
  }

  /** The default stands in for nil only; any other value, even one equal to
      a zero value such as `false` or `""`, is kept. */
  function ValueOrDefault(v: Value, dft: Value): (r: Value)
    ensures v == Nil ==> r == dft
    ensures v != Nil ==> r == v
    ensures r == Nil <==> v == Nil && dft == Nil
  {
    if v == Nil then dft else v
  }
}
