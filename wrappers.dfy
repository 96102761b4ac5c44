/** Optional values: the model's reading of a TypeScript `T | undefined` or `T | null`. */
module Wrappers {

  datatype Option<+T> = None | Some(value: T)

  function Min(a: int, b: int): int { if a <= b then a else b }

  function Max(a: int, b: int): int { if a >= b then a else b }

  /** JavaScript's `Math.abs` on an integer. */
  function Abs(n: int): nat { if n < 0 then -n else n }
}
