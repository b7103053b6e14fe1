/** Small shared definitions. */
module Basics {
  datatype Option<+T> = None | Some(value: T)

  function Min(x: real, y: real): real { if y < x then y else x }

  function MinInt(x: int, y: int): int { if y < x then y else x }
}
