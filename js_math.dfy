/** The `Math.min` and `Math.max` of two numbers. */
module JsMath {
  function Min(x: real, y: real): real {
    if x < y then x else y
  }

  function Max(x: real, y: real): real {
    if x < y then y else x
  }
}
