/** `Math.min` / Python's `min` and `max` on two numbers. */
module Numbers {
  function Min(a: real, b: real): real
  {
    if a <= b then a else b
  }

  function Max(a: real, b: real): real
  {
    if a >= b then a else b
  }
}
