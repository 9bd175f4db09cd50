/** The two clamps the game uses on integers: health and cooldowns stop at
    zero, the aim angle and the throw power stop at their bounds, and the
    spear trail keeps at most its length. */
module Clamp {

  function Min(a: int, b: int): int
  {
    if a < b then a else b
  }

  function Max(a: int, b: int): int
  {
    if a < b then b else a
  }
}
