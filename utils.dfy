/** `clamp` of reference/expo-reference/lib/utils.ts, over the integers. */
module Utils {

  function Min(a: int, b: int): int { if a <= b then a else b }

  function Max(a: int, b: int): int { if a >= b then a else b }

  /** `Math.min(Math.max(value, min), max)`. */
  function Clamp(value: int, lo: int, hi: int): (r: int)
    ensures lo <= hi ==> lo <= r <= hi
    ensures lo <= value <= hi ==> r == value
    ensures value < lo <= hi ==> r == lo
    ensures lo <= hi < value ==> r == hi
    ensures hi < lo ==> r == hi
    ensures r == value || r == lo || r == hi
  {
    Min(Max(value, lo), hi)
  }

  /** Clamping a clamped value changes nothing, whatever the bounds. */
  lemma ClampIdempotent(value: int, lo: int, hi: int)
    ensures Clamp(Clamp(value, lo, hi), lo, hi) == Clamp(value, lo, hi)
  {
  }
}
