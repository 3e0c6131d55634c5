/** Shared vocabulary of the combat-loop model: optional values, engine time,
    scene object identities and Unity's integer helpers. */
module Basics {

  datatype Option<T> = None | Some(value: T)

  /** Engine time in seconds (`Time.time`), supplied by the caller as `now`.
      The model only compares and adds time values. */
  type Time = real

  /** Identity of a scene object (a Unity `GameObject`). */
  type EntityId = nat

  /** Unity's `Mathf.Clamp(int, int, int)`: the lower bound is tested first,
      so with an empty range `min > max` a value below `min` yields `min` and
      any other value yields `max`. */
  function Clamp(value: int, min: int, max: int): (r: int)
    ensures min <= max ==> min <= r <= max
    ensures min <= value <= max ==> r == value
    ensures value < min ==> r == min
    ensures min <= value && value > max ==> r == max
  {
    if value < min then min else if value > max then max else value
  }

  /** Unity's `Mathf.Min(int, int)`. */
  function Min(a: int, b: int): (r: int)
    ensures r <= a && r <= b
    ensures r == a || r == b
  {
    if a < b then a else b
  }

  function Max(a: int, b: int): (r: int)
    ensures r >= a && r >= b
    ensures r == a || r == b
  {
    if a < b then b else a
  }
}
