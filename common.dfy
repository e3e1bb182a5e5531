/** Shared value types and the clamp used by every signal. */
module Common {

  /** A value that may be absent: a missing feed field or a failed fetch. */
  datatype Option<T> = None | Some(value: T)

  /** `max(-1.0, min(1.0, x))`: the clamp applied to the dollar, yield and final scores. */
  function Clamp(x: real): (r: real)
    ensures -1.0 <= r <= 1.0
    ensures -1.0 <= x <= 1.0 ==> r == x
    ensures x > 1.0 ==> r == 1.0
    ensures x < -1.0 ==> r == -1.0
  {
    var upper := if x < 1.0 then x else 1.0;
    if upper > -1.0 then upper else -1.0
  }

  /** Clamping twice is the same as clamping once. */
  lemma ClampIdempotent(x: real)
    ensures Clamp(Clamp(x)) == Clamp(x)
  {
  }

  /** Clamping never reverses the order of two values. */
  lemma ClampMonotone(x: real, y: real)
    requires x <= y
    ensures Clamp(x) <= Clamp(y)
  {
  }
}
