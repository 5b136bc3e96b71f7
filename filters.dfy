/** The two template filters: a dictionary lookup that falls back to 0, and
    a rounded percentage that falls back to 0. */
module Filters {
  import opened Common

  /** The first argument of `get_item`: a dictionary, or anything else (which
      has no `.get`). */
  datatype Argument = Dict(entries: map<string, real>) | NotDict

  /** `get_item`: the stored value, 0 for a missing key and 0 for an
      argument that is not a dictionary. */
  function GetItem(d: Argument, key: string): (r: real)
    ensures d.Dict? && key in d.entries ==> r == d.entries[key]
    ensures d.Dict? && key !in d.entries ==> r == 0.0
    ensures d.NotDict? ==> r == 0.0
  {
    match d
    case Dict(entries) => if key in entries then entries[key] else 0.0
    case NotDict => 0.0
  }

  /** `percent`: `value` and `total` after `float()`, `None` when the
      conversion raises. A failed conversion or a zero total gives 0. */
  function Percent(value: Option<real>, total: Option<real>): (r: int)
    ensures value.None? || total.None? ==> r == 0
    ensures total == Some(0.0) ==> r == 0
    ensures value.Some? && total.Some? && total.value != 0.0 ==>
      (value.value / total.value * 100.0) - 0.5 <= r as real <= (value.value / total.value * 100.0) + 0.5
    ensures value.Some? && total.Some? && total.value != 0.0 ==>
      var p := value.value / total.value * 100.0;
      (r as real == p - 0.5 || r as real == p + 0.5) ==> r % 2 == 0
  {
    if value.None? || total.None? || total.value == 0.0 then 0
    else RoundHalfEven(value.value / total.value * 100.0)
  }

  /** For a part of a positive total the percentage lies in 0..100. */
  lemma PercentOfPart(v: real, t: real)
    requires 0.0 <= v <= t && t > 0.0
    ensures 0 <= Percent(Some(v), Some(t)) <= 100
  {
    RatioBounds(v, t);
  }

  /** Nothing clamps the result: twice the total reads as 200. */
  lemma PercentNotClamped()
    ensures Percent(Some(2.0), Some(1.0)) == 200
  {
    RoundHalfEvenUnique(200.0, 200);
  }

  /** A half rounds to even, as Python's `round` does. */
  lemma PercentRoundsHalfToEven()
    ensures Percent(Some(1.0), Some(8.0)) == 12
    ensures Percent(Some(3.0), Some(8.0)) == 38
  {
    RoundHalfEvenUnique(12.5, 12);
    RoundHalfEvenUnique(37.5, 38);
  }

  /** A negative total or value is not guarded against either. */
  lemma PercentOfNegative()
    ensures Percent(Some(-1.0), Some(4.0)) == -25
  {
    RoundHalfEvenUnique(-25.0, -25);
  }
}
