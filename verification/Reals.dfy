/** Magnitude, minimum and maximum of real numbers. */
module Reals {
  function Abs(x: real): real {
    if x < 0.0 then -x else x
  }

  function Min(x: real, y: real): real {
    if x <= y then x else y
  }

  function Max(x: real, y: real): real {
    if x >= y then x else y
  }

  /** Comparing a ratio is comparing against a multiple. */
  lemma {:induction false} RatioBelow(d: real, level: real, bound: real)
    requires level != 0.0
    ensures level > 0.0 ==> (d / level < bound <==> d < bound * level)
    ensures level < 0.0 ==> (d / level < bound <==> d > bound * level)
  {
    var q := d / level;
    assert q * level == d;
    if level > 0.0 {
      assert q < bound <==> q * level < bound * level;
    } else {
      assert q < bound <==> q * level > bound * level;
    }
  }
}
