/** `Math.round((part / whole) * 100)`, guarded against an empty whole, as an
    exact integer computation. */
module Percent {

  /** The rounded percentage, halves rounded up, or 0 when `whole` is 0. */
  function RoundedPercent(part: nat, whole: nat): (r: nat)
    ensures whole == 0 ==> r == 0
    ensures whole > 0 ==> 2 * whole * r <= 200 * part + whole < 2 * whole * (r + 1)
  {
    if whole > 0 then (200 * part + whole) / (2 * whole) else 0
  }

  /** Dividing out a positive factor keeps an inequality. */
  lemma CancelFactor(w: int, a: int, b: int)
    requires w > 0
    ensures w * a <= w * b ==> a <= b
    ensures w * a < w * b ==> a < b
  {
  }

  /** The bounds any rounded percentage of a part of a whole obeys. */
  lemma BracketBounds(part: nat, whole: nat, r: nat)
    requires part <= whole && whole > 0
    requires 2 * whole * r <= 200 * part + whole < 2 * whole * (r + 1)
    ensures r <= 100
    ensures part == 0 ==> r == 0
    ensures part == whole ==> r == 100
  {
    var w2r := 2 * whole * r;
    assert w2r == whole * (2 * r);
    assert whole * (2 * r) <= whole * 201;
    CancelFactor(whole, 2 * r, 201);
    var w2r1 := 2 * whole * (r + 1);
    assert w2r1 == whole * (2 * r + 2);
    if part == 0 {
      assert whole * (2 * r) < whole * 2;
      CancelFactor(whole, 2 * r, 2);
    }
    if part == whole {
      assert whole * 201 < whole * (2 * r + 2);
      CancelFactor(whole, 201, 2 * r + 2);
    }
  }

  /** A part of a whole rounds to a percentage in 0..100: 0 for none, 100 for all. */
  lemma PercentInRange(part: nat, whole: nat)
    requires part <= whole
    ensures 0 <= RoundedPercent(part, whole) <= 100
    ensures part == 0 ==> RoundedPercent(part, whole) == 0
    ensures 0 < whole && part == whole ==> RoundedPercent(part, whole) == 100
  {
    if whole > 0 {
      BracketBounds(part, whole, RoundedPercent(part, whole));
    }
  }

  /** More done never shows a lower percentage. */
  lemma PercentMonotone(p1: nat, p2: nat, whole: nat)
    requires p1 <= p2
    ensures RoundedPercent(p1, whole) <= RoundedPercent(p2, whole)
  {
    if whole > 0 {
      var r1, r2 := RoundedPercent(p1, whole), RoundedPercent(p2, whole);
      assert (2 * whole) * r1 < (2 * whole) * (r2 + 1);
      CancelFactor(2 * whole, r1, r2 + 1);
    }
  }
}
