/**
 * `Math.round((part / whole) * 100)`, the rounded percentage the profile
 * completeness meter and the release checklist both display. JavaScript's
 * `Math.round` rounds halves up, so for whole numbers the result is
 * floor((200·part + whole) / (2·whole)).
 */
module Percent {

  /** The rounded percentage of `part` out of `whole`. */
  function RoundedPercent(part: nat, whole: nat): (r: nat)
    requires 0 < whole
    // r is the integer nearest to 100·part/whole, halves going up
    ensures 2 * whole * r <= 200 * part + whole < 2 * whole * r + 2 * whole
  {
    (200 * part + whole) / (2 * whole)
  }

  /** A percentage of a part no larger than the whole lies in [0, 100]. */
  lemma PercentInRange(part: nat, whole: nat)
    requires 0 < whole && part <= whole
    ensures RoundedPercent(part, whole) <= 100
  {
    var r := RoundedPercent(part, whole);
    if r > 100 {
      assert 2 * whole * r >= 2 * whole * 101 by {
        MultiplyMonotone(2 * whole, 101, r);
      }
      assert false;
    }
  }

  /** Nothing done is 0 %, everything done is 100 %. */
  lemma PercentEnds(whole: nat)
    requires 0 < whole
    ensures RoundedPercent(0, whole) == 0
    ensures RoundedPercent(whole, whole) == 100
  {
    var r := RoundedPercent(whole, whole);
    if r < 100 {
      MultiplyMonotone(2 * whole, r, 99);
    } else if r > 100 {
      MultiplyMonotone(2 * whole, 101, r);
    }
  }

  /** More done never shows a smaller percentage. */
  lemma PercentMonotone(p1: nat, p2: nat, whole: nat)
    requires 0 < whole && p1 <= p2
    ensures RoundedPercent(p1, whole) <= RoundedPercent(p2, whole)
  {
    var r1, r2 := RoundedPercent(p1, whole), RoundedPercent(p2, whole);
    if r1 > r2 {
      MultiplyMonotone(2 * whole, r2 + 1, r1);
      assert false;
    }
  }

  lemma MultiplyMonotone(a: nat, x: nat, y: nat)
    requires x <= y
    ensures a * x <= a * y
  {
  }
}
