/**
 * Tier arithmetic shared by the scaled value and the cash display: the weight
 * 1000^k of a tier, and the two normal forms that the promotion loops
 * (divide by 1000, go one tier up) and the demotion loop (multiply by 1000,
 * go one tier down) leave behind.
 */
module Tiers {
  import opened SuffixConstants

  /** The weight of tier k, 1000^k, for every integer k (tier -1 weighs 1/1000). */
  function Scale(k: int): (w: real)
    ensures w > 0.0
    decreases if k < 0 then -k else k
  {
    if k == 0 then 1.0
    else if k > 0 then 1000.0 * Scale(k - 1)
    else Scale(k + 1) / 1000.0
  }

  /** One tier up weighs a thousand times more. */
  lemma ScaleStep(k: int)
    ensures Scale(k + 1) == 1000.0 * Scale(k)
  {
  }

  /** The magnitude `n * 1000^k` that mantissa n stands for at tier index k. */
  ghost function Magnitude(n: real, k: int): real
  {
    n * Scale(k)
  }

  /** Dividing the mantissa by 1000 and going one tier up keeps the magnitude. */
  lemma PromoteStep(n: real, k: int)
    ensures Magnitude(n / 1000.0, k + 1) == Magnitude(n, k)
  {
    ScaleStep(k);
    var w := Scale(k);
    assert (n / 1000.0) * (1000.0 * w) == n * w;
  }

  /** Multiplying the mantissa by 1000 and going one tier down keeps the magnitude. */
  lemma DemoteStep(n: real, k: int)
    ensures Magnitude(n * 1000.0, k - 1) == Magnitude(n, k)
  {
    ScaleStep(k - 1);
    var w := Scale(k - 1);
    assert (n * 1000.0) * w == n * (1000.0 * w);
  }

  /** Magnitudes at one tier add and subtract like their mantissas. */
  lemma MagnitudeLinear(x: real, y: real, k: int)
    ensures Magnitude(x + y, k) == Magnitude(x, k) + Magnitude(y, k)
    ensures Magnitude(x - y, k) == Magnitude(x, k) - Magnitude(y, k)
  {
    var w := Scale(k);
    assert (x + y) * w == x * w + y * w;
    assert (x - y) * w == x * w - y * w;
  }

  /** A higher tier weighs at least a thousand times more than any lower one. */
  lemma {:induction false} ScaleGap(j: int, k: int)
    requires j < k
    ensures Scale(k) >= 1000.0 * Scale(j)
    decreases k - j
  {
    ScaleStep(k - 1);
    if j < k - 1 {
      ScaleGap(j, k - 1);
    }
  }

  /** Multiplying both sides by a positive weight keeps a strict order. */
  lemma LessTimesWeight(x: real, y: real, w: real)
    requires w > 0.0
    ensures x < y <==> x * w < y * w
  {
    if x < y {
      assert (y - x) * w > 0.0;
    } else {
      assert (x - y) * w >= 0.0;
    }
  }

  /** Real-number core of Outweighs, stated over plain weights. */
  lemma OutweighsByWeight(n1: real, w1: real, n2: real, w2: real)
    requires w1 > 0.0 && w2 >= 1000.0 * w1 && n2 >= 1.0
    requires n1 * w1 == n2 * w2
    ensures n1 >= 1000.0
  {
    assert n2 * w2 >= w2 by {
      assert (n2 - 1.0) * w2 >= 0.0;
    }
  }

  /**
   * When a mantissa of at least 1 at tier k2 weighs as much as n1 at a lower
   * tier k1, then n1 is at least 1000: it is not normalized.
   */
  lemma Outweighs(n1: real, k1: int, n2: real, k2: int)
    requires k1 < k2 && n2 >= 1.0
    requires Magnitude(n1, k1) == Magnitude(n2, k2)
    ensures n1 >= 1000.0
  {
    ScaleGap(k1, k2);
    OutweighsByWeight(n1, Scale(k1), n2, Scale(k2));
  }

  /** Two mantissas of the same weight at the same tier are equal. */
  lemma SameTier(n1: real, n2: real, k: int)
    requires Magnitude(n1, k) == Magnitude(n2, k)
    ensures n1 == n2
  {
    var w := Scale(k);
    assert (n1 - n2) * w == 0.0;
  }

  /**
   * (n, k) is what promotion from tier `floor` leaves for the magnitude
   * `total`: it weighs `total`, it lies between `floor` and the top tier, its
   * mantissa is below 1000 unless the top tier is reached, and each promotion
   * it took happened from a mantissa of at least 1000.
   */
  ghost predicate Promoted(total: real, floor: int, n: real, k: int)
  {
    && floor <= k <= MaxSuffixIndex
    && Magnitude(n, k) == total
    && (n < 1000.0 || k == MaxSuffixIndex)
    && (floor < k ==> n >= 1.0)
  }

  /** The promoted form of a magnitude is unique. */
  lemma PromotedUnique(total: real, floor: int, n1: real, k1: int, n2: real, k2: int)
    requires Promoted(total, floor, n1, k1) && Promoted(total, floor, n2, k2)
    ensures n1 == n2 && k1 == k2
  {
    if k1 < k2 {
      Outweighs(n1, k1, n2, k2);
    } else if k2 < k1 {
      Outweighs(n2, k2, n1, k1);
    } else {
      SameTier(n1, n2, k1);
    }
  }

  /**
   * (n, k) is what demotion from tier `ceiling` leaves for the magnitude
   * `total`: it weighs `total`; it stays at `ceiling` unless `total` is
   * positive; a demoted tier is non-negative and carries a mantissa in
   * (0, 1000); and a positive mantissa below 1 is only left at tier 0 or below.
   */
  ghost predicate Demoted(total: real, ceiling: int, n: real, k: int)
  {
    && k <= ceiling
    && Magnitude(n, k) == total
    && (total <= 0.0 ==> k == ceiling)
    && (k < ceiling ==> 0 <= k && 0.0 < n < 1000.0)
    && (total > 0.0 ==> n >= 1.0 || k <= 0)
  }

  /** A mantissa has the sign of the magnitude it stands for. */
  lemma SignOf(n: real, k: int)
    ensures n > 0.0 <==> Magnitude(n, k) > 0.0
    ensures n == 0.0 <==> Magnitude(n, k) == 0.0
  {
    var w := Scale(k);
    if n > 0.0 {
      assert n * w > 0.0;
    } else if n < 0.0 {
      assert n * w < 0.0;
    }
  }

  /** The demoted form of a magnitude is unique. */
  lemma DemotedUnique(total: real, ceiling: int, n1: real, k1: int, n2: real, k2: int)
    requires Demoted(total, ceiling, n1, k1) && Demoted(total, ceiling, n2, k2)
    ensures n1 == n2 && k1 == k2
  {
    if k1 < k2 {
      SignOf(n1, k1);
      Outweighs(n1, k1, n2, k2);
    } else if k2 < k1 {
      SignOf(n2, k2);
      Outweighs(n2, k2, n1, k1);
    } else {
      SameTier(n1, n2, k1);
    }
  }
}
