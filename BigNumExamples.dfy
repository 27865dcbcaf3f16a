/**
 * The operator cases of Incremental.Tests/BigNumTests.cs, stated against the
 * contracts of Add and Subtract: any result those contracts allow is the one
 * the tests expect. Also the behaviour on a label outside the table.
 */
module BigNumExamples {
  import opened Wrappers
  import opened SuffixConstants
  import opened Tiers
  import opened BigNum

  /** The first four labels, their indices and their weights. */
  lemma FirstTiers()
    ensures GetSuffixIndex("") == 0 && GetSuffixIndex("K") == 1
    ensures GetSuffixIndex("M") == 2 && GetSuffixIndex("B") == 3
    ensures GetSuffix(0) == "" && GetSuffix(1) == "K" && GetSuffix(2) == "M" && GetSuffix(3) == "B"
    ensures Scale(0) == 1.0 && Scale(1) == 1000.0 && Scale(2) == 1000000.0 && Scale(3) == 1000000000.0
  {
    assert IndexOf(Suffixes, "M", 2) == 2;
    assert IndexOf(Suffixes, "B", 3) == 3;
  }

  /** 200 + 300 = 500, no promotion. */
  lemma AddNoOverflow(r: BigNum, tier: int)
    requires IsSum(BigNum(200.0, ""), BigNum(300.0, ""), r, tier)
    ensures r == BigNum(500.0, "")
  {
    FirstTiers();
    assert IsSum(BigNum(200.0, ""), BigNum(300.0, ""), BigNum(500.0, ""), 0);
    SumDeterminate(BigNum(200.0, ""), BigNum(300.0, ""), r, tier, BigNum(500.0, ""), 0);
  }

  /** 600 K + 500 K = 1.1 M, one promotion. */
  lemma AddSingleOverflow(r: BigNum, tier: int)
    requires IsSum(BigNum(600.0, "K"), BigNum(500.0, "K"), r, tier)
    ensures r == BigNum(1.1, "M")
  {
    FirstTiers();
    assert IsSum(BigNum(600.0, "K"), BigNum(500.0, "K"), BigNum(1.1, "M"), 2);
    SumDeterminate(BigNum(600.0, "K"), BigNum(500.0, "K"), r, tier, BigNum(1.1, "M"), 2);
  }

  /** 1 100 000 K + 0 K = 1.1 B, two promotions through M. */
  lemma AddDoubleOverflow(r: BigNum, tier: int)
    requires IsSum(BigNum(1100000.0, "K"), BigNum(0.0, "K"), r, tier)
    ensures r == BigNum(1.1, "B")
  {
    FirstTiers();
    assert IsSum(BigNum(1100000.0, "K"), BigNum(0.0, "K"), BigNum(1.1, "B"), 3);
    SumDeterminate(BigNum(1100000.0, "K"), BigNum(0.0, "K"), r, tier, BigNum(1.1, "B"), 3);
  }

  /** 5 M - 3 M = 2 M, no demotion. */
  lemma SubtractNoUnderflow(r: BigNum, tier: int)
    requires IsDifference(BigNum(5.0, "M"), BigNum(3.0, "M"), r, tier)
    ensures r == BigNum(2.0, "M")
  {
    FirstTiers();
    assert IsDifference(BigNum(5.0, "M"), BigNum(3.0, "M"), BigNum(2.0, "M"), 2);
    DifferenceDeterminate(BigNum(5.0, "M"), BigNum(3.0, "M"), r, tier, BigNum(2.0, "M"), 2);
  }

  /** 0.5 M - 0.2 M = 300 K, one demotion. */
  lemma SubtractSingleUnderflow(r: BigNum, tier: int)
    requires IsDifference(BigNum(0.5, "M"), BigNum(0.2, "M"), r, tier)
    ensures r == BigNum(300.0, "K")
  {
    FirstTiers();
    assert IsDifference(BigNum(0.5, "M"), BigNum(0.2, "M"), BigNum(300.0, "K"), 1);
    DifferenceDeterminate(BigNum(0.5, "M"), BigNum(0.2, "M"), r, tier, BigNum(300.0, "K"), 1);
  }

  /** 250 K - 250 K = 0 K: a zero difference keeps the tier. */
  lemma SubtractEqualValues(r: BigNum, tier: int)
    requires IsDifference(BigNum(250.0, "K"), BigNum(250.0, "K"), r, tier)
    ensures r == BigNum(0.0, "K")
  {
    FirstTiers();
  }

  /** 1.5 M - 0.5 M = 1 M: a difference of exactly 1 is not demoted. */
  lemma SubtractResultExactlyOne(r: BigNum, tier: int)
    requires IsDifference(BigNum(1.5, "M"), BigNum(0.5, "M"), r, tier)
    ensures r == BigNum(1.0, "M")
  {
    FirstTiers();
    assert IsDifference(BigNum(1.5, "M"), BigNum(0.5, "M"), BigNum(1.0, "M"), 2);
    DifferenceDeterminate(BigNum(1.5, "M"), BigNum(0.5, "M"), r, tier, BigNum(1.0, "M"), 2);
  }

  /**
   * The guard of subtraction: every subtraction of the tests goes ahead, and a
   * lower tier is below a higher one whatever the mantissas.
   */
  lemma SubtractGuard()
    ensures !Below(BigNum(5.0, "M"), BigNum(3.0, "M"))
    ensures !Below(BigNum(0.5, "M"), BigNum(0.2, "M"))
    ensures !Below(BigNum(250.0, "K"), BigNum(250.0, "K"))
    ensures !Below(BigNum(1.5, "M"), BigNum(0.5, "M"))
    ensures Below(BigNum(999.0, "K"), BigNum(1.0, "M"))
    ensures !Below(BigNum(1.0, "M"), BigNum(999.0, "K"))
  {
    FirstTiers();
  }

  /**
   * A label outside the table has index -1, so its mantissa counts in
   * thousandths next to a table label, and the result carries the tier-0
   * label "": 5 of an unknown label plus 0 gives 0.005.
   */
  lemma UnknownLabelNextToTableLabel(unknown: string, r: BigNum, tier: int)
    requires unknown !in Suffixes
    requires IsSum(BigNum(5.0, unknown), BigNum(0.0, ""), r, tier)
    ensures r == BigNum(0.005, "")
  {
    FirstTiers();
    NotFoundIffAbsent(unknown);
    assert IsSum(BigNum(5.0, unknown), BigNum(0.0, ""), BigNum(0.005, ""), 0);
    SumDeterminate(BigNum(5.0, unknown), BigNum(0.0, ""), r, tier, BigNum(0.005, ""), 0);
  }

  /**
   * Two operands with unknown labels stay at index -1, which GetSuffix
   * labels "": 5 plus 0, both with an unknown label, gives 5 with the empty
   * label, a thousand times less than the tier-0 reading of that result.
   */
  lemma UnknownLabelsTogether(unknown: string, r: BigNum, tier: int)
    requires unknown !in Suffixes
    requires IsSum(BigNum(5.0, unknown), BigNum(0.0, unknown), r, tier)
    ensures r == BigNum(5.0, "")
  {
    FirstTiers();
    NotFoundIffAbsent(unknown);
    assert Scale(-1) == 0.001;
    assert IsSum(BigNum(5.0, unknown), BigNum(0.0, unknown), BigNum(5.0, ""), -1);
    SumDeterminate(BigNum(5.0, unknown), BigNum(0.0, unknown), r, tier, BigNum(5.0, ""), -1);
  }

  /**
   * The guard only compares tiers first, so a higher-tier operand whose
   * magnitude is smaller still passes it: 0.5 K - 600 succeeds with the
   * negative result -0.1 K, which demotion leaves alone.
   */
  lemma NegativeDifference(r: BigNum, tier: int)
    requires IsDifference(BigNum(0.5, "K"), BigNum(600.0, ""), r, tier)
    ensures !Below(BigNum(0.5, "K"), BigNum(600.0, ""))
    ensures r == BigNum(-0.1, "K")
  {
    FirstTiers();
    assert IsDifference(BigNum(0.5, "K"), BigNum(600.0, ""), BigNum(-0.1, "K"), 1);
    DifferenceDeterminate(BigNum(0.5, "K"), BigNum(600.0, ""), r, tier, BigNum(-0.1, "K"), 1);
  }

  /**
   * Subtraction only demotes, never promotes: 5000 K - 0 K stays 5000 K
   * rather than becoming 5 M.
   */
  lemma UnnormalisedDifference(r: BigNum, tier: int)
    requires IsDifference(BigNum(5000.0, "K"), BigNum(0.0, "K"), r, tier)
    ensures r == BigNum(5000.0, "K")
  {
    FirstTiers();
    assert IsDifference(BigNum(5000.0, "K"), BigNum(0.0, "K"), BigNum(5000.0, "K"), 1);
    DifferenceDeterminate(BigNum(5000.0, "K"), BigNum(0.0, "K"), r, tier, BigNum(5000.0, "K"), 1);
  }

  /** A codec that prints 1 as "1" and reads "1" back: the round trip's hypothesis can be met. */
  lemma RoundTripWithConcreteCodec()
    ensures var codec := NumeralCodec(x => "1", t => if t == "1" then Some(1.0) else None);
      && RoundTripsAt(codec, 1.0)
      && ToBigNum(codec, ToString(codec, BigNum(1.0, "K"))) == Ok(BigNum(1.0, "K"))
  {
    var codec := NumeralCodec(x => "1", t => if t == "1" then Some(1.0) else None);
    assert RoundTripsAt(codec, 1.0);
    RoundTrip(codec, BigNum(1.0, "K"));
  }
}
