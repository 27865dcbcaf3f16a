/**
 * The scaled value of BigNum/BigNum.cs: a mantissa paired with a tier label,
 * its text form, addition with promotion and all-or-nothing subtraction with
 * demotion. The C# `double` mantissa is a `real` here.
 */
module BigNum {
  import opened Wrappers
  import opened SuffixConstants
  import opened Tiers
  import opened TextSplit

  /** A mantissa and its suffix label; the label need not be in the table. */
  datatype BigNum = BigNum(number: real, suffix: string)

  /**
   * The numeral conversions the value relies on (`double.ToString` and
   * `double.Parse` with the invariant culture), given as a pair of functions.
   */
  datatype NumeralCodec = NumeralCodec(show: real -> string, parse: string -> Option<real>)

  /**
   * The codec's promise at one number `x`: parsing the numeral shown for `x`
   * gives `x` back, and that numeral is one non-empty, space-free piece.
   */
  ghost predicate RoundTripsAt(codec: NumeralCodec, x: real)
  {
    codec.parse(codec.show(x)) == Some(x) && IsToken(codec.show(x))
  }

  /** Why a text is not a BigNum. */
  datatype ParseError =
    | InvalidNumber          // not one or two space-separated tokens
    | InvalidNumeral(token: string)  // the first token is not a numeral

  /**
   * Parses "<numeral>" or "<numeral> <suffix>". The suffix token is taken as it
   * is, without checking that the table holds it.
   */
  function ToBigNum(codec: NumeralCodec, text: string): (r: Result<BigNum, ParseError>)
    ensures r.Ok? <==> (|Split(text)| == 1 || |Split(text)| == 2) && codec.parse(Split(text)[0]).Some?
    ensures !(|Split(text)| == 1 || |Split(text)| == 2) ==> r == Err(InvalidNumber)
    ensures r.Ok? ==> Some(r.value.number) == codec.parse(Split(text)[0])
    ensures r.Ok? ==> (r.value.suffix == "" <==> |Split(text)| == 1) && ' ' !in r.value.suffix
    ensures r.Ok? && |Split(text)| == 2 ==> r.value.suffix == Split(text)[1]
    ensures (|Split(text)| == 1 || |Split(text)| == 2) && codec.parse(Split(text)[0]).None? ==>
              r == Err(InvalidNumeral(Split(text)[0]))
  {
    var parts := Split(text);
    if |parts| == 1 then
      match codec.parse(parts[0])
      case Some(num) => Ok(BigNum(num, ""))
      case None => Err(InvalidNumeral(parts[0]))
    else if |parts| == 2 then
      match codec.parse(parts[0])
      case Some(num) => Ok(BigNum(num, parts[1]))
      case None => Err(InvalidNumeral(parts[0]))
    else
      Err(InvalidNumber)
  }

  /** The numeral text, then a space and the suffix when the suffix is non-empty. */
  function ToString(codec: NumeralCodec, b: BigNum): (s: string)
    ensures codec.show(b.number) <= s
    ensures |s| == |codec.show(b.number)| <==> b.suffix == ""
    ensures b.suffix != "" ==> s[|codec.show(b.number)|..] == " " + b.suffix
  {
    var result := codec.show(b.number);
    if b.suffix != "" then result + " " + b.suffix else result
  }

  /**
   * Formatting then parsing gives back the value, whenever its suffix has no
   * space and the codec round-trips its number.
   */
  lemma RoundTrip(codec: NumeralCodec, b: BigNum)
    requires RoundTripsAt(codec, b.number)
    requires ' ' !in b.suffix
    ensures ToBigNum(codec, ToString(codec, b)) == Ok(b)
  {
    var numeral := codec.show(b.number);
    if b.suffix == "" {
      SplitJoin([numeral]);
    } else {
      SplitJoin([numeral, b.suffix]);
      assert Join([numeral, b.suffix]) == numeral + " " + b.suffix;
    }
  }

  /** A suffix holding a space does not survive the round trip: the text has three tokens. */
  lemma RoundTripNeedsSpaceFreeSuffix(codec: NumeralCodec)
    requires IsToken(codec.show(1.0))
    ensures ToBigNum(codec, ToString(codec, BigNum(1.0, "a b"))) == Err(InvalidNumber)
  {
    var numeral := codec.show(1.0);
    SplitJoin([numeral, "a", "b"]);
    assert Join(["a", "b"]) == "a b";
    assert Join([numeral, "a", "b"]) == numeral + " " + "a b";
  }

  /** Extra spaces around and between the tokens do not change the parse. */
  lemma ParseIgnoresExtraSpaces(codec: NumeralCodec, a: string, b: string)
    ensures ToBigNum(codec, " " + a) == ToBigNum(codec, a)
    ensures ToBigNum(codec, a + " ") == ToBigNum(codec, a)
    ensures ToBigNum(codec, a + "  " + b) == ToBigNum(codec, a + " " + b)
  {
    ExtraSpacesIgnored(a, b);
  }

  /** The empty text and a text of three tokens are rejected. */
  lemma ParseRejects(codec: NumeralCodec)
    ensures ToBigNum(codec, "") == Err(InvalidNumber)
    ensures ToBigNum(codec, "1 2 3") == Err(InvalidNumber)
  {
    SplitJoin(["1", "2", "3"]);
    assert Join(["1", "2", "3"]) == "1 2 3";
  }

  /** Value equality: the other value is present, with an equal number and an equal suffix. */
  function Equals(a: BigNum, other: Option<BigNum>): (r: bool)
    ensures r <==> other == Some(a)
  {
    other.Some? && a.number == other.value.number && a.suffix == other.value.suffix
  }

  /** The `==` operator on possibly-null operands: two nulls are equal. */
  function EqualsOperator(a: Option<BigNum>, b: Option<BigNum>): (r: bool)
    ensures r <==> a == b
  {
    if a.Some? then Equals(a.value, b) else b.None?
  }

  /** `Math.Max` on tier indices. */
  function Max(x: int, y: int): int
  {
    if x > y then x else y
  }

  /** The tolerance under which a difference counts as zero. */
  const ZeroTolerance: real := 0.0000001

  function Abs(x: real): real
  {
    if x < 0.0 then -x else x
  }

  /**
   * r is the sum of a and b, ending at tier index `tier`: it weighs the sum of
   * the operands' magnitudes, its tier is at least the higher operand index,
   * its mantissa is below 1000 unless it is at the top tier, every promotion
   * it took left a mantissa of at least 1, and its label is that of `tier`.
   */
  ghost predicate IsSum(a: BigNum, b: BigNum, r: BigNum, tier: int)
  {
    var ai, bi := GetSuffixIndex(a.suffix), GetSuffixIndex(b.suffix);
    && Promoted(Magnitude(a.number, ai) + Magnitude(b.number, bi), Max(ai, bi), r.number, tier)
    && r.suffix == GetSuffix(tier)
  }

  /** The guard of subtraction: a is below b in the order on (tier index, mantissa). */
  predicate Below(a: BigNum, b: BigNum)
  {
    var ai, bi := GetSuffixIndex(a.suffix), GetSuffixIndex(b.suffix);
    ai < bi || (ai == bi && a.number < b.number)
  }

  /**
   * r is the difference a - b for a not below b, ending at tier index `tier`:
   * within the tolerance at a's tier it is 0 with a's label; otherwise it is
   * the demoted form of the difference of the magnitudes, labelled by `tier`.
   */
  ghost predicate IsDifference(a: BigNum, b: BigNum, r: BigNum, tier: int)
  {
    var ai, bi := GetSuffixIndex(a.suffix), GetSuffixIndex(b.suffix);
    var diff := Magnitude(a.number, ai) - Magnitude(b.number, bi);
    if Abs(diff) < ZeroTolerance * Scale(ai) then
      r == BigNum(0.0, GetSuffix(ai)) && tier == ai
    else
      Demoted(diff, ai, r.number, tier) && r.suffix == GetSuffix(tier)
  }

  /**
   * The rescaling loop of both operators: divide the mantissa by 1000 and step
   * the index up until it reaches `target`. The magnitude stays the same.
   */
  method Rescale(value: real, index: int, target: int) returns (v: real)
    requires index <= target
    ensures Magnitude(v, target) == Magnitude(value, index)
  {
    var i := index;
    v := value;
    while i < target
      invariant i <= target
      invariant Magnitude(v, i) == Magnitude(value, index)
    {
      PromoteStep(v, i);
      v := v / 1000.0;
      i := i + 1;
    }
  }

  /**
   * The overflow loop of addition: while the amount is at least 1000 and the
   * top tier is not reached, divide it by 1000 and go one tier up.
   */
  method Promote(amount: real, index: int) returns (n: real, k: int)
    requires index <= MaxSuffixIndex
    ensures Promoted(Magnitude(amount, index), index, n, k)
  {
    n, k := amount, index;
    while n >= 1000.0 && k < MaxSuffixIndex
      invariant index <= k <= MaxSuffixIndex
      invariant Magnitude(n, k) == Magnitude(amount, index)
      invariant index < k ==> n >= 1.0
    {
      PromoteStep(n, k);
      n := n / 1000.0;
      k := k + 1;
    }
  }

  /**
   * Addition. Both operands are brought to the higher tier index, the
   * mantissas are added, and the sum is promoted while it is at least 1000
   * and the top tier is not reached. An unknown label has index -1, which
   * takes part in the loops like any other index, and a final index of -1 is
   * labelled "".
   */
  method Add(a: BigNum, b: BigNum) returns (r: BigNum, ghost tier: int)
    ensures IsSum(a, b, r, tier)
  {
    var aIndex := GetSuffixIndex(a.suffix);
    var bIndex := GetSuffixIndex(b.suffix);
    var resultIndex := Max(aIndex, bIndex);

    var aValue := Rescale(a.number, aIndex, resultIndex);
    var bValue := Rescale(b.number, bIndex, resultIndex);

    var amount := aValue + bValue;
    MagnitudeLinear(aValue, bValue, resultIndex);
    ghost var total := Magnitude(a.number, aIndex) + Magnitude(b.number, bIndex);
    assert Magnitude(amount, resultIndex) == total;

    amount, resultIndex := Promote(amount, resultIndex);
    r := BigNum(amount, GetSuffix(resultIndex));
    tier := resultIndex;
  }

  /**
   * The underflow loop of subtraction: while the amount lies strictly between
   * 0 and 1 and the index is above 0, multiply it by 1000 and go one tier down.
   */
  method Demote(amount: real, index: int) returns (n: real, k: int)
    ensures Demoted(Magnitude(amount, index), index, n, k)
  {
    n, k := amount, index;
    ghost var total := Magnitude(amount, index);
    SignOf(amount, index);
    while n < 1.0 && n > 0.0 && k > 0
      invariant k <= index
      invariant Magnitude(n, k) == total
      invariant total <= 0.0 ==> k == index
      invariant k < index ==> 0 <= k && 0.0 < n < 1000.0
      invariant n > 0.0 <==> total > 0.0
      decreases k
    {
      DemoteStep(n, k);
      n := n * 1000.0;
      k := k - 1;
    }
  }

  /** A bound on |x| scales with a positive weight. */
  lemma BoundTimesWeight(x: real, t: real, w: real)
    requires w > 0.0
    ensures Abs(x) < t <==> Abs(x * w) < t * w
  {
    if x < 0.0 {
      assert x * w == -((-x) * w);
    }
    LessTimesWeight(Abs(x), t, w);
  }

  /** The tolerance test on a mantissa is the scaled test on its magnitude. */
  lemma ToleranceAtTier(n: real, k: int)
    ensures Abs(n) < ZeroTolerance <==> Abs(Magnitude(n, k)) < ZeroTolerance * Scale(k)
  {
    BoundTimesWeight(n, ZeroTolerance, Scale(k));
  }

  /**
   * All-or-nothing subtraction. It fails, yielding (0, ""), when `a` is below
   * `b` in the order on (tier index, mantissa). Otherwise the difference at
   * the higher tier index is 0 with that tier's label when it is within the
   * tolerance, and else it is demoted while it lies strictly between 0 and 1
   * and the index is above 0.
   */
  method Subtract(a: BigNum, b: BigNum) returns (r: BigNum, ok: bool, ghost tier: int)
    ensures ok <==> !Below(a, b)
    ensures !ok ==> r == BigNum(0.0, "")
    ensures ok ==> IsDifference(a, b, r, tier)
  {
    var aIndex := GetSuffixIndex(a.suffix);
    var bIndex := GetSuffixIndex(b.suffix);
    ghost var ai, bi := aIndex, bIndex;

    // a is below b: nothing is subtracted
    if aIndex < bIndex || (aIndex == bIndex && a.number < b.number) {
      return BigNum(0.0, ""), false, 0;
    }

    var resultIndex := Max(aIndex, bIndex);
    var aValue := Rescale(a.number, aIndex, resultIndex);
    var bValue := Rescale(b.number, bIndex, resultIndex);

    var amount := aValue - bValue;
    MagnitudeLinear(aValue, bValue, resultIndex);
    ToleranceAtTier(amount, resultIndex);

    if Abs(amount) < ZeroTolerance {
      return BigNum(0.0, GetSuffix(resultIndex)), true, resultIndex;
    }

    amount, resultIndex := Demote(amount, resultIndex);
    r, ok, tier := BigNum(amount, GetSuffix(resultIndex)), true, resultIndex;
  }

  /** The sum is fully determined by its contract. */
  lemma SumDeterminate(a: BigNum, b: BigNum, r1: BigNum, t1: int, r2: BigNum, t2: int)
    requires IsSum(a, b, r1, t1) && IsSum(a, b, r2, t2)
    ensures r1 == r2 && t1 == t2
  {
    var ai, bi := GetSuffixIndex(a.suffix), GetSuffixIndex(b.suffix);
    PromotedUnique(Magnitude(a.number, ai) + Magnitude(b.number, bi), Max(ai, bi), r1.number, t1, r2.number, t2);
  }

  /** The difference is fully determined by its contract. */
  lemma DifferenceDeterminate(a: BigNum, b: BigNum, r1: BigNum, t1: int, r2: BigNum, t2: int)
    requires IsDifference(a, b, r1, t1) && IsDifference(a, b, r2, t2)
    ensures r1 == r2 && t1 == t2
  {
    var ai, bi := GetSuffixIndex(a.suffix), GetSuffixIndex(b.suffix);
    var diff := Magnitude(a.number, ai) - Magnitude(b.number, bi);
    if Abs(diff) >= ZeroTolerance * Scale(ai) {
      DemotedUnique(diff, ai, r1.number, t1, r2.number, t2);
    }
  }
}
