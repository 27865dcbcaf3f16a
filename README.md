# Incremental game core in Dafny

This project models the arithmetic core of a small incremental ("idle") game
and proves properties of it. There are three parts:

- **The suffix table** (`SuffixConstants.dfy`). This is the fixed list of 32
  tier labels, from "" through "K", "M", "B" up to "Tg". Tier *i* stands for
  1000^*i*. It has a bounds-checked lookup from index to label, and a linear
  search from label to index that returns -1 when the label is not in the
  table.
- **`BigNum`** (`BigNum.dfy`, with `TextSplit.dfy` and `Tiers.dfy`). A value
  is a mantissa paired with a tier label. The model covers:
  - the text form `"<numeral>"` or `"<numeral> <label>"` and its parser;
  - value equality;
  - addition, which brings both operands to the higher tier and then
    promotes the sum;
  - all-or-nothing subtraction, which fails when the left operand is smaller
    and otherwise demotes the difference.
- **The game rules** (`GameLogic.dfy`, module `Incremental`). A class holds
  five fields: cash, base cash, multiplier and two upgrade prices. Its
  operations are a click that earns cash and two guarded purchases. It also
  has `FormatCash`, which picks the display tier by repeated division.

How the model represents the source:

- A C# `double` is a `real`. The IEEE effects listed under "Left out" are
  therefore not modelled.
- The numeral conversions (`double.Parse`, `double.ToString`, and the "0" and
  "0.00" formats) are parameters: a `NumeralCodec` and a `CashFormats`. The
  round trip of a value assumes two things about its own number only
  (`BigNum.RoundTripsAt`): parsing the numeral shown for it gives the number
  back, and that numeral is non-empty and has no space.
  `RoundTripWithConcreteCodec` shows that a codec can meet this.
- `BigNum` values are a `datatype`.
- `GameLogic` is a `class` whose methods update its fields in place.

The addition and subtraction operators are `while` loops over local
variables, and the model keeps them as methods with loops. Their loops are
factored into three helper methods: `Rescale` (the two rescaling loops),
`Promote` (the overflow loop of `+`) and `Demote` (the underflow loop of
`-`).

Each operator's contract uses a normal-form predicate from `Tiers.dfy`:

- `Promoted` describes where promotion can end.
- `Demoted` describes where demotion can end.

Both are stated over the exact magnitude mantissa·1000^tier. `Scale(k)` is
1000^k for any integer k. Uniqueness lemmas show that each predicate allows
exactly one result, so the contracts of `Add` and `Subtract` fix their
results completely. The cases of the test file are proved as consequences of
those contracts (`BigNumExamples.dfy`).

**Unknown labels.** A label that is not in the table has index -1. The model
follows the code here. The index takes part in the rescaling loops like any
other index, so such a mantissa weighs 1/1000 next to a table label. A result
that ends at index -1 is labelled `GetSuffix(-1) == ""`, which reads as tier
0, so that result silently gains a factor of 1000. The lemmas
`UnknownLabelNextToTableLabel` and `UnknownLabelsTogether` state both
effects. The code does not treat an unknown label as tier 0: it computes
with -1, and the model does the same.

**Subtraction results.** The subtraction guard compares tier indices first,
so an operand at a higher tier passes it even when its magnitude is smaller.
The difference is then negative, and demotion leaves a negative amount
alone: 0.5 K − 600 succeeds with −0.1 K (`NegativeDifference`). Subtraction
also never promotes, so 5000 K − 0 K stays 5000 K (`UnnormalisedDifference`).
A successful subtraction is therefore neither always non-negative nor always
below 1000.

**`FormatCash`.** `FormatCash` returns early for values below 1000, so its
loop always runs at least once for every value that is not NaN. Its branch
for tier 0 after the loop (GameLogic.cs:102-105) is therefore taken only for
NaN, which fails both comparisons; the model has no NaN. The model keeps
the branch, and the method's contract proves that every value of at least 1000 is printed
with a tier of 1 or more. `FormatCash` also keeps its own copy of the label
list (GameLogic.cs:89-91). `DisplaySuffixesMatchTable` proves the copy
identical to the shared table.

## Model

| member | source | states |
|---|---|---|
| SuffixConstants.TableSize | BigNum/SuffixConstants.cs:16-50 | the table has 32 labels, so the largest valid index is 31; the first label is "" and the last is "Tg" |
| SuffixConstants.LabelsDistinct | BigNum/SuffixConstants.cs:16-50 | no label occurs twice in the table |
| SuffixConstants.LabelsShort | BigNum/SuffixConstants.cs:16-50 | every label is at most four characters long |
| SuffixConstants.GetSuffix | BigNum/SuffixConstants.cs:55-60 | a valid index gives its table entry; any index below 0 or above the largest gives "", and the lookup never fails |
| SuffixConstants.IndexOf | BigNum/SuffixConstants.cs:67 | linear search: -1 exactly when no entry from `start` on equals the item; otherwise the position of the first entry equal to it |
| SuffixConstants.GetSuffixIndex | BigNum/SuffixConstants.cs:65-68 | the index is -1 or a valid index; -1 means that no entry equals the label; a valid index holds the label |
| SuffixConstants.NotFoundIffAbsent | BigNum/SuffixConstants.cs:62-68 | the lookup gives -1 if and only if the label is not in the table |
| SuffixConstants.SuffixRoundTrip | BigNum/SuffixConstants.cs:55-68 | looking up the label of any valid index gives that index back |
| SuffixConstants.IndexRoundTrip | BigNum/SuffixConstants.cs:55-68 | looking up the index of any table label gives that label back |
| SuffixConstants.EmptyLabelIsTierZero | BigNum/SuffixConstants.cs:18 | "" is a real entry: its index is 0, not -1 |
| SuffixConstants.OutOfRange | BigNum/SuffixConstants.cs:55-73 | the labels at index 32 and at -1 are ""; the index of "not-a-real-suffix" is -1 |
| TextSplit.Word | BigNum/BigNum.cs:29 | the leading word is a space-free prefix of the text, followed by a space or by the end of the text |
| TextSplit.Split | BigNum/BigNum.cs:29 | splitting on ' ' with empty entries removed yields only non-empty, space-free pieces |
| TextSplit.SplitJoin | BigNum/BigNum.cs:29 | splitting tokens joined by single spaces gives the tokens back |
| TextSplit.SplitAtSpace | BigNum/BigNum.cs:29 | splitting `a + " " + b` is splitting `a` followed by splitting `b` |
| TextSplit.ExtraSpacesIgnored | BigNum/BigNum.cs:29 | leading, trailing and doubled spaces do not change the pieces |
| BigNum.ToBigNum | BigNum/BigNum.cs:27-48 | the parse succeeds if and only if there are one or two pieces and the first is a numeral; any other piece count gives the "Invalid number" error; the number is the parsed numeral; a first piece the codec does not parse gives the error `InvalidNumeral` holding that piece; the label is "" exactly when there is one piece, and with two pieces it is the second piece as it stands, not checked against the table |
| BigNum.ToString | BigNum/BigNum.cs:50-55 | the text starts with the numeral; it is exactly the numeral when the label is "", and otherwise the numeral is followed by exactly one space and the label |
| BigNum.RoundTrip | BigNum/BigNum.cs:27-55 | parsing the text form of a value gives the value back, whenever its label has no space and the codec round-trips its number to a single piece |
| BigNum.RoundTripNeedsSpaceFreeSuffix | BigNum/BigNum.cs:27-55 | a label with a space in it makes the text three pieces, which the parser rejects, for any codec that shows 1 as a single piece |
| BigNum.ParseIgnoresExtraSpaces | BigNum/BigNum.cs:29 | extra spaces around or between the numeral and the label do not change the parse |
| BigNum.ParseRejects | BigNum/BigNum.cs:44-47 | the empty text and "1 2 3" are rejected with "Invalid number" |
| BigNum.Equals | BigNum/BigNum.cs:148-151 | equality holds if and only if the other value is present and has the same number and the same label |
| BigNum.EqualsOperator | BigNum/BigNum.cs:156-157 | `==` holds if and only if both operands are absent, or both are present and equal |
| BigNum.Rescale | BigNum/BigNum.cs:69-80 | dividing by 1000 up to the target tier keeps the magnitude |
| BigNum.Promote | BigNum/BigNum.cs:84-89 | the overflow loop ends in the unique promoted form of the magnitude: at or above the start tier, below 1000 unless at the top tier, and at least 1 if it moved |
| BigNum.Add | BigNum/BigNum.cs:57-92 | the result is the promoted form of the sum of the operands' magnitudes, counted from the higher operand tier and labelled by the final tier |
| BigNum.Demote | BigNum/BigNum.cs:133-138 | the underflow loop ends in the unique demoted form of the magnitude: it stays put unless the magnitude is positive, it never moves below tier 0, and it keeps a mantissa below 1 only at a tier of 0 or below (below 0 only when it started at the unknown-label index -1) |
| BigNum.ToleranceAtTier | BigNum/BigNum.cs:127-128 | comparing the mantissa with 1e-7 is comparing the magnitude with 1e-7 of the tier's weight |
| BigNum.Subtract | BigNum/BigNum.cs:94-141 | it succeeds if and only if `a` is not below `b` in the order on (tier index, mantissa); on failure the result is (0, ""); on success a difference within 1e-7 is 0 labelled by `a`'s tier index (so "" when `a`'s label is unknown), and any other difference is its demoted form with the final tier's label |
| BigNum.SumDeterminate | BigNum/BigNum.cs:57-92 | two results that both meet the addition contract are equal |
| BigNum.DifferenceDeterminate | BigNum/BigNum.cs:94-141 | two results that both meet the subtraction contract are equal |
| Tiers.PromotedUnique | BigNum/BigNum.cs:84-89 | a magnitude has exactly one promoted form |
| Tiers.DemotedUnique | BigNum/BigNum.cs:133-138 | a magnitude has exactly one demoted form |
| BigNumExamples.AddNoOverflow | Incremental.Tests/BigNumTests.cs:96-108 | 200 + 300 is 500 with no label |
| BigNumExamples.AddSingleOverflow | Incremental.Tests/BigNumTests.cs:110-120 | 600 K + 500 K is 1.1 M |
| BigNumExamples.AddDoubleOverflow | Incremental.Tests/BigNumTests.cs:122-135 | 1 100 000 K + 0 K is 1.1 B |
| BigNumExamples.SubtractNoUnderflow | Incremental.Tests/BigNumTests.cs:140-151 | 5 M − 3 M is 2 M |
| BigNumExamples.SubtractSingleUnderflow | Incremental.Tests/BigNumTests.cs:153-164 | 0.5 M − 0.2 M is 300 K |
| BigNumExamples.SubtractEqualValues | Incremental.Tests/BigNumTests.cs:166-176 | 250 K − 250 K is 0 K: the zero keeps the operand's label |
| BigNumExamples.SubtractResultExactlyOne | Incremental.Tests/BigNumTests.cs:178-189 | 1.5 M − 0.5 M is 1 M: a difference of exactly 1 is not demoted |
| BigNumExamples.SubtractGuard | BigNum/BigNum.cs:100-104 | all four test subtractions pass the guard; 999 K is below 1 M, while 1 M is not below 999 K |
| BigNumExamples.UnknownLabelNextToTableLabel | BigNum/BigNum.cs:57-92 | 5 with an unknown label plus 0 with no label is 0.005 with no label |
| BigNumExamples.UnknownLabelsTogether | BigNum/BigNum.cs:57-92 | 5 plus 0, both with the same unknown label, is 5 with no label |
| BigNumExamples.NegativeDifference | BigNum/BigNum.cs:100-140 | 0.5 K − 600 passes the guard and gives the negative result −0.1 K |
| BigNumExamples.UnnormalisedDifference | BigNum/BigNum.cs:125-140 | 5000 K − 0 K gives 5000 K: subtraction never promotes |
| BigNumExamples.RoundTripWithConcreteCodec | BigNum/BigNum.cs:27-55 | a codec that shows 1 as "1" and parses it back meets the round trip's hypothesis, and 1 K survives formatting and parsing |
| Incremental.DisplaySuffixesMatchTable | Incremental/GameLogic.cs:89-91 | FormatCash's label list is equal to the shared suffix table |
| Incremental.GameLogic.constructor | Incremental/GameLogic.cs:12-34 | a new game has cash 0, base cash 1, multiplier 1, and prices 100 and 10; this state satisfies the invariant (cash ≥ 0, base cash ≥ 1, multiplier ≥ 1, prices > 0) |
| Incremental.GameLogic.GainCash | Incremental/GameLogic.cs:39-43 | cash grows by base cash × multiplier, which is at least 1 under the invariant; no other field changes; the invariant is kept |
| Incremental.GameLogic.TryBuyX2 | Incremental/GameLogic.cs:49-60 | succeeds if and only if cash ≥ the x2 price; on failure nothing changes; on success cash drops by the old price, the multiplier doubles, the price is multiplied by 1.5, and base cash and the +1 price are unchanged; the invariant is kept, so cash never goes negative |
| Incremental.GameLogic.TryBuyPlus1 | Incremental/GameLogic.cs:66-77 | succeeds if and only if cash ≥ the +1 price; on failure nothing changes; on success cash drops by the old price, base cash grows by 1, the price is multiplied by 2.5, and the multiplier and the x2 price are unchanged; the invariant is kept |
| Incremental.GameLogic.FormatCash | Incremental/GameLogic.cs:82-108 | a value below 1000 is printed whole; otherwise the loop ends with a mantissa and a tier such that mantissa·1000^tier is the value, the mantissa is in [1, 1000) unless the tier is 31, and the tier is at least 1; the text is the mantissa with two decimals, a space and that tier's label |

## Left out

- IEEE-754 `double` behaviour: rounding in `/ 1000`, `* 1000`, `+` and `-`, infinities and NaN. Mantissas are exact reals. As a result, `Equals` does not model that `NaN.Equals(NaN)` is true. The doubles 0.0 and -0.0, which `double.Equals` already treats as equal, are the one real 0 here; printing -0.0 as "-0" is left to `NumeralCodec`. For the same reason the tier-0 branch of `FormatCash` (Incremental/GameLogic.cs:102-105), which only NaN reaches, is kept but never runs in the model.
- `double.Parse`, `double.ToString(CultureInfo.InvariantCulture)` and the "0" and "0.00" format strings: number printing is not modelled, so these are the parameters `NumeralCodec` and `CashFormats`. The test cases that depend on exact numeral text (Incremental.Tests/BigNumTests.cs:11-89) are therefore not restated.
- `double.Parse` throwing on a bad numeral is modelled as the error `InvalidNumeral`, and the "Invalid number" exception as the error `InvalidNumber`.
- `BigNum(string)` constructor: it only copies the fields of `ToBigNum`'s result, so it is the same operation as `BigNum.ToBigNum`.
- Settable `Number` and `Suffix` properties and reference aliasing of `BigNum` objects: the values are an immutable datatype, so in-place mutation of a shared `BigNum` is not captured.
- `Equals(object)`: the runtime type test is not modelled, since only `BigNum` operands exist in the model.
- `GetHashCode`: it relies on the library's `HashCode.Combine`, which has no contract to model.
- `!=`: it is the negation of `BigNum.EqualsOperator`.
- `BigNum.Add`, `BigNum.Subtract`: the result's final tier index is a ghost out-parameter used only to state the contract. The two rescaling loops and the promotion and demotion loops are separate methods (`Rescale`, `Promote`, `Demote`) rather than inline loops.
- `GameLogic` events (`CashChanged`, `UpgradeCostsChanged` and their `On…` raisers): they are observer callbacks, not game state.
- The view model (Incremental/GameViewModel.cs) and the UI (UI/MainWindow.cs, UI/Program.cs, UI/Stackdisplay.cs): they are presentation and timer plumbing and are not part of this model.
- Incremental.GameLogic.GainCash, TryBuyX2, TryBuyPlus1: these keep the invariant when it held before the call, and do not require it. Real arithmetic has no overflow, so a `double` overflowing to infinity after very many purchases is not modelled.
