/**
 * The game rules (Incremental/GameLogic.cs): five real-valued fields updated
 * in place by a click and two guarded purchases, and the tier selection that
 * formats an amount of cash for display.
 */
module Incremental {
  import opened SuffixConstants
  import opened Tiers

  /**
   * The two numeral layouts FormatCash prints with: a whole number ("0") and
   * a number with two decimals ("0.00"). Number printing is not modelled, so
   * they are parameters.
   */
  datatype CashFormats = CashFormats(whole: real -> string, twoDecimals: real -> string)

  /** FormatCash's own copy of the tier labels. */
  const DisplaySuffixes: seq<string> := [
    "", "K", "M", "B", "T", "Qd", "Qn", "Sx", "Sp", "Oc", "No", "De",
    "UDe", "DDe", "TDe", "QdDe", "QnDe", "SxDe", "SpDe", "OcDe", "NoDe",
    "Vg", "UVg", "DVg", "TVg", "QdVg", "QnVg", "SxVg", "SpVg", "OcVg", "NoVg", "Tg"]

  /** The display copy agrees entry for entry with the shared suffix table. */
  lemma DisplaySuffixesMatchTable()
    ensures DisplaySuffixes == Suffixes
  {
  }

  class GameLogic {
    var cash: real
    var baseCash: real
    var multiplier: real
    var x2Cost: real
    var plus1Cost: real

    /** The state every operation keeps: no debt, and every rate and price positive. */
    ghost predicate Valid()
      reads this
    {
      && cash >= 0.0
      && baseCash >= 1.0
      && multiplier >= 1.0
      && x2Cost > 0.0
      && plus1Cost > 0.0
    }

    /** A new game: no cash, one per click, upgrades at 100 and 10. */
    constructor()
      ensures cash == 0.0 && baseCash == 1.0 && multiplier == 1.0
      ensures x2Cost == 100.0 && plus1Cost == 10.0
      ensures Valid()
    {
      cash := 0.0;
      baseCash := 1.0;
      multiplier := 1.0;
      x2Cost := 100.0;
      plus1Cost := 10.0;
    }

    /** One click: earn baseCash times multiplier; nothing else changes. */
    method GainCash()
      modifies this
      ensures cash == old(cash) + old(baseCash) * old(multiplier)
      ensures baseCash == old(baseCash) && multiplier == old(multiplier)
      ensures x2Cost == old(x2Cost) && plus1Cost == old(plus1Cost)
      ensures old(Valid()) ==> cash >= old(cash) + 1.0
      ensures old(Valid()) ==> Valid()
    {
      cash := cash + baseCash * multiplier;
    }

    /**
     * Buy the doubling upgrade if cash covers its price: pay it, double the
     * multiplier and raise the price by half. Without enough cash nothing
     * changes.
     */
    method TryBuyX2() returns (ok: bool)
      modifies this
      ensures ok <==> old(cash) >= old(x2Cost)
      ensures !ok ==> unchanged(this)
      ensures ok ==> && cash == old(cash) - old(x2Cost)
                     && multiplier == 2.0 * old(multiplier)
                     && x2Cost == 1.5 * old(x2Cost)
                     && baseCash == old(baseCash) && plus1Cost == old(plus1Cost)
      ensures old(Valid()) ==> Valid()
    {
      if cash < x2Cost {
        return false;
      }
      cash := cash - x2Cost;
      multiplier := multiplier * 2.0;
      x2Cost := x2Cost * 1.5;
      return true;
    }

    /**
     * Buy the +1 upgrade if cash covers its price: pay it, add one to the
     * cash per click and multiply the price by 2.5. Without enough cash
     * nothing changes.
     */
    method TryBuyPlus1() returns (ok: bool)
      modifies this
      ensures ok <==> old(cash) >= old(plus1Cost)
      ensures !ok ==> unchanged(this)
      ensures ok ==> && cash == old(cash) - old(plus1Cost)
                     && baseCash == old(baseCash) + 1.0
                     && plus1Cost == 2.5 * old(plus1Cost)
                     && multiplier == old(multiplier) && x2Cost == old(x2Cost)
      ensures old(Valid()) ==> Valid()
    {
      if cash < plus1Cost {
        return false;
      }
      cash := cash - plus1Cost;
      baseCash := baseCash + 1.0;
      plus1Cost := plus1Cost * 2.5;
      return true;
    }

    /**
     * The display text of `value`: below 1000 the whole number; otherwise the
     * value divided by 1000 until it drops below 1000 or the last label is
     * reached, printed with two decimals and that tier's label. `display` and
     * `tier` are the mantissa and tier printed, which Promoted fixes uniquely.
     */
    static method FormatCash(value: real, formats: CashFormats)
      returns (s: string, ghost display: real, ghost tier: int)
      ensures value < 1000.0 ==> s == formats.whole(value)
      ensures 1000.0 <= value ==>
        && Promoted(value, 0, display, tier)
        && 1 <= tier
        && s == formats.twoDecimals(display) + " " + Suffixes[tier]
    {
      if value < 1000.0 {
        return formats.whole(value), value, 0;
      }
      var suffixes := DisplaySuffixes;
      DisplaySuffixesMatchTable();
      var suffixIndex := 0;
      var displayValue := value;
      while displayValue >= 1000.0 && suffixIndex < |suffixes| - 1
        invariant 0 <= suffixIndex <= MaxSuffixIndex
        invariant Magnitude(displayValue, suffixIndex) == value
        invariant 0 < suffixIndex ==> displayValue >= 1.0
        invariant suffixIndex == 0 ==> displayValue >= 1000.0
        decreases MaxSuffixIndex - suffixIndex
      {
        PromoteStep(displayValue, suffixIndex);
        displayValue := displayValue / 1000.0;
        suffixIndex := suffixIndex + 1;
      }
      display, tier := displayValue, suffixIndex;
      if suffixIndex == 0 {
        return formats.whole(displayValue), display, tier;
      }
      s := formats.twoDecimals(displayValue) + " " + suffixes[suffixIndex];
    }
  }
}
