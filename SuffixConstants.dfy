/**
 * The process-wide table of magnitude suffixes (BigNum/SuffixConstants.cs).
 * Tier i stands for 1000^i; tier 0 has the empty suffix.
 */
module SuffixConstants {

  /** The 32 tier labels, "" (no suffix) up to "Tg" (trigintillion). */
  const Suffixes: seq<string> := [
    "", "K", "M", "B", "T", "Qd", "Qn", "Sx", "Sp", "Oc", "No", "De",
    "UDe", "DDe", "TDe", "QdDe", "QnDe", "SxDe", "SpDe", "OcDe", "NoDe",
    "Vg", "UVg", "DVg", "TVg", "QdVg", "QnVg", "SxVg", "SpVg", "OcVg", "NoVg", "Tg"]

  /** The largest valid tier index: the table's length minus one. */
  const MaxSuffixIndex: int := |Suffixes| - 1

  lemma TableSize()
    ensures |Suffixes| == 32 && MaxSuffixIndex == 31
    ensures Suffixes[0] == "" && Suffixes[MaxSuffixIndex] == "Tg"
  {
  }

  /** No label occurs twice in the table. */
  lemma LabelsDistinct()
    ensures forall i, j :: 0 <= i < j < |Suffixes| ==> Suffixes[i] != Suffixes[j]
  {
  }

  /** Bounds-checked lookup: never fails, and yields "" outside 0..MaxSuffixIndex. */
  function GetSuffix(index: int): (suffix: string)
    ensures 0 <= index <= MaxSuffixIndex ==> suffix == Suffixes[index]
    ensures (index < 0 || MaxSuffixIndex < index) ==> suffix == ""
  {
    if index < 0 || index >= |Suffixes| then "" else Suffixes[index]
  }

  /**
   * The position of the first occurrence of `item` in `table` at or after
   * `start`, or -1 when there is none: the linear search of Array.IndexOf.
   */
  function IndexOf(table: seq<string>, item: string, start: nat): (i: int)
    requires start <= |table|
    ensures i == -1 || start <= i < |table|
    ensures i == -1 ==> forall j :: start <= j < |table| ==> table[j] != item
    ensures i != -1 ==> table[i] == item && forall j :: start <= j < i ==> table[j] != item
    decreases |table| - start
  {
    if start == |table| then -1
    else if table[start] == item then start
    else IndexOf(table, item, start + 1)
  }

  /**
   * The tier index of `suffix`: the position of its first occurrence in the
   * table, or the sentinel -1 when no entry equals it.
   */
  function GetSuffixIndex(suffix: string): (i: int)
    ensures -1 <= i <= MaxSuffixIndex
    ensures i == -1 ==> forall j :: 0 <= j < |Suffixes| ==> Suffixes[j] != suffix
    ensures 0 <= i ==> Suffixes[i] == suffix
  {
    IndexOf(Suffixes, suffix, 0)
  }

  /** The lookup fails exactly for the labels outside the table. */
  lemma NotFoundIffAbsent(suffix: string)
    ensures GetSuffixIndex(suffix) == -1 <==> suffix !in Suffixes
  {
  }

  /** Index to label and back is the identity on every valid index. */
  lemma SuffixRoundTrip(i: int)
    requires 0 <= i <= MaxSuffixIndex
    ensures GetSuffixIndex(GetSuffix(i)) == i
  {
    LabelsDistinct();
  }

  /** Label to index and back is the identity on every label of the table. */
  lemma IndexRoundTrip(suffix: string)
    requires suffix in Suffixes
    ensures GetSuffix(GetSuffixIndex(suffix)) == suffix
  {
  }

  /** The empty label is a real entry: it resolves to tier 0, not to -1. */
  lemma EmptyLabelIsTierZero()
    ensures GetSuffixIndex("") == 0
  {
  }

  /** Every label is at most four characters long. */
  lemma LabelsShort()
    ensures forall i :: 0 <= i < |Suffixes| ==> |Suffixes[i]| <= 4
  {
  }

  /** Out-of-range lookups give "", and a label outside the table gives -1. */
  lemma OutOfRange()
    ensures GetSuffix(MaxSuffixIndex + 1) == "" && GetSuffix(-1) == ""
    ensures GetSuffixIndex("not-a-real-suffix") == -1
  {
    LabelsShort();
  }
}
