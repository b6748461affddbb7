/** The Ordinal comparator: receipts are compared exactly as received. */
module OrdinalComparator {
  import opened Json
  import BaseComparator
  import JsonDiff

  const Label := "Ordinal"

  /** compare_block_receipts with the default (identity) normalisation. */
  function CompareBlockReceipts(primary: Json, secondary: Json): (v: BaseComparator.Verdict)
    ensures v.matched <==> v.discrepancies == []
    ensures !Truthy(primary) && !Truthy(secondary) ==> v == BaseComparator.Verdict(true, [])
    ensures !Truthy(primary) && Truthy(secondary) ==>
              v == BaseComparator.Verdict(false, [BaseComparator.MissingPrimary(Label)])
    ensures Truthy(primary) && !Truthy(secondary) ==>
              v == BaseComparator.Verdict(false, [BaseComparator.MissingSecondary(Label)])
    ensures Truthy(primary) && Truthy(secondary) ==>
              && (v.matched <==> Equiv(primary, secondary))
              && v.discrepancies == BaseComparator.Messages(Label, JsonDiff.Diff([], primary, secondary))
              && forall m :: m in v.discrepancies ==> BaseComparator.DiscrepancyPrefix(Label) <= m
  {
    BaseComparator.Judge(Label, BaseComparator.NormalizeData(primary), BaseComparator.NormalizeData(secondary))
  }

  /** No normalisation: the verdict is the one drawn from the raw receipts. */
  lemma ComparesAsReceived(primary: Json, secondary: Json)
    ensures CompareBlockReceipts(primary, secondary) == BaseComparator.Judge(Label, primary, secondary)
  {
  }

  /** Any receipt matches itself. */
  lemma CompareSelf(data: Json)
    ensures CompareBlockReceipts(data, data) == BaseComparator.Verdict(true, [])
  {
    BaseComparator.JudgeSelf(Label, data);
  }

  /** Two non-empty receipts that differ always yield at least one discrepancy. */
  lemma CompareUnequal(primary: Json, secondary: Json)
    requires Truthy(primary) && Truthy(secondary) && !Equiv(primary, secondary)
    ensures !CompareBlockReceipts(primary, secondary).matched
    ensures |CompareBlockReceipts(primary, secondary).discrepancies| > 0
  {
  }
}
