/** What every protocol comparator shares: the (matched, discrepancies) pair,
    the default normalisation, and the verdict drawn from two normalised
    receipts. */
module BaseComparator {
  import opened Json
  import opened JsonDiff

  /** The pair compare_block_receipts returns. */
  datatype Verdict = Verdict(matched: bool, discrepancies: seq<string>)

  /** The default normalisation leaves the receipt as it was received. */
  function NormalizeData(data: Json): (r: Json)
    ensures r == data
  {
    data
  }

  lemma NormalizeDataIdempotent(data: Json)
    ensures NormalizeData(NormalizeData(data)) == NormalizeData(data)
  {
  }

  function DiscrepancyPrefix(name: string): string {
    name + " discrepancy: "
  }

  /** One line per diff entry: "<name> discrepancy: <kind> - <path>". */
  function Message(name: string, e: Entry): (m: string)
    ensures DiscrepancyPrefix(name) <= m
  {
    DiscrepancyPrefix(name) + KindName(e.kind) + " - " + PathText(e.path)
  }

  function Messages(name: string, entries: seq<Entry>): (ms: seq<string>)
    ensures |ms| == |entries|
    ensures forall i :: 0 <= i < |ms| ==> ms[i] == Message(name, entries[i])
  {
    seq(|entries|, i requires 0 <= i < |entries| => Message(name, entries[i]))
  }

  function MissingPrimary(name: string): string {
    "Primary indexer is missing " + name + " data for this block"
  }

  function MissingSecondary(name: string): string {
    "Secondary indexer is missing " + name + " data for this block"
  }

  /** The verdict on two normalised receipts: the three missing-data cases,
      then the structural comparison, one message per difference. */
  function Judge(name: string, primary: Json, secondary: Json): (v: Verdict)
    ensures v.matched <==> v.discrepancies == []
    ensures !Truthy(primary) && !Truthy(secondary) ==> v == Verdict(true, [])
    ensures !Truthy(primary) && Truthy(secondary) ==> v == Verdict(false, [MissingPrimary(name)])
    ensures Truthy(primary) && !Truthy(secondary) ==> v == Verdict(false, [MissingSecondary(name)])
    ensures Truthy(primary) && Truthy(secondary) ==> (v.matched <==> Equiv(primary, secondary))
    ensures Truthy(primary) && Truthy(secondary) ==>
              v.discrepancies == Messages(name, Diff([], primary, secondary))
    ensures Truthy(primary) && Truthy(secondary) ==>
              forall m :: m in v.discrepancies ==> DiscrepancyPrefix(name) <= m
  {
    if !Truthy(primary) && !Truthy(secondary) then Verdict(true, [])
    else if !Truthy(primary) then Verdict(false, [MissingPrimary(name)])
    else if !Truthy(secondary) then Verdict(false, [MissingSecondary(name)])
    else
      var diff := Diff([], primary, secondary);
      DiffEmptyIffEquiv([], primary, secondary);
      if diff == [] then Verdict(true, []) else Verdict(false, Messages(name, diff))
  }

  /** A receipt always matches itself, whatever it holds. */
  lemma JudgeSelf(name: string, data: Json)
    ensures Judge(name, data, data) == Verdict(true, [])
  {
    if Truthy(data) {
      EquivReflexive(data);
    }
  }
}
