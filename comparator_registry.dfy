/** The (blockchain, protocol) registry of comparators and its lookup, and the
    dispatch of compare_block_receipts to the comparator found. */
module ComparatorRegistry {
  import opened Wrappers
  import opened Json
  import Chain = Blockchain
  import Proto = Protocol
  import BaseComparator
  import Brc20Comparator
  import OrdinalComparator

  /** Which comparator class a registry entry holds. */
  datatype ComparatorKind = Brc20Kind | OrdinalKind

  type Registry = map<Chain.Blockchain, map<Proto.Protocol, ComparatorKind>>

  /** COMPARATORS: both chains, each with both protocols. */
  const Comparators: Registry := map[
    Chain.Bitcoin := map[Proto.Brc20 := Brc20Kind, Proto.Ordinal := OrdinalKind],
    Chain.Fractal := map[Proto.Brc20 := Brc20Kind, Proto.Ordinal := OrdinalKind]
  ]

  /** get_comparator over a given registry: the chain must be present, then
      the protocol under it. */
  function GetComparatorFrom(registry: Registry, b: Chain.Blockchain, p: Proto.Protocol): (r: Result<ComparatorKind, string>)
    ensures r.Success? <==> b in registry && p in registry[b]
    ensures r.Success? ==> r.value == registry[b][p]
    ensures b !in registry ==> r == Failure("Unsupported blockchain: " + Chain.Name(b))
    ensures b in registry && p !in registry[b] ==>
              r == Failure("Unsupported protocol: " + Proto.Name(p) + " for blockchain: " + Chain.Name(b))
  {
    if b !in registry then Failure("Unsupported blockchain: " + Chain.Name(b))
    else if p !in registry[b] then Failure("Unsupported protocol: " + Proto.Name(p) + " for blockchain: " + Chain.Name(b))
    else Success(registry[b][p])
  }

  /** get_comparator on the shipped registry. */
  function GetComparator(b: Chain.Blockchain, p: Proto.Protocol): (r: Result<ComparatorKind, string>)
    ensures r.Success? && (r.value == Brc20Kind <==> p == Proto.Brc20)
  {
    GetComparatorFrom(Comparators, b, p)
  }

  /** The comparator a protocol is compared with, whatever the chain. */
  function KindFor(p: Proto.Protocol): ComparatorKind {
    match p
    case Brc20 => Brc20Kind
    case Ordinal => OrdinalKind
  }

  /** The lookup never fails on the shipped registry, and the protocol alone
      decides the comparator. */
  lemma GetComparatorTotal(b: Chain.Blockchain, p: Proto.Protocol)
    ensures GetComparator(b, p).Success?
    ensures GetComparator(b, p).value == KindFor(p)
    ensures GetComparator(b, p) == GetComparator(Chain.Bitcoin, p)
  {
  }

  /** compare_block_receipts of the comparator found. The Ordinal comparator
      cannot fail; the BRC20 one fails when its normalisation does. */
  function Compare(kind: ComparatorKind, primary: Json, secondary: Json): (r: Result<BaseComparator.Verdict, Brc20Comparator.NormError>)
    ensures kind == OrdinalKind ==> r == Success(OrdinalComparator.CompareBlockReceipts(primary, secondary))
    ensures kind == Brc20Kind ==> r == Brc20Comparator.CompareBlockReceipts(primary, secondary)
    ensures kind == OrdinalKind ==> r.Success?
    ensures r.Success? ==> (r.value.matched <==> r.value.discrepancies == [])
  {
    match kind
    case OrdinalKind => Success(OrdinalComparator.CompareBlockReceipts(primary, secondary))
    case Brc20Kind => Brc20Comparator.CompareBlockReceipts(primary, secondary)
  }

  /** Every comparator finds a (readable) receipt equal to itself. */
  lemma CompareSelf(kind: ComparatorKind, data: Json)
    requires kind == Brc20Kind ==> Brc20Comparator.Normalized(data).Success?
    ensures Compare(kind, data, data) == Success(BaseComparator.Verdict(true, []))
  {
    match kind
    case OrdinalKind => OrdinalComparator.CompareSelf(data);
    case Brc20Kind => Brc20Comparator.CompareSelf(data);
  }
}
