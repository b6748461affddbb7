/** The blockchains the comparator supports and their activation heights. */
module Blockchain {
  import opened Wrappers
  import Text

  datatype Blockchain = Bitcoin | Fractal

  /** The members in declaration order, as iterating the enumeration yields them. */
  const Members: seq<Blockchain> := [Bitcoin, Fractal]

  function Name(b: Blockchain): string {
    match b
    case Bitcoin => "BITCOIN"
    case Fractal => "FRACTAL"
  }

  /** First block height at which the BRC20 protocol was active. */
  function FirstBrc20Height(b: Blockchain): (h: nat)
    ensures b == Bitcoin ==> h == 779832
    ensures b == Fractal ==> h == 21000
  {
    match b
    case Bitcoin => 779832
    case Fractal => 21000
  }

  /** First block height at which Ordinal inscriptions were active. */
  function FirstInscriptionHeight(b: Blockchain): (h: nat)
    ensures b == Bitcoin ==> h == 767430
    ensures b == Fractal ==> h == 21000
  {
    match b
    case Bitcoin => 767430
    case Fractal => 21000
  }

  /** Inscriptions are never activated after BRC20 on the same chain. */
  lemma InscriptionsNoLaterThanBrc20(b: Blockchain)
    ensures FirstInscriptionHeight(b) <= FirstBrc20Height(b)
    ensures FirstInscriptionHeight(b) == FirstBrc20Height(b) <==> b == Fractal
  {
  }

  /** The network name an endpoint of this chain reports: the lower-cased member name. */
  function NetworkName(b: Blockchain): (r: string)
    ensures b == Bitcoin ==> r == "bitcoin"
    ensures b == Fractal ==> r == "fractal"
  {
    var r := Text.Lower(Name(b));
    assert r == (if b == Bitcoin then "bitcoin" else "fractal") by {
      assert forall i :: 0 <= i < |r| ==> r[i] == Text.LowerChar(Name(b)[i]);
    }
    r
  }

  /** Case-insensitive parse of a blockchain name. */
  function FromString(value: string): (r: Result<Blockchain, string>)
    ensures r.Success? ==> Text.Upper(Name(r.value)) == Text.Upper(value)
    ensures r.Failure? ==> forall b :: Text.Upper(Name(b)) != Text.Upper(value)
  {
    match Text.FindByUpperName(Members, Name, value)
    case Some(b) => Success(b)
    case None => Failure("Invalid blockchain: " + value + ". Valid options: BITCOIN, FRACTAL")
  }

  lemma NamesAreUpperCase(b: Blockchain)
    ensures Text.Upper(Name(b)) == Name(b)
  {
    Text.UpperFixesUpper(Name(b));
  }

  /** Exactly the strings whose upper-case form is a member name are accepted. */
  lemma FromStringAccepts(value: string)
    ensures FromString(value).Success? <==> Text.Upper(value) == "BITCOIN" || Text.Upper(value) == "FRACTAL"
    ensures Text.Upper(value) == "BITCOIN" ==> FromString(value) == Success(Bitcoin)
    ensures Text.Upper(value) == "FRACTAL" ==> FromString(value) == Success(Fractal)
  {
    NamesAreUpperCase(Bitcoin);
    NamesAreUpperCase(Fractal);
  }

  /** Parsing a member's own name gives that member back. */
  lemma FromStringRoundTrip(b: Blockchain)
    ensures FromString(Name(b)) == Success(b)
  {
    NamesAreUpperCase(b);
    FromStringAccepts(Name(b));
  }

  /** Only the letter case of the input is ignored. */
  lemma FromStringCaseInsensitive(s: string, t: string)
    requires Text.Upper(s) == Text.Upper(t)
    ensures FromString(s).Success? <==> FromString(t).Success?
    ensures FromString(s).Success? ==> FromString(s) == FromString(t)
  {
    FromStringAccepts(s);
    FromStringAccepts(t);
  }
}
