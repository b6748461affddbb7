/** The indexer protocols the comparator supports. */
module Protocol {
  import opened Wrappers
  import Text

  datatype Protocol = Ordinal | Brc20

  /** The members in declaration order, as iterating the enumeration yields them. */
  const Members: seq<Protocol> := [Ordinal, Brc20]

  function Name(p: Protocol): string {
    match p
    case Ordinal => "ORDINAL"
    case Brc20 => "BRC20"
  }

  /** Case-insensitive parse of a protocol name. */
  function FromString(value: string): (r: Result<Protocol, string>)
    ensures r.Success? ==> Text.Upper(Name(r.value)) == Text.Upper(value)
    ensures r.Failure? ==> forall p :: Text.Upper(Name(p)) != Text.Upper(value)
  {
    match Text.FindByUpperName(Members, Name, value)
    case Some(p) => Success(p)
    case None => Failure("Invalid protocol: " + value + ". Valid options: ORDINAL, BRC20")
  }

  lemma NamesAreUpperCase(p: Protocol)
    ensures Text.Upper(Name(p)) == Name(p)
  {
    Text.UpperFixesUpper(Name(p));
  }

  /** Exactly the strings whose upper-case form is a member name are accepted. */
  lemma FromStringAccepts(value: string)
    ensures FromString(value).Success? <==> Text.Upper(value) == "ORDINAL" || Text.Upper(value) == "BRC20"
    ensures Text.Upper(value) == "ORDINAL" ==> FromString(value) == Success(Ordinal)
    ensures Text.Upper(value) == "BRC20" ==> FromString(value) == Success(Brc20)
  {
    NamesAreUpperCase(Ordinal);
    NamesAreUpperCase(Brc20);
  }

  /** Parsing a member's own name gives that member back. */
  lemma FromStringRoundTrip(p: Protocol)
    ensures FromString(Name(p)) == Success(p)
  {
    NamesAreUpperCase(p);
    FromStringAccepts(Name(p));
  }

  /** Only the letter case of the input is ignored. */
  lemma FromStringCaseInsensitive(s: string, t: string)
    requires Text.Upper(s) == Text.Upper(t)
    ensures FromString(s).Success? <==> FromString(t).Success?
    ensures FromString(s).Success? ==> FromString(s) == FromString(t)
  {
    FromStringAccepts(s);
    FromStringAccepts(t);
  }
}
