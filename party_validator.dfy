/** The party form: a name of at least two characters, a kind, and the contact fields. */
module PartyValidator {
  import opened Wrappers
  import opened Entities
  import opened Validation

  const NameRequiredMessage: string := "Party name is required"

  /** The form as submitted; `kind` is the enum's name when given. */
  datatype PartyForm = PartyForm(id: Option<string>, name: string, kind: Option<string>, contact: Contact)

  /** The form as the schema passes it on. */
  datatype PartyData = PartyData(id: Option<string>, name: string, kind: PartyKind, contact: Contact)

  function KindName(k: PartyKind): string
  {
    match k
    case CUSTOMER => "CUSTOMER"
    case SUPPLIER => "SUPPLIER"
    case JOBWORKER => "JOBWORKER"
    case OTHER => "OTHER"
  }

  /** The party kind a submitted name stands for, if any. */
  function KindOf(s: string): (r: Option<PartyKind>)
    ensures r.Some? ==> KindName(r.value) == s
  {
    if s == "CUSTOMER" then Some(CUSTOMER)
    else if s == "SUPPLIER" then Some(SUPPLIER)
    else if s == "JOBWORKER" then Some(JOBWORKER)
    else if s == "OTHER" then Some(PartyKind.OTHER)
    else None
  }

  /** Every kind is read back from its name. */
  lemma KindRoundTrip(k: PartyKind)
    ensures KindOf(KindName(k)) == Some(k)
  {
  }

  /** The rules of `partyCreateSchema`. */
  predicate PartyRules(f: PartyForm, isEmail: string -> bool)
  {
    && |f.name| >= 2
    && (f.kind.None? || KindOf(f.kind.value).Some?)
    && ContactRules(f.contact, isEmail)
  }

  /** `partyCreateSchema.safeParse`. */
  function ParseParty(f: PartyForm, isEmail: string -> bool): (r: Parsed<PartyData>)
    ensures r.Parsed? <==> PartyRules(f, isEmail)
    ensures r.Parsed? ==> && r.data.id == f.id && r.data.name == f.name
                          && r.data.contact == ParsedContact(f.contact)
                          && (f.kind.None? ==> r.data.kind == CUSTOMER)
                          && (f.kind.Some? ==> KindName(r.data.kind) == f.kind.value)
  {
    var kind := if f.kind.None? then Some(CUSTOMER) else KindOf(f.kind.value);
    var issues :=
      Check(|f.name| >= 2, "name", NameRequiredMessage)
      + Check(kind.Some?, "kind", DefaultMessage)
      + ContactIssues(f.contact, isEmail);
    Outcome(issues, PartyData(f.id, f.name, kind.GetOr(CUSTOMER), ParsedContact(f.contact)))
  }
}
