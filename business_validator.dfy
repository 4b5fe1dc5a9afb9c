/** The business form: a name of at least two characters and the contact fields. */
module BusinessValidator {
  import opened Entities
  import opened Validation

  const NameRequiredMessage: string := "Business name is required"

  datatype BusinessForm = BusinessForm(name: string, contact: Contact)

  /** The rules of `businessCreateSchema`; the contact rules are the party form's. */
  predicate BusinessRules(f: BusinessForm, isEmail: string -> bool)
  {
    |f.name| >= 2 && ContactRules(f.contact, isEmail)
  }

  /** `businessCreateSchema.safeParse`. */
  function ParseBusiness(f: BusinessForm, isEmail: string -> bool): (r: Parsed<BusinessForm>)
    ensures r.Parsed? <==> BusinessRules(f, isEmail)
    ensures r.Parsed? ==> r.data.name == f.name && r.data.contact == ParsedContact(f.contact)
  {
    var issues :=
      Check(|f.name| >= 2, "name", NameRequiredMessage)
      + ContactIssues(f.contact, isEmail);
    Outcome(issues, BusinessForm(f.name, ParsedContact(f.contact)))
  }
}
