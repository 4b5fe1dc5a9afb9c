/** Creating the business of an account: at most one per owner. */
module BusinessActions {
  import opened Wrappers
  import opened Entities
  import opened Validation
  import opened BusinessValidator
  import opened Errors

  const AlreadyExistsMessage: string := "Business already exists for this account."
  const CreateFailedMessage: string := "Something went wrong while creating the business. Please try again."
  const FixFieldsMessage: string := "Please fix the highlighted fields."

  /** The business table, keyed by owner: the owner column is unique. */
  type Businesses = map<Id, Business>

  function AlreadyExists(): ActionResult<()>
  {
    Err(Some(BUSINESS_ALREADY_EXISTS), AlreadyExistsMessage, None)
  }

  /** The errors the action catches: a unique violation means another request created it first. */
  function Caught(e: Thrown): (r: ActionResult<()>)
    ensures r.Err? && r.fieldErrors.None?
    ensures r.code == Some(BUSINESS_ALREADY_EXISTS) <==> e == KnownRequestError("P2002")
    ensures r.code == Some(BUSINESS_ALREADY_EXISTS) || r.code == Some(UNKNOWN_ERROR)
  {
    if e.KnownRequestError? && e.code == "P2002" then AlreadyExists()
    else Err(Some(UNKNOWN_ERROR), CreateFailedMessage, None)
  }

  /** The row a validated form creates: onboarding starts at the party step. */
  function NewBusiness(newId: Id, d: BusinessForm): (r: Business)
    ensures r.id == newId && r.name == d.name && r.contact == d.contact
    ensures r.onboardingStatus == PARTIES_PENDING && r.onboardingCompletedAt.None?
  {
    Business(newId, d.name, d.contact, PARTIES_PENDING, None)
  }

  /** `createBusinessAction`: an owner without a business gets one; an owner with one is refused. */
  function Create(businesses: Businesses, ownerId: Id, f: BusinessForm, isEmail: string -> bool,
                  newId: Id, fault: Option<Thrown>): (r: (ActionResult<()>, Businesses))
    ensures !BusinessRules(f, isEmail) ==>
      r == (Err(Some(VALIDATION_ERROR), FixFieldsMessage,
                Some(Group(ParseBusiness(f, isEmail).issues, None))), businesses)
    ensures BusinessRules(f, isEmail) && fault.Some? ==> r == (Caught(fault.value), businesses)
    ensures BusinessRules(f, isEmail) && fault.None? && ownerId in businesses ==> r == (AlreadyExists(), businesses)
    ensures r.0.Ok? <==> BusinessRules(f, isEmail) && fault.None? && ownerId !in businesses
    ensures r.0.Ok? ==> r.1 == businesses[ownerId := NewBusiness(newId, ParseBusiness(f, isEmail).data)]
    ensures r.0.Err? ==> r.1 == businesses
  {
    match ParseBusiness(f, isEmail)
    case Failed(issues) =>
      (Err(Some(VALIDATION_ERROR), FixFieldsMessage, Some(Group(issues, None))), businesses)
    case Parsed(d) =>
      if fault.Some? then (Caught(fault.value), businesses)
      else if ownerId in businesses then (AlreadyExists(), businesses)
      else (Ok(()), businesses[ownerId := NewBusiness(newId, d)])
  }

  /**
   * A second creation for the same owner is refused and changes nothing,
   * whatever form it submits: the owner's first business stays.
   */
  lemma {:induction false} SecondCreateRefused(businesses: Businesses, ownerId: Id, f: BusinessForm, g: BusinessForm,
                            isEmail: string -> bool, id1: Id, id2: Id)
    requires BusinessRules(g, isEmail)
    ensures var first := Create(businesses, ownerId, f, isEmail, id1, None);
      first.0.Ok? ==> Create(first.1, ownerId, g, isEmail, id2, None) == (AlreadyExists(), first.1)
  {
  }
}
