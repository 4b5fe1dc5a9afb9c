/**
 * The party actions stated case by case on the party table: soft deletion,
 * restoring, switching active, editing, and creation with the onboarding
 * step it completes.  The store's methods are proved to have exactly these
 * effects.
 */
module PartyActions {
  import opened Wrappers
  import opened Text
  import opened Entities
  import opened Validation
  import opened PartyValidator
  import opened Errors

  const NotFoundMessage: string := "Party not found."
  const RestoreStatusMessage: string := "Restore party before changing status."
  const RestoreEditMessage: string := "Restore party before editing."
  const CreateFailedMessage: string := "Unable to create party right now. Please try again."
  const NoBusinessMessage: string := "Business not found. Please complete business setup first."
  const FixFieldsMessage: string := "Please fix the highlighted fields."

  type Parties = map<Id, Party>
  type Businesses = map<Id, Business>

  /** The `findFirst({ id, businessId })` lookup finds the party. */
  predicate Owned(parties: Parties, businessId: Id, id: Id)
  {
    id in parties && parties[id].businessId == businessId
  }

  /** Not soft-deleted: the `deletedAt: null` guard of the conditional updates. */
  predicate Live(p: Party)
  {
    p.deletedAt.None?
  }

  function NotFound(): ActionResult<()>
  {
    Err(Some(NOT_FOUND), NotFoundMessage, None)
  }

  /** The row after a soft deletion by `ownerId` at `now`. */
  function SoftDeleted(p: Party, ownerId: Id, now: Timestamp): (r: Party)
    ensures !Live(r) && !r.isActive
  {
    p.(deletedAt := Some(now), deletedBy := Some(ownerId), isActive := false)
  }

  /** The row after restoring: the deletion fields cleared and active again. */
  function Restored(p: Party): (r: Party)
    ensures Live(r) && r.isActive && r.deletedBy.None?
  {
    p.(deletedAt := None, deletedBy := None, isActive := true)
  }

  /** The row after an edit: name (trimmed), kind and contact replaced. */
  function Edited(p: Party, d: PartyData): Party
  {
    p.(name := Trim(d.name), kind := d.kind, contact := d.contact)
  }

  /** What editing never changes: the business, the active flag and the deletion fields. */
  function Status(p: Party): (Id, bool, Option<Timestamp>, Option<Id>)
  {
    (p.businessId, p.isActive, p.deletedAt, p.deletedBy)
  }

  /** The frame every party action keeps: same ids, only `id` may change, no change on failure. */
  predicate OnlyTouches(before: Parties, r: (ActionResult<()>, Parties), id: Id)
  {
    && r.1.Keys == before.Keys
    && (forall k :: k in before && k != id ==> r.1[k] == before[k])
    && (r.0.Err? ==> r.1 == before)
  }

  // ---- soft delete ---------------------------------------------------------------

  /**
   * `softDeleteParty`: a live party of the business is marked deleted; one
   * already deleted is reported as done with nothing changed; any other id is
   * not found.  A database error (`fault`) changes nothing.
   */
  function SoftDelete(parties: Parties, businessId: Id, ownerId: Id, id: Id, now: Timestamp,
                      fault: Option<Thrown>): (r: (ActionResult<()>, Parties))
    ensures OnlyTouches(parties, r, id)
    ensures fault.Some? ==> r.0 == PrismaError(fault.value)
    ensures fault.None? ==> (r.0.Ok? <==> Owned(parties, businessId, id))
    ensures fault.None? && !Owned(parties, businessId, id) ==> r.0 == NotFound()
    ensures r.1 != parties <==> fault.None? && Owned(parties, businessId, id) && Live(parties[id])
    ensures r.1 != parties ==> r.1[id] == SoftDeleted(parties[id], ownerId, now)
  {
    if fault.Some? then (PrismaError(fault.value), parties)
    else if !Owned(parties, businessId, id) then (NotFound(), parties)
    else if Live(parties[id]) then
      var p := parties[id];
      assert SoftDeleted(p, ownerId, now) != p;
      (Ok(()), parties[id := SoftDeleted(p, ownerId, now)])
    else (Ok(()), parties)
  }

  /** Deleting twice leaves the table as deleting once, and answers the same. */
  lemma SoftDeleteIdempotent(parties: Parties, businessId: Id, ownerId: Id, id: Id, t1: Timestamp, t2: Timestamp)
    ensures var once := SoftDelete(parties, businessId, ownerId, id, t1, None);
            SoftDelete(once.1, businessId, ownerId, id, t2, None) == (once.0, once.1)
  {
    var once := SoftDelete(parties, businessId, ownerId, id, t1, None);
    if Owned(parties, businessId, id) {
      assert once.1[id] == SoftDeleted(parties[id], ownerId, t1) || once.1 == parties;
    }
  }

  // ---- restore -------------------------------------------------------------------

  /**
   * `restoreParty`: a deleted party of the business is restored; a live one is
   * reported as done with nothing changed; any other id is not found.
   */
  function Restore(parties: Parties, businessId: Id, id: Id, fault: Option<Thrown>): (r: (ActionResult<()>, Parties))
    ensures OnlyTouches(parties, r, id)
    ensures fault.Some? ==> r.0 == PrismaError(fault.value)
    ensures fault.None? ==> (r.0.Ok? <==> Owned(parties, businessId, id))
    ensures fault.None? && !Owned(parties, businessId, id) ==> r.0 == NotFound()
    ensures r.1 != parties ==> fault.None? && Owned(parties, businessId, id) && !Live(parties[id])
    ensures fault.None? && Owned(parties, businessId, id) && !Live(parties[id]) ==> r.1[id] == Restored(parties[id])
  {
    if fault.Some? then (PrismaError(fault.value), parties)
    else if !Owned(parties, businessId, id) then (NotFound(), parties)
    else if !Live(parties[id]) then (Ok(()), parties[id := Restored(parties[id])])
    else (Ok(()), parties)
  }

  /**
   * Deleting and then restoring leaves the party live and active whatever its
   * earlier `isActive`, with its name, kind and contact as before.
   */
  lemma DeleteThenRestore(parties: Parties, businessId: Id, ownerId: Id, id: Id, now: Timestamp)
    requires Owned(parties, businessId, id)
    ensures var deleted := SoftDelete(parties, businessId, ownerId, id, now, None).1;
            var restored := Restore(deleted, businessId, id, None);
            && restored.0.Ok?
            && Live(restored.1[id]) && restored.1[id].isActive && restored.1[id].deletedBy.None?
            && restored.1[id].name == parties[id].name && restored.1[id].kind == parties[id].kind
            && restored.1[id].contact == parties[id].contact
  {
    var p := parties[id];
    var deleted := SoftDelete(parties, businessId, ownerId, id, now, None).1;
    assert deleted[id] == SoftDeleted(p, ownerId, now) || deleted[id] == p;
  }

  // ---- toggle --------------------------------------------------------------------

  function DeletedMessage(action: string): ActionResult<()>
  {
    Err(Some(DELETED), action, None)
  }

  /**
   * `togglePartyActive`: a live party of the business has `isActive`
   * negated; a deleted one is refused; any other id is not found.
   */
  function Toggle(parties: Parties, businessId: Id, id: Id, fault: Option<Thrown>): (r: (ActionResult<()>, Parties))
    ensures OnlyTouches(parties, r, id)
    ensures fault.Some? ==> r.0 == PrismaError(fault.value)
    ensures fault.None? && !Owned(parties, businessId, id) ==> r.0 == NotFound()
    ensures fault.None? && Owned(parties, businessId, id) && !Live(parties[id])
            ==> r.0 == DeletedMessage(RestoreStatusMessage)
    ensures r.0.Ok? <==> fault.None? && Owned(parties, businessId, id) && Live(parties[id])
    ensures r.0.Ok? ==> r.1[id] == parties[id].(isActive := !parties[id].isActive)
  {
    if fault.Some? then (PrismaError(fault.value), parties)
    else if !Owned(parties, businessId, id) then (NotFound(), parties)
    else if !Live(parties[id]) then (DeletedMessage(RestoreStatusMessage), parties)
    else (Ok(()), parties[id := parties[id].(isActive := !parties[id].isActive)])
  }

  /** Toggling twice gives back the table, and the deletion fields are never touched. */
  lemma ToggleTwice(parties: Parties, businessId: Id, id: Id)
    ensures var once := Toggle(parties, businessId, id, None);
            && Toggle(once.1, businessId, id, None).1 == parties
            && (forall k :: k in parties ==> once.1[k].deletedAt == parties[k].deletedAt)
  {
    var once := Toggle(parties, businessId, id, None);
    if once.0.Ok? {
      assert once.1[id := parties[id]] == parties;
    }
  }

  // ---- update --------------------------------------------------------------------

  const FixMessage: string := "Fix validation errors."

  /**
   * `updateParty`: the form must parse and carry an id; then a live party of
   * the business gets its name, kind and contact replaced, a deleted one is
   * refused, and any other id is not found.
   */
  function Update(parties: Parties, businessId: Id, form: PartyForm, isEmail: string -> bool,
                  fault: Option<Thrown>): (r: (ActionResult<()>, Parties))
    ensures form.id.Some? ==> OnlyTouches(parties, r, form.id.value)
    ensures form.id.None? ==> r.1 == parties
    ensures !PartyRules(form, isEmail)
            ==> r.0 == Err(None, FixMessage, Some(Group(ParseParty(form, isEmail).issues, None)))
    ensures PartyRules(form, isEmail) && (form.id.None? || form.id.value == "")
            ==> r.0 == Err(None, FixMessage, None)
    ensures r.0.Ok? <==> && PartyRules(form, isEmail) && form.id.Some? && form.id.value != "" && fault.None?
                          && Owned(parties, businessId, form.id.value) && Live(parties[form.id.value])
    ensures r.0.Ok? ==> r.1[form.id.value] == Edited(parties[form.id.value], ParseParty(form, isEmail).data)
    ensures && PartyRules(form, isEmail) && form.id.Some? && form.id.value != "" && fault.None?
            && Owned(parties, businessId, form.id.value) && !Live(parties[form.id.value])
            ==> r.0 == DeletedMessage(RestoreEditMessage)
    ensures forall k :: k in parties ==> Status(r.1[k]) == Status(parties[k])
  {
    match ParseParty(form, isEmail)
    case Failed(issues) => (Err(None, FixMessage, Some(Group(issues, None))), parties)
    case Parsed(d) =>
      if d.id.None? || d.id.value == "" then (Err(None, FixMessage, None), parties)
      else if fault.Some? then (PrismaError(fault.value), parties)
      else if !Owned(parties, businessId, d.id.value) then (NotFound(), parties)
      else if !Live(parties[d.id.value]) then (DeletedMessage(RestoreEditMessage), parties)
      else (Ok(()), parties[d.id.value := Edited(parties[d.id.value], d)])
  }

  // ---- create --------------------------------------------------------------------

  /** Where `createPartyAction` can be interrupted by a database error. */
  datatype CreateStep = LookupBusiness | InsertParty | CompleteOnboarding

  function CreateFailed(): ActionResult<()>
  {
    Err(Some(UNKNOWN_ERROR), CreateFailedMessage, None)
  }

  /** The row a validated form creates: in the owner's business, active, not deleted. */
  function NewParty(businessId: Id, d: PartyData): (r: Party)
    ensures r.businessId == businessId && r.isActive && Live(r) && r.deletedBy.None?
  {
    Party(businessId, d.name, d.kind, d.contact, true, None, None)
  }

  /** The business once its first party exists. */
  function Onboarded(b: Business, now: Timestamp): (r: Business)
    ensures r.id == b.id && r.name == b.name && r.contact == b.contact
    ensures r.onboardingStatus == COMPLETED && r.onboardingCompletedAt == Some(now)
  {
    b.(onboardingStatus := COMPLETED, onboardingCompletedAt := Some(now))
  }

  /**
   * The writes of `createPartyAction` once the form is valid: the party is
   * inserted into the owner's business, then the business is marked
   * onboarded.  The two writes are not one transaction: an error at
   * `CompleteOnboarding` leaves the party inserted.
   */
  function CreateValid(parties: Parties, businesses: Businesses, ownerId: Id, d: PartyData,
                       newId: Id, now: Timestamp, fault: Option<CreateStep>)
    : (r: (ActionResult<()>, Parties, Businesses))
    requires newId !in parties
    ensures fault.None? && ownerId !in businesses ==>
      r == (Err(Some(BUSINESS_NOT_FOUND), NoBusinessMessage, None),
            parties, businesses)
    ensures r.0.Ok? <==> fault.None? && ownerId in businesses
    ensures r.1 != parties <==> ownerId in businesses && (fault.None? || fault == Some(CompleteOnboarding))
    ensures r.1 != parties ==> r.1 == parties[newId := NewParty(businesses[ownerId].id, d)]
    ensures r.2.Keys == businesses.Keys
    ensures forall o :: o in businesses && o != ownerId ==> r.2[o] == businesses[o]
    ensures r.0.Err? ==> r.2 == businesses
    ensures r.0.Ok? ==> r.2[ownerId] == Onboarded(businesses[ownerId], now)
    ensures r.0.Err? && r.0.code != Some(BUSINESS_NOT_FOUND) ==> r.0 == CreateFailed()
  {
    if fault == Some(LookupBusiness) then (CreateFailed(), parties, businesses)
    else if ownerId !in businesses then
      (Err(Some(BUSINESS_NOT_FOUND), NoBusinessMessage, None),
       parties, businesses)
    else
      var b := businesses[ownerId];
      var withParty := parties[newId := NewParty(b.id, d)];
      assert withParty != parties by { assert newId in withParty; }
      match fault
      case Some(LookupBusiness) | Some(InsertParty) => (CreateFailed(), parties, businesses)
      case Some(CompleteOnboarding) => (CreateFailed(), withParty, businesses)
      case None => (Ok(()), withParty, businesses[ownerId := Onboarded(b, now)])
  }

  /** `createPartyAction`: validation, then the writes of `CreateValid`. */
  function Create(parties: Parties, businesses: Businesses, ownerId: Id, form: PartyForm,
                  isEmail: string -> bool, newId: Id, now: Timestamp, fault: Option<CreateStep>)
    : (r: (ActionResult<()>, Parties, Businesses))
    requires newId !in parties
    ensures !PartyRules(form, isEmail) ==>
      r == (Err(Some(VALIDATION_ERROR), FixFieldsMessage,
                Some(Group(ParseParty(form, isEmail).issues, None))), parties, businesses)
    ensures PartyRules(form, isEmail) ==>
      r == CreateValid(parties, businesses, ownerId, ParseParty(form, isEmail).data, newId, now, fault)
  {
    match ParseParty(form, isEmail)
    case Failed(issues) =>
      (Err(Some(VALIDATION_ERROR), FixFieldsMessage, Some(Group(issues, None))), parties, businesses)
    case Parsed(d) => CreateValid(parties, businesses, ownerId, d, newId, now, fault)
  }
}
