/**
 * The rows and results of creating and editing a challan: the header row
 * creation inserts, the header an edit writes, the item rows of both, the
 * editable-challan lookup and the messages of the caught errors.
 */
module ChallanActions {
  import opened Wrappers
  import opened Text
  import opened Entities
  import opened Validation
  import opened Errors
  import opened ChallanValidator
  import opened ChallanTotals
  import opened UnbilledQuery
  import opened Rows

  const ValidationFailedMessage: string := "Validation failed"

  // ---- results -------------------------------------------------------------------

  /** The schema's issues under their fields (`flatten().fieldErrors`). */
  function InvalidChallan(issues: seq<Issue>): ActionResult<Id>
  {
    Err(None, ValidationFailedMessage, Some(Group(issues, None)))
  }

  const DuplicateNumberMessage: string := "Challan number already exists for this business."
  const CreateFailedMessage: string := "Something went wrong while creating challan."
  const NotFoundMessage: string := "Challan not found."
  const LockedMessage: string := "This challan is billed and cannot be edited."
  const UpdateFailedMessage: string := "Something went wrong while updating challan."

  /** What creation answers for an error inside its transaction. */
  function CreateCaught(e: Thrown): (r: ActionResult<Id>)
    ensures r.Err? && r.code.None? && r.fieldErrors.None?
    ensures r.message == DuplicateNumberMessage <==> e == KnownRequestError("P2002")
    ensures r.message == DuplicateNumberMessage || r.message == CreateFailedMessage
  {
    if e.KnownRequestError? && e.code == "P2002" then Err(None, DuplicateNumberMessage, None)
    else Err(None, CreateFailedMessage, None)
  }

  /**
   * What editing answers for an error inside its transaction, including the
   * two it throws itself with the messages NOT_FOUND and LOCKED_BILLED.
   */
  function UpdateCaught(e: Thrown): (r: ActionResult<Id>)
    ensures r.Err? && r.code.None? && r.fieldErrors.None?
    ensures r.message == NotFoundMessage <==> e == OtherError(Some("NOT_FOUND"))
    ensures r.message == LockedMessage <==> e == OtherError(Some("LOCKED_BILLED"))
    ensures r.message == DuplicateNumberMessage <==> e == KnownRequestError("P2002")
    ensures r.message in {NotFoundMessage, LockedMessage, DuplicateNumberMessage, UpdateFailedMessage}
  {
    if e == OtherError(Some("NOT_FOUND")) then Err(None, NotFoundMessage, None)
    else if e == OtherError(Some("LOCKED_BILLED")) then Err(None, LockedMessage, None)
    else if e.KnownRequestError? && e.code == "P2002" then Err(None, DuplicateNumberMessage, None)
    else Err(None, UpdateFailedMessage, None)
  }

  // ---- creation --------------------------------------------------------------------

  /**
   * The header row creation inserts: outward, unbilled, numbered with the
   * issued number written in decimal, with the totals of `CreateTotals`.
   */
  function NewChallan(businessId: Id, d: ChallanData, issued: nat, now: Timestamp): (r: Challan)
  {
    var totals := CreateTotals(d.items, d.discountOnChallan);
    Challan(businessId, d.partyId, d.date, Some(DecimalString(issued)), d.vehicleNo.OrNull(), d.remarks.OrNull(),
            OUTWARD, d.purpose, Some(HeaderDiscount(d.discountOnChallan)), totals.0, Some(totals.1),
            UNBILLED, None, now)
  }

  /**
   * A created challan is an unbilled outward one of the session's business
   * whose number reads back as the issued number; a sale or job-work one is
   * listed among the candidates for the party's next bill.
   */
  lemma NewChallanShape(businessId: Id, d: ChallanData, issued: nat, now: Timestamp)
    ensures var ch := NewChallan(businessId, d, issued, now);
      && ch.businessId == businessId && ch.partyId == d.partyId
      && ch.entryType == OUTWARD && ch.billingStatus == UNBILLED && ch.billId.None?
      && ch.challanNo.Some? && AllDigits(ch.challanNo.value) && ParseDecimal(ch.challanNo.value) == issued
      && ch.totalAmount.Some? && ch.totalAmount.value >= 0.0
      && (Candidate(ch, businessId, d.partyId) <==> d.purpose == SALE || d.purpose == JOBWORK)
  {
    DecimalRoundTrip(issued);
  }

  /** The item rows creation inserts under unit rule `rule`, one per validated line. */
  function CreatedRows(challanId: Id, its: seq<ItemForm>, now: Timestamp, rule: UnitRule): (r: seq<ChallanItem>)
    ensures |r| == |its| && AllOf(r, challanId)
    ensures forall k :: 0 <= k < |its| ==> r[k] == CreatedItem(challanId, its[k], now, rule)
  {
    seq(|its|, k requires 0 <= k < |its| => CreatedItem(challanId, its[k], now, rule))
  }

  /**
   * As written, creation stores no non-empty unit at all, and every accepted
   * free-text line loses the unit the schema made it give.
   */
  lemma CreatedRowsDropUnits(challanId: Id, form: ChallanForm, isUuid: string -> bool, now: Timestamp)
    requires ChallanRules(form, isUuid)
    ensures var its := ParseChallan(form, isUuid).data.items;
      var r := CreatedRows(challanId, its, now, AsWritten);
      && |its| == |form.items|
      && (forall k :: 0 <= k < |r| ==> r[k].unit.None? || r[k].unit == Some(""))
      && (forall k :: 0 <= k < |r| && !HasMaterialId(form.items[k]) ==> r[k].unit.None?)
  {
    var its := ParseChallan(form, isUuid).data.items;
    forall k | 0 <= k < |its| && !HasMaterialId(form.items[k])
      ensures CreatedUnitAsWritten(its[k]) == None
    {
      CreatedUnitAlwaysDropped(form.items[k], isUuid);
    }
  }

  /**
   * Under the intended unit rule, every accepted free-text line is stored
   * with the trimmed, non-empty unit it was validated with.
   */
  lemma CreatedRowsKeepUnits(challanId: Id, form: ChallanForm, isUuid: string -> bool, now: Timestamp)
    requires ChallanRules(form, isUuid)
    ensures var its := ParseChallan(form, isUuid).data.items;
      var r := CreatedRows(challanId, its, now, Intended);
      && |its| == |form.items|
      && (forall k :: 0 <= k < |r| && !HasMaterialId(form.items[k]) ==>
            && r[k].unit == Some(Trim(form.items[k].unit.value)) && r[k].unit.value != "")
  {
    var its := ParseChallan(form, isUuid).data.items;
    forall k | 0 <= k < |its| && !HasMaterialId(form.items[k])
      ensures CreatedUnit(its[k]).Some? && CreatedUnit(its[k]).value != ""
    {
      CreatedUnitKept(form.items[k], isUuid);
    }
  }

  // ---- editing -----------------------------------------------------------------------

  /** The `findFirst` of editing: an outward sale or job-work challan of business `scope`. */
  predicate Editable(challans: map<Id, Challan>, scope: Id, id: Id)
  {
    && id in challans && challans[id].businessId == scope
    && challans[id].entryType == OUTWARD
    && (challans[id].purpose == JOBWORK || challans[id].purpose == SALE)
  }

  /**
   * The header after an edit: party, date, purpose and totals replaced, the
   * optional fields written over the stored ones.
   */
  function EditedHeader(ch: Challan, d: ChallanData, totals: (real, real)): (r: Challan)
    ensures r.partyId == d.partyId && r.date == d.date && r.purpose == d.purpose
    ensures r.vehicleNo == d.vehicleNo.Over(ch.vehicleNo) && r.remarks == d.remarks.Over(ch.remarks)
    ensures r.discountOnChallan == d.discountOnChallan.Over(ch.discountOnChallan)
    ensures r.totalQuantity == totals.0 && r.totalAmount == Some(totals.1)
  {
    ch.(partyId := d.partyId, date := d.date, vehicleNo := d.vehicleNo.Over(ch.vehicleNo),
        remarks := d.remarks.Over(ch.remarks), discountOnChallan := d.discountOnChallan.Over(ch.discountOnChallan),
        purpose := d.purpose, totalAmount := Some(totals.1), totalQuantity := totals.0)
  }

  /**
   * An edit keeps the number, the business, the billing fields and the
   * creation time; the challan stays editable exactly when the new purpose
   * is sale or job work.
   */
  lemma EditKeepsIdentity(challans: map<Id, Challan>, scope: Id, id: Id, d: ChallanData, totals: (real, real))
    requires Editable(challans, scope, id)
    ensures var r := EditedHeader(challans[id], d, totals);
      && r.challanNo == challans[id].challanNo && r.businessId == challans[id].businessId
      && r.billingStatus == challans[id].billingStatus && r.billId == challans[id].billId
      && r.entryType == challans[id].entryType && r.createdAt == challans[id].createdAt
      && (Editable(challans[id := r], scope, id) <==> d.purpose == JOBWORK || d.purpose == SALE)
  {
  }

  /** The item rows an edit inserts, one per submitted line, priced under the header discount. */
  function UpdatedRows(challanId: Id, its: seq<ItemForm>, header: real, now: Timestamp): (r: seq<ChallanItem>)
    ensures |r| == |its| && AllOf(r, challanId)
    ensures forall k :: 0 <= k < |its| ==> r[k] == UpdatedItem(challanId, its[k], header, now)
  {
    seq(|its|, k requires 0 <= k < |its| => UpdatedItem(challanId, its[k], header, now))
  }

  /**
   * Scoping the lookup by the form's business lets a session of business
   * "b1" reach a challan of business "b2": the form only has to name "b2".
   */
  lemma ForeignChallanEditable()
    ensures var ch := Challan("b2", "p", Date(2025, 4, 1), Some("1"), None, None, OUTWARD, SALE,
                              None, 1.0, None, UNBILLED, None, 0);
      && Editable(map["c" := ch], "b2", "c")
      && !Editable(map["c" := ch], "b1", "c")
  {
  }
}
