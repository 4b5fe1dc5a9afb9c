/**
 * The stored records of the register (the database tables the actions touch)
 * and the result shape the server actions return.
 */
module Entities {
  import opened Wrappers
  import opened FinancialYear

  /** Row identifiers, generated by the database. */
  type Id = string

  /** A creation or deletion instant taken from the clock. */
  type Timestamp = nat

  /**
   * A calendar date: year, month index (0 is January) and the position within
   * the month (day and time of day), which only matters for ordering.
   */
  datatype Date = Date(year: Year, month: Month, offset: nat)

  /** Chronological order of dates. */
  predicate DateLe(a: Date, b: Date)
  {
    a.year < b.year
    || (a.year == b.year && (a.month < b.month || (a.month == b.month && a.offset <= b.offset)))
  }

  /** `getFinancialYearKey(date)`. */
  function YearKey(d: Date): string
  {
    FinancialYearKey(d.year, d.month)
  }

  /** A JavaScript number: finite, or one of the non-finite values. */
  datatype Num = Finite(r: real) | NaN | PosInfinity | NegInfinity

  datatype CounterType = CHALLAN | BILL

  /** The composite key of a `BusinessCounter` row. */
  datatype CounterKey = CounterKey(businessId: Id, counterType: CounterType, yearKey: string)

  datatype EntryType = INWARD | OUTWARD
  datatype Purpose = PURCHASE | SALE | JOBWORK | RETURN | TRANSFER | OTHER
  datatype BillingStatus = UNBILLED | BILLED

  /** A `RegisterEntry` row: one challan header. */
  datatype Challan = Challan(
    businessId: Id,
    partyId: Id,
    date: Date,
    challanNo: Option<string>,
    vehicleNo: Option<string>,
    remarks: Option<string>,
    entryType: EntryType,
    purpose: Purpose,
    discountOnChallan: Option<real>,
    totalQuantity: real,
    totalAmount: Option<real>,
    billingStatus: BillingStatus,
    billId: Option<Id>,
    createdAt: Timestamp)

  /** A `ChallanItems` row: one priced line of a challan. */
  datatype ChallanItem = ChallanItem(
    challanId: Id,
    materialId: Option<Id>,
    materialName: Option<string>,
    unit: Option<string>,
    quantity: real,
    rate: Option<real>,
    discount: Option<real>,
    amount: Option<real>,
    createdAt: Timestamp)

  /** A `Bill` row. */
  datatype Bill = Bill(
    businessId: Id,
    partyId: Id,
    billNo: string,
    billDate: Date,
    periodStart: Option<Date>,
    periodEnd: Option<Date>,
    notes: Option<string>,
    subtotal: real)

  datatype PartyKind = CUSTOMER | SUPPLIER | JOBWORKER | OTHER

  /** The editable contact and address fields of a party or a business. */
  datatype Contact = Contact(
    phone: Option<string>,
    email: Option<string>,
    gstin: Option<string>,
    pan: Option<string>,
    addressLine1: Option<string>,
    addressLine2: Option<string>,
    pincode: Option<string>,
    city: Option<string>)

  /** A `Party` row; `deletedAt` set means soft-deleted. */
  datatype Party = Party(
    businessId: Id,
    name: string,
    kind: PartyKind,
    contact: Contact,
    isActive: bool,
    deletedAt: Option<Timestamp>,
    deletedBy: Option<Id>)

  datatype MaterialUnit = KG | PCS | MTR | LTR

  /** A `Material` row. */
  datatype Material = Material(
    businessId: Id,
    name: string,
    unit: MaterialUnit,
    gstRate: Option<Num>,
    hsnCode: Option<string>,
    isActive: bool)

  datatype OnboardingStatus = PARTIES_PENDING | COMPLETED

  /** A `Business` row; the table is keyed by its owner, one business per owner. */
  datatype Business = Business(
    id: Id,
    name: string,
    contact: Contact,
    onboardingStatus: OnboardingStatus,
    onboardingCompletedAt: Option<Timestamp>)

  /** The machine-readable `code` values the actions return. */
  datatype ErrorCode =
    | VALIDATION_ERROR | NOT_FOUND | FORBIDDEN | CONFLICT | DELETED | FAILED
    | STALE_SELECTION | LINES_MISMATCH
    | BUSINESS_NOT_FOUND | BUSINESS_ALREADY_EXISTS | UNKNOWN_ERROR
    | DUPLICATE | SERVER_ERROR

  /** Messages per form field, as returned to the client. */
  type FieldErrors = map<string, seq<string>>

  /** `{ ok: true, ... } | { ok: false, code?, message, fieldErrors? }`. */
  datatype ActionResult<+T> =
    | Ok(value: T)
    | Err(code: Option<ErrorCode>, message: string, fieldErrors: Option<FieldErrors>)
}
