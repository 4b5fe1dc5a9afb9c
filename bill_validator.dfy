/** The bill request: who is billed, for which challans, with which line prices. */
module BillValidator {
  import opened Wrappers
  import opened Text
  import opened Entities
  import opened Validation

  /** One editable bill line: an override of one challan item's rate and discount. */
  datatype LineForm = LineForm(
    challanId: string,
    itemId: string,
    materialName: Option<string>,
    unit: Option<string>,
    quantity: real,
    rate: real,
    discount: real)

  /** `createBillSchemaRequest`; `billNo` is only shown, the server numbers the bill itself. */
  datatype BillForm = BillForm(
    businessId: string,
    partyId: string,
    billDate: Date,
    billNo: Option<string>,
    periodStart: Option<Date>,
    periodEnd: Option<Date>,
    notes: Field<string>,
    selectedChallanIds: seq<string>,
    lines: seq<LineForm>)

  predicate LineOk(l: LineForm)
  {
    && l.challanId != "" && l.itemId != ""
    && l.quantity >= 0.0
    && l.rate >= 0.0
    && 0.0 <= l.discount <= 100.0
  }

  /** The refinement: when both bounds are given the period must not run backwards. */
  predicate PeriodOk(start: Option<Date>, end: Option<Date>)
  {
    start.None? || end.None? || DateLe(start.value, end.value)
  }

  /** The rules of `createBillSchema`. */
  predicate BillRules(f: BillForm)
  {
    && f.businessId != ""
    && f.partyId != ""
    && (f.notes.Present? ==> |f.notes.value| <= 2000)
    && |f.selectedChallanIds| >= 1
    && (forall i :: 0 <= i < |f.selectedChallanIds| ==> f.selectedChallanIds[i] != "")
    && |f.lines| >= 1
    && (forall i :: 0 <= i < |f.lines| ==> LineOk(f.lines[i]))
    && PeriodOk(f.periodStart, f.periodEnd)
  }

  function At(path: seq<string>, ok: bool, message: string): (r: seq<Issue>)
    ensures r == [] <==> ok
  {
    if ok then [] else [Issue(path, message)]
  }

  /** Issues of the selected ids from index `from` on, each under its position. */
  function IdIssues(ids: seq<string>, from: nat): (r: seq<Issue>)
    requires from <= |ids|
    ensures r == [] <==> forall i :: from <= i < |ids| ==> ids[i] != ""
    decreases |ids| - from
  {
    if from == |ids| then []
    else
      At(["selectedChallanIds", DecimalString(from)], ids[from] != "", DefaultMessage)
      + IdIssues(ids, from + 1)
  }

  function LineIssues(l: LineForm, index: nat): (r: seq<Issue>)
    ensures r == [] <==> LineOk(l)
  {
    var p := ["lines", DecimalString(index)];
    At(p + ["challanId"], l.challanId != "", DefaultMessage)
    + At(p + ["itemId"], l.itemId != "", DefaultMessage)
    + At(p + ["quantity"], l.quantity >= 0.0, DefaultMessage)
    + At(p + ["rate"], l.rate >= 0.0, DefaultMessage)
    + At(p + ["discount"], 0.0 <= l.discount, DefaultMessage)
    + At(p + ["discount"], l.discount <= 100.0, DefaultMessage)
  }

  function LinesIssues(lines: seq<LineForm>, from: nat): (r: seq<Issue>)
    requires from <= |lines|
    ensures r == [] <==> forall i :: from <= i < |lines| ==> LineOk(lines[i])
    decreases |lines| - from
  {
    if from == |lines| then [] else LineIssues(lines[from], from) + LinesIssues(lines, from + 1)
  }

  /** `createBillSchema.safeParse`: the request passes through unchanged when it is accepted. */
  function ParseBill(f: BillForm): (r: Parsed<BillForm>)
    ensures r.Parsed? <==> BillRules(f)
    ensures r.Parsed? ==> r.data == f
  {
    var issues :=
      At(["businessId"], f.businessId != "", BusinessRequiredMessage)
      + At(["partyId"], f.partyId != "", PartyRequiredMessage)
      + At(["notes"], !f.notes.Present? || |f.notes.value| <= 2000, DefaultMessage)
      + At(["selectedChallanIds"], |f.selectedChallanIds| >= 1, SelectChallanMessage)
      + IdIssues(f.selectedChallanIds, 0)
      + At(["lines"], |f.lines| >= 1, NoLinesMessage)
      + LinesIssues(f.lines, 0)
      + At(["periodEnd"], PeriodOk(f.periodStart, f.periodEnd), PeriodMessage);
    Outcome(issues, f)
  }

  const BusinessRequiredMessage: string := "Business is required"
  const PartyRequiredMessage: string := "Party is required"
  const SelectChallanMessage: string := "Select at least 1 challan to bill"
  const NoLinesMessage: string := "No bill lines found. Select challans first."
  const PeriodMessage: string := "Period start must be before period end"

  /** A backwards period is reported under `periodEnd`, with the form's message. */
  lemma BackwardsPeriodReported(f: BillForm)
    requires !PeriodOk(f.periodStart, f.periodEnd)
    ensures ParseBill(f).Failed?
    ensures Issue(["periodEnd"], PeriodMessage) in ParseBill(f).issues
  {
  }
}
