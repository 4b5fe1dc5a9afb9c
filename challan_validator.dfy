/** The challan form: header fields and at least one item line. */
module ChallanValidator {
  import opened Wrappers
  import opened Text
  import opened Entities
  import opened Validation

  const QuantityMessage: string := "Quantity must be > 0"
  const MaterialMessage: string := "Select a material or enter material name + unit."
  const ItemsMessage: string := "Add at least 1 item"

  /**
   * One item line as submitted (and, with its text fields trimmed, as passed on):
   * a catalogue material by id, or a free-text material name with a unit.
   */
  datatype ItemForm = ItemForm(
    id: Option<string>,
    materialId: Field<Id>,
    materialName: Field<string>,
    unit: Field<string>,
    quantity: real,
    rate: Field<real>,
    amount: Field<real>,
    discount: Field<real>)

  datatype ChallanForm = ChallanForm(
    id: Option<Id>,
    businessId: Id,
    partyId: Id,
    date: Date,
    challanNo: Field<string>,
    vehicleNo: Field<string>,
    remarks: Field<string>,
    purpose: Option<string>,
    discountOnChallan: Field<real>,
    items: seq<ItemForm>)

  /** The form as the schema passes it on: text trimmed, purpose decided. */
  datatype ChallanData = ChallanData(
    id: Option<Id>,
    businessId: Id,
    partyId: Id,
    date: Date,
    challanNo: Field<string>,
    vehicleNo: Field<string>,
    remarks: Field<string>,
    purpose: Purpose,
    discountOnChallan: Field<real>,
    items: seq<ItemForm>)

  function TrimField(v: Field<string>): (r: Field<string>)
    ensures r.Absent? <==> v.Absent?
    ensures r.Null? <==> v.Null?
    ensures r.Present? ==> r.value == Trim(v.value)
  {
    match v
    case Present(s) => Present(Trim(s))
    case Absent => Absent
    case Null => Null
  }

  /** `.nonnegative().optional().nullable()` */
  predicate NonNegative(v: Field<real>)
  {
    v.Present? ==> v.value >= 0.0
  }

  function ParsedItem(f: ItemForm): ItemForm
  {
    f.(materialName := TrimField(f.materialName), unit := TrimField(f.unit))
  }

  /** The refinement, on trimmed values: a material id, or both a name and a unit. */
  predicate HasMaterial(p: ItemForm)
  {
    || (p.materialId.Present? && p.materialId.value != "")
    || (p.materialName.Present? && p.materialName.value != "" && p.unit.Present? && p.unit.value != "")
  }

  /** The rules of `challanItemSchema`; `isUuid` is the library's UUID check. */
  predicate ItemRules(f: ItemForm, isUuid: string -> bool)
  {
    && (f.materialId.Present? ==> isUuid(f.materialId.value))
    && f.quantity > 0.0
    && NonNegative(f.rate) && NonNegative(f.amount) && NonNegative(f.discount)
    && HasMaterial(ParsedItem(f))
  }

  function PurposeName(p: Purpose): string
  {
    match p
    case PURCHASE => "PURCHASE"
    case SALE => "SALE"
    case JOBWORK => "JOBWORK"
    case RETURN => "RETURN"
    case TRANSFER => "TRANSFER"
    case OTHER => "OTHER"
  }

  function PurposeOf(s: string): (r: Option<Purpose>)
    ensures r.Some? ==> PurposeName(r.value) == s
  {
    if s == "PURCHASE" then Some(PURCHASE)
    else if s == "SALE" then Some(SALE)
    else if s == "JOBWORK" then Some(JOBWORK)
    else if s == "RETURN" then Some(RETURN)
    else if s == "TRANSFER" then Some(TRANSFER)
    else if s == "OTHER" then Some(Purpose.OTHER)
    else None
  }

  lemma PurposeRoundTrip(p: Purpose)
    ensures PurposeOf(PurposeName(p)) == Some(p)
  {
  }

  /** The rules of `createChallanSchema`. */
  predicate ChallanRules(f: ChallanForm, isUuid: string -> bool)
  {
    && isUuid(f.businessId) && isUuid(f.partyId)
    && (f.challanNo.Present? ==> Trim(f.challanNo.value) != "")
    && (f.purpose.None? || PurposeOf(f.purpose.value).Some?)
    && NonNegative(f.discountOnChallan)
    && |f.items| >= 1
    && forall i :: 0 <= i < |f.items| ==> ItemRules(f.items[i], isUuid)
  }

  function ItemIssues(f: ItemForm, index: nat, isUuid: string -> bool): (r: seq<Issue>)
    ensures r == [] <==> ItemRules(f, isUuid)
  {
    var p := ["items", DecimalString(index)];
    (if f.materialId.Present? && !isUuid(f.materialId.value) then [Issue(p + ["materialId"], DefaultMessage)] else [])
    + (if f.quantity <= 0.0 then [Issue(p + ["quantity"], QuantityMessage)] else [])
    + (if !NonNegative(f.rate) then [Issue(p + ["rate"], DefaultMessage)] else [])
    + (if !NonNegative(f.amount) then [Issue(p + ["amount"], DefaultMessage)] else [])
    + (if !NonNegative(f.discount) then [Issue(p + ["discount"], DefaultMessage)] else [])
    + (if !HasMaterial(ParsedItem(f)) then [Issue(p, MaterialMessage)] else [])
  }

  function ItemsIssues(items: seq<ItemForm>, from: nat, isUuid: string -> bool): (r: seq<Issue>)
    requires from <= |items|
    ensures r == [] <==> forall i :: from <= i < |items| ==> ItemRules(items[i], isUuid)
    decreases |items| - from
  {
    if from == |items| then []
    else
      var head, rest := ItemIssues(items[from], from, isUuid), ItemsIssues(items, from + 1, isUuid);
      ItemsIssuesStep(items, from, isUuid, head, rest);
      head + rest
  }

  /** The issues of the items from `from` on are empty exactly when those of each item are. */
  lemma ItemsIssuesStep(items: seq<ItemForm>, from: nat, isUuid: string -> bool, head: seq<Issue>, rest: seq<Issue>)
    requires from < |items|
    requires head == [] <==> ItemRules(items[from], isUuid)
    requires rest == [] <==> forall i :: from + 1 <= i < |items| ==> ItemRules(items[i], isUuid)
    ensures head + rest == [] <==> forall i :: from <= i < |items| ==> ItemRules(items[i], isUuid)
  {
    assert |head + rest| == |head| + |rest|;
  }

  /** `createChallanSchema.safeParse`. */
  function ParseChallan(f: ChallanForm, isUuid: string -> bool): (r: Parsed<ChallanData>)
    ensures r.Parsed? <==> ChallanRules(f, isUuid)
    ensures r.Parsed? ==>
      && r.data.id == f.id && r.data.businessId == f.businessId && r.data.partyId == f.partyId
      && r.data.date == f.date
      && r.data.challanNo == TrimField(f.challanNo)
      && r.data.vehicleNo == TrimField(f.vehicleNo)
      && r.data.remarks == TrimField(f.remarks)
      && (f.purpose.None? ==> r.data.purpose == SALE)
      && (f.purpose.Some? ==> PurposeName(r.data.purpose) == f.purpose.value)
      && r.data.discountOnChallan == f.discountOnChallan
      && |r.data.items| == |f.items|
      && forall i :: 0 <= i < |f.items| ==> r.data.items[i] == ParsedItem(f.items[i])
  {
    var purpose := if f.purpose.None? then Some(SALE) else PurposeOf(f.purpose.value);
    var issues :=
      (if isUuid(f.businessId) then [] else [Issue(["businessId"], DefaultMessage)])
      + (if isUuid(f.partyId) then [] else [Issue(["partyId"], DefaultMessage)])
      + (if f.challanNo.Present? && Trim(f.challanNo.value) == "" then [Issue(["challanNo"], DefaultMessage)] else [])
      + (if purpose.None? then [Issue(["purpose"], DefaultMessage)] else [])
      + (if NonNegative(f.discountOnChallan) then [] else [Issue(["discountOnChallan"], DefaultMessage)])
      + (if |f.items| >= 1 then [] else [Issue(["items"], ItemsMessage)])
      + ItemsIssues(f.items, 0, isUuid);
    var items := seq(|f.items|, i requires 0 <= i < |f.items| => ParsedItem(f.items[i]));
    Outcome(issues, ChallanData(f.id, f.businessId, f.partyId, f.date, TrimField(f.challanNo),
                                TrimField(f.vehicleNo), TrimField(f.remarks), purpose.GetOr(SALE),
                                f.discountOnChallan, items))
  }

  /** A line discount has no upper bound: 150 is accepted. */
  lemma DiscountUnbounded(f: ItemForm, isUuid: string -> bool)
    requires ItemRules(f, isUuid)
    ensures ItemRules(f.(discount := Present(150.0)), isUuid)
  {
  }

  /** A free-text material needs both a name and a unit that are non-blank once trimmed. */
  lemma FreeTextNeedsNameAndUnit(f: ItemForm, isUuid: string -> bool)
    requires f.materialId.Absent? || f.materialId.Null?
    requires ItemRules(f, isUuid)
    ensures f.materialName.Present? && !AllSpace(f.materialName.value)
    ensures f.unit.Present? && !AllSpace(f.unit.value)
  {
    TrimEmptyIff(f.materialName.value);
    TrimEmptyIff(f.unit.value);
  }
}
