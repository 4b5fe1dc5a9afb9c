/**
 * Challan arithmetic: line nets, quantity and amount totals as creation and
 * editing compute them, and the item rows each of them stores.
 */
module ChallanTotals {
  import opened Wrappers
  import opened Entities
  import opened ChallanValidator

  function Max(a: real, b: real): real { if a >= b then a else b }

  /** `Math.max(0, rate * qty * ((100 - discount) / 100))` */
  function LineNet(rate: real, quantity: real, discount: real): (r: real)
    ensures r >= 0.0
  {
    Max(0.0, rate * quantity * ((100.0 - discount) / 100.0))
  }

  /** `Math.max(0, subTotal * ((100 - header) / 100))` */
  function TotalAmount(subTotal: real, header: real): (r: real)
    ensures r >= 0.0
  {
    Max(0.0, subTotal * ((100.0 - header) / 100.0))
  }

  /** The header discount, 0 when absent or null. */
  function HeaderDiscount(discountOnChallan: Field<real>): real
  {
    discountOnChallan.OrElse(0.0)
  }

  // ---- creation: line and header discounts stack ------------------------------

  /** A line's net on creation: its own discount always applies; a missing rate or discount counts as 0. */
  function CreateNet(it: ItemForm): real
  {
    LineNet(it.rate.OrElse(0.0), it.quantity, it.discount.OrElse(0.0))
  }

  function CreateSubtotal(items: seq<ItemForm>): real
  {
    if items == [] then 0.0 else CreateSubtotal(items[..|items| - 1]) + CreateNet(items[|items| - 1])
  }

  /** The summed quantities. */
  function TotalQuantity(items: seq<ItemForm>): real
  {
    if items == [] then 0.0 else TotalQuantity(items[..|items| - 1]) + items[|items| - 1].quantity
  }

  /** The totals creation stores: the header discount applies on top of the line discounts. */
  function CreateTotals(items: seq<ItemForm>, discountOnChallan: Field<real>): (real, real)
  {
    (TotalQuantity(items), TotalAmount(CreateSubtotal(items), HeaderDiscount(discountOnChallan)))
  }

  // ---- editing: a header discount switches the line discounts off ---------------

  /** The line discount editing uses: the line's own only while the header discount is 0. */
  function EffectiveLineDiscount(it: ItemForm, header: real): real
  {
    if header == 0.0 then it.discount.OrElse(0.0) else 0.0
  }

  function UpdateNet(it: ItemForm, header: real): real
  {
    LineNet(it.rate.OrElse(0.0), it.quantity, EffectiveLineDiscount(it, header))
  }

  function UpdateSubtotal(items: seq<ItemForm>, header: real): real
  {
    if items == [] then 0.0 else UpdateSubtotal(items[..|items| - 1], header) + UpdateNet(items[|items| - 1], header)
  }

  /** `computeTotals`: total quantity and total amount. */
  function UpdateTotals(items: seq<ItemForm>, discountOnChallan: Field<real>): (real, real)
  {
    var h := HeaderDiscount(discountOnChallan);
    (TotalQuantity(items), TotalAmount(UpdateSubtotal(items, h), h))
  }

  /** Both subtotals are sums of non-negative nets. */
  lemma {:induction false} SubtotalsNonNegative(items: seq<ItemForm>, header: real)
    ensures CreateSubtotal(items) >= 0.0 && UpdateSubtotal(items, header) >= 0.0
  {
    if items != [] {
      SubtotalsNonNegative(items[..|items| - 1], header);
    }
  }

  /** Without a header discount, creating and editing compute the same totals. */
  lemma {:induction false} NoHeaderSameTotals(items: seq<ItemForm>)
    ensures UpdateSubtotal(items, 0.0) == CreateSubtotal(items)
  {
    if items != [] {
      NoHeaderSameTotals(items[..|items| - 1]);
    }
  }

  /** With a header discount, editing ignores every line discount. */
  lemma {:induction false} HeaderOverridesLines(items: seq<ItemForm>, other: seq<ItemForm>, header: real)
    requires header != 0.0 && |items| == |other|
    requires forall i :: 0 <= i < |items| ==> other[i] == items[i].(discount := other[i].discount)
    ensures UpdateSubtotal(items, header) == UpdateSubtotal(other, header)
  {
    if items != [] {
      var n := |items| - 1;
      HeaderOverridesLines(items[..n], other[..n], header);
    }
  }

  /**
   * One line at rate 100, quantity 1, discount 10 under a 10% header discount:
   * creation stores 81 (both discounts), editing stores 90 (the header only).
   */
  lemma StackingVersusZeroing()
    ensures var it := ItemForm(None, Absent, Present("Bolt"), Present("PCS"), 1.0,
                               Present(100.0), Absent, Present(10.0));
      && CreateTotals([it], Present(10.0)).1 == 81.0
      && UpdateTotals([it], Present(10.0)).1 == 90.0
  {
    var it := ItemForm(None, Absent, Present("Bolt"), Present("PCS"), 1.0, Present(100.0), Absent, Present(10.0));
    assert [it][..0] == [];
  }

  // ---- stored item rows -----------------------------------------------------------

  /** `it.materialId ? ... : ...`: a material id counts only when non-empty. */
  predicate HasMaterialId(it: ItemForm)
  {
    it.materialId.Present? && it.materialId.value != ""
  }

  /**
   * The unit creation stores, as written: `it.unit ? null : (it.unit ?? null)`.
   * A non-empty unit is never stored; only an empty one survives.
   */
  function CreatedUnitAsWritten(it: ItemForm): (r: Option<string>)
    ensures it.unit.Present? && it.unit.value != "" ==> r == None
    ensures r.None? || r == Some("")
  {
    if it.unit.Present? && it.unit.value != "" then None else it.unit.OrNull()
  }

  /** As written, a free-text line's unit is never kept: a non-empty unit is stored as null. */
  lemma CreatedUnitDropped()
    ensures var it := ItemForm(None, Absent, Present("Bolt"), Present("PCS"), 1.0, Absent, Absent, Absent);
      CreatedUnitAsWritten(it) == None
  {
  }

  /** The unit creation should store, mirroring the material name: kept unless a material id is given. */
  function CreatedUnit(it: ItemForm): (r: Option<string>)
    ensures !HasMaterialId(it) ==> r == it.unit.OrNull()
    ensures HasMaterialId(it) ==> r == None
  {
    if HasMaterialId(it) then None else it.unit.OrNull()
  }

  /** As written, every accepted free-text line, whose unit the schema demands, is stored with no unit. */
  lemma CreatedUnitAlwaysDropped(it: ItemForm, isUuid: string -> bool)
    requires ItemRules(it, isUuid) && !HasMaterialId(it)
    ensures ParsedItem(it).unit.Present? && ParsedItem(it).unit.value != ""
    ensures CreatedUnitAsWritten(ParsedItem(it)) == None
  {
    CreatedUnitKept(it, isUuid);
  }

  /** Which unit rule creation follows: the code as written, or the rule evidently intended. */
  datatype UnitRule = AsWritten | Intended

  /** The unit stored under `rule`. */
  function StoredUnit(rule: UnitRule, it: ItemForm): Option<string>
  {
    if rule == AsWritten then CreatedUnitAsWritten(it) else CreatedUnit(it)
  }

  /** A free-text line keeps the unit it was validated with. */
  lemma CreatedUnitKept(it: ItemForm, isUuid: string -> bool)
    requires ItemRules(it, isUuid) && !HasMaterialId(it)
    ensures CreatedUnit(ParsedItem(it)).Some? && CreatedUnit(ParsedItem(it)).value != ""
  {
  }

  /** The item row creation stores for a validated line, under unit rule `rule`. */
  function CreatedItem(challanId: Id, it: ItemForm, now: Timestamp, rule: UnitRule): (r: ChallanItem)
    ensures r.challanId == challanId && r.quantity == it.quantity && r.createdAt == now
    ensures r.materialId == it.materialId.OrNull()
    ensures r.materialName == (if HasMaterialId(it) then None else it.materialName.OrNull())
    ensures rule == AsWritten ==> r.unit == CreatedUnitAsWritten(it)
    ensures rule == Intended ==> r.unit == CreatedUnit(it)
    ensures r.rate == Some(it.rate.OrElse(0.0)) && r.discount == Some(it.discount.OrElse(0.0))
    ensures r.amount == Some(CreateNet(it))
  {
    ChallanItem(challanId, it.materialId.OrNull(),
                if HasMaterialId(it) then None else it.materialName.OrNull(),
                StoredUnit(rule, it), it.quantity,
                Some(it.rate.OrElse(0.0)), Some(it.discount.OrElse(0.0)), Some(CreateNet(it)), now)
  }

  /** The item row editing stores for a submitted line: rate and discount kept as given, amount recomputed. */
  function UpdatedItem(challanId: Id, it: ItemForm, header: real, now: Timestamp): (r: ChallanItem)
    ensures r.challanId == challanId && r.quantity == it.quantity && r.createdAt == now
    ensures r.materialId == it.materialId.OrNull()
    ensures r.materialName == (if HasMaterialId(it) then None else it.materialName.OrNull())
    ensures r.unit == it.unit.OrNull()
    ensures r.rate == it.rate.OrNull() && r.discount == it.discount.OrNull()
    ensures r.amount == Some(UpdateNet(it, header))
  {
    ChallanItem(challanId, it.materialId.OrNull(),
                if HasMaterialId(it) then None else it.materialName.OrNull(),
                it.unit.OrNull(), it.quantity, it.rate.OrNull(), it.discount.OrNull(),
                Some(UpdateNet(it, header)), now)
  }
}
