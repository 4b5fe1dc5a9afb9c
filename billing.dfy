/**
 * The computations of bill finalisation: issue grouping, the price overrides
 * taken from the bill lines, the clamped line amount, and the sums and store
 * rewrites that describe a finalised selection.
 */
module Billing {
  import opened Wrappers
  import opened Entities
  import opened Validation
  import opened BillValidator

  // ---- zodFieldErrors --------------------------------------------------------

  /** The key of the issues that carry no path. */
  const RootKey: string := "root"

  /** `zodFieldErrors`: each issue's message appended under its first path segment, or "root". */
  method ZodFieldErrors(issues: seq<Issue>) returns (out: FieldErrors)
    ensures out == Group(issues, Some(RootKey))
  {
    out := map[];
    for i := 0 to |issues|
      invariant out == Group(issues[..i], Some(RootKey))
    {
      var issue := issues[i];
      var key := if issue.path != [] then issue.path[0] else RootKey;
      var existing := if key in out then out[key] else [];
      out := out[key := existing + [issue.message]];
      assert issues[..i + 1][..i] == issues[..i];
    }
    assert issues[..|issues|] == issues;
  }

  /** Every issue lands under some field, so a failed parse always reports at least one field. */
  lemma RootCatchesAll(issues: seq<Issue>)
    requires issues != []
    ensures Group(issues, Some(RootKey)) != map[]
  {
    var last := issues[|issues| - 1];
    var k := if last.path != [] then last.path[0] else RootKey;
    GroupSpec(issues, Some(RootKey), k);
    assert KeyOf(issues[|issues| - 1], Some(RootKey)) == Some(k);
  }

  // ---- overrides ---------------------------------------------------------------

  /** The rate and discount a bill line sets for one item. */
  datatype Override = Override(rate: real, discount: real)

  type Overrides = map<Id, Override>

  function LineOverride(l: LineForm): Override
  {
    Override(l.rate, l.discount)
  }

  /** `overrideByItemId` once every line has been set, in line order. */
  function OverridesOf(lines: seq<LineForm>): Overrides
  {
    if lines == [] then map[]
    else OverridesOf(lines[..|lines| - 1])[lines[|lines| - 1].itemId := LineOverride(lines[|lines| - 1])]
  }

  /** `j` is the last line naming item `id`. */
  predicate LastLineFor(lines: seq<LineForm>, id: Id, j: int)
  {
    0 <= j < |lines| && lines[j].itemId == id && forall k :: j < k < |lines| ==> lines[k].itemId != id
  }

  /**
   * An item has an override exactly when some line names it, and a repeated
   * item takes the rate and discount of its last line.
   */
  lemma {:induction false} OverridesLastWins(lines: seq<LineForm>, id: Id)
    ensures id in OverridesOf(lines) <==> exists j :: 0 <= j < |lines| && lines[j].itemId == id
    ensures forall j :: LastLineFor(lines, id, j) ==> id in OverridesOf(lines) && OverridesOf(lines)[id] == LineOverride(lines[j])
  {
    if lines != [] {
      var init := lines[..|lines| - 1];
      OverridesLastWins(init, id);
      forall j | 0 <= j < |init| ensures init[j] == lines[j] {}
      forall j | LastLineFor(lines, id, j)
        ensures id in OverridesOf(lines) && OverridesOf(lines)[id] == LineOverride(lines[j])
      {
        if j < |init| {
          assert LastLineFor(init, id, j);
        }
      }
      if exists j :: 0 <= j < |lines| && lines[j].itemId == id {
        var j :| 0 <= j < |lines| && lines[j].itemId == id;
        if j < |init| {
          assert init[j].itemId == id;
        }
      }
    }
  }

  /** Building `overrideByItemId` line by line. */
  method BuildOverrides(lines: seq<LineForm>) returns (m: Overrides)
    ensures m == OverridesOf(lines)
  {
    m := map[];
    for i := 0 to |lines|
      invariant m == OverridesOf(lines[..i])
    {
      assert lines[..i + 1][..i] == lines[..i];
      m := m[lines[i].itemId := LineOverride(lines[i])];
    }
    assert lines[..|lines|] == lines;
  }

  // ---- line amount ----------------------------------------------------------------

  function Max(a: real, b: real): real { if a >= b then a else b }
  function Min(a: real, b: real): real { if a <= b then a else b }

  /** `Math.max(0, rate)` */
  function ClampRate(rate: real): real { Max(0.0, rate) }

  /** `Math.min(100, Math.max(0, discount))` */
  function ClampDiscount(discount: real): real { Min(100.0, Max(0.0, discount)) }

  /** The amount a billed item is stored with. */
  function LineAmount(o: Override, quantity: real): real
  {
    var r := ClampRate(o.rate);
    var d := ClampDiscount(o.discount);
    Max(0.0, r * quantity * ((100.0 - d) / 100.0))
  }

  /**
   * The stored rate is non-negative, the discount lies in [0, 100], and for a
   * non-negative quantity the amount lies between 0 and rate times quantity.
   */
  lemma LineAmountBounds(o: Override, quantity: real)
    ensures ClampRate(o.rate) >= 0.0 && 0.0 <= ClampDiscount(o.discount) <= 100.0
    ensures LineAmount(o, quantity) >= 0.0
    ensures quantity >= 0.0 ==> LineAmount(o, quantity) <= ClampRate(o.rate) * quantity
  {
    var r := ClampRate(o.rate);
    var d := ClampDiscount(o.discount);
    var f := (100.0 - d) / 100.0;
    if quantity >= 0.0 {
      var g := r * quantity;
      assert g >= 0.0;
      assert 0.0 <= f <= 1.0;
      NonNegativeProduct(g, 1.0 - f);
      assert g - g * f == g * (1.0 - f);
      assert r * quantity * f == g * f;
    }
  }

  lemma NonNegativeProduct(a: real, b: real)
    requires a >= 0.0 && b >= 0.0
    ensures a * b >= 0.0
  {
  }

  /** A discount of 100 or more makes the line free; a negative one counts as none. */
  lemma DiscountClampExamples(rate: real, quantity: real)
    requires rate >= 0.0
    ensures LineAmount(Override(rate, 150.0), quantity) == 0.0
    ensures LineAmount(Override(rate, -5.0), quantity) == LineAmount(Override(rate, 0.0), quantity)
  {
  }

  // ---- sums over sets of rows -------------------------------------------------------

  /** The sum of `f` over a finite set of ids, in no particular order. */
  ghost function SetSum(s: set<Id>, f: Id -> real): real
    decreases s
  {
    if s == {} then 0.0 else var x :| x in s; f(x) + SetSum(s - {x}, f)
  }

  /** Any element can be taken out first: the sum does not depend on the order. */
  lemma {:induction false} SetSumRemove(s: set<Id>, f: Id -> real, y: Id)
    requires y in s
    ensures SetSum(s, f) == f(y) + SetSum(s - {y}, f)
    decreases s
  {
    var x :| x in s && SetSum(s, f) == f(x) + SetSum(s - {x}, f);
    if x != y {
      SetSumRemove(s - {x}, f, y);
      SetSumRemove(s - {y}, f, x);
      assert s - {x} - {y} == s - {y} - {x};
    }
  }

  /** Adding one element to a sum. */
  lemma SetSumAdd(s: set<Id>, f: Id -> real, y: Id)
    requires y !in s
    ensures SetSum(s + {y}, f) == SetSum(s, f) + f(y)
  {
    SetSumRemove(s + {y}, f, y);
    assert s + {y} - {y} == s;
  }

  /** A sum of non-negative terms is non-negative. */
  lemma {:induction false} SetSumNonNegative(s: set<Id>, f: Id -> real)
    requires forall x :: x in s ==> f(x) >= 0.0
    ensures SetSum(s, f) >= 0.0
    decreases s
  {
    if s != {} {
      var x :| x in s && SetSum(s, f) == f(x) + SetSum(s - {x}, f);
      SetSumNonNegative(s - {x}, f);
    }
  }

  // ---- the store rewrite of a finalised selection -------------------------------------

  /** The ids of the items of challan `c`. */
  function ItemsOf(items: map<Id, ChallanItem>, c: Id): set<Id>
  {
    set i | i in items && items[i].challanId == c
  }

  /** The ids of the items of every challan in `cs`. */
  function ItemsOfAll(items: map<Id, ChallanItem>, cs: set<Id>): set<Id>
  {
    set i | i in items && items[i].challanId in cs
  }

  /** The amount item `i` is billed at under the overrides (0 for an item without one). */
  function ItemAmount(items: map<Id, ChallanItem>, o: Overrides, i: Id): real
  {
    if i in items && i in o then LineAmount(o[i], items[i].quantity) else 0.0
  }

  /** An item as finalisation stores it: clamped rate and discount, computed amount. */
  function Rewritten(it: ChallanItem, o: Override): (r: ChallanItem)
    ensures r.challanId == it.challanId && r.quantity == it.quantity
    ensures r.materialId == it.materialId && r.materialName == it.materialName && r.unit == it.unit
    ensures r.createdAt == it.createdAt
  {
    it.(rate := Some(ClampRate(o.rate)), discount := Some(ClampDiscount(o.discount)),
        amount := Some(LineAmount(o, it.quantity)))
  }

  /** The item table with the items in `done` that have an override rewritten from it. */
  function RewriteItems(items: map<Id, ChallanItem>, o: Overrides, done: set<Id>): (r: map<Id, ChallanItem>)
    ensures r.Keys == items.Keys
  {
    map i | i in items :: if i in done && i in o then Rewritten(items[i], o[i]) else items[i]
  }

  /** The billed amount of each item. */
  function AmountOf(items: map<Id, ChallanItem>, o: Overrides): Id -> real
  {
    i => ItemAmount(items, o, i)
  }

  /** The total of challan `c`: the sum of its items' billed amounts. */
  ghost function ChallanTotal(items: map<Id, ChallanItem>, o: Overrides, c: Id): real
  {
    SetSum(ItemsOf(items, c), AmountOf(items, o))
  }

  /** The billed total of each challan. */
  ghost function TotalOf(items: map<Id, ChallanItem>, o: Overrides): Id -> real
  {
    c => ChallanTotal(items, o, c)
  }

  /** A challan as finalisation marks it. */
  function MarkedBilled(ch: Challan, billId: Id, total: real): Challan
  {
    ch.(billingStatus := BILLED, billId := Some(billId), totalAmount := Some(total))
  }

  /** The challan table with the challans in `done` marked billed to `billId`. */
  ghost function MarkChallans(challans: map<Id, Challan>, items: map<Id, ChallanItem>, o: Overrides,
                              done: set<Id>, billId: Id): (r: map<Id, Challan>)
    ensures r.Keys == challans.Keys
  {
    map c | c in challans :: if c in done then MarkedBilled(challans[c], billId, ChallanTotal(items, o, c)) else challans[c]
  }

  /** Every item of every challan in `cs` has an override. */
  predicate Covered(items: map<Id, ChallanItem>, o: Overrides, cs: set<Id>)
  {
    forall i :: i in items && items[i].challanId in cs ==> i in o
  }

  /** The bill subtotal: the sum of the totals of the billed challans. */
  ghost function Subtotal(items: map<Id, ChallanItem>, o: Overrides, cs: set<Id>): real
  {
    SetSum(cs, TotalOf(items, o))
  }

  /** A subtotal is the sum of non-negative line amounts, so it is never negative. */
  lemma SubtotalNonNegative(items: map<Id, ChallanItem>, o: Overrides, cs: set<Id>)
    ensures Subtotal(items, o, cs) >= 0.0
  {
    forall c | c in cs ensures ChallanTotal(items, o, c) >= 0.0 {
      forall i | i in ItemsOf(items, c) ensures ItemAmount(items, o, i) >= 0.0 {
        if i in o {
          LineAmountBounds(o[i], items[i].quantity);
        }
      }
      SetSumNonNegative(ItemsOf(items, c), AmountOf(items, o));
    }
    SetSumNonNegative(cs, TotalOf(items, o));
  }
}
