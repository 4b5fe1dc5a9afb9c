/**
 * What bill finalisation does to the tables, stated on values: which
 * selections pass the re-check, the bill header it writes, the state it
 * leaves, and the single-billing guarantee that follows.
 */
module BillSelection {
  import opened Wrappers
  import opened Entities
  import opened Ordering
  import opened Numbering
  import opened BillValidator
  import opened Billing
  import opened UnbilledQuery
  import opened Rows

  // ---- the re-check of the selection ------------------------------------------

  /** The challans the finalisation query finds: selected, of the business and party, still unbilled. */
  function Found(challans: map<Id, Challan>, ids: seq<Id>, businessId: Id, partyId: Id): (r: set<Id>)
    ensures r <= IdSet(ids) && r <= challans.Keys
  {
    set c | c in challans && c in ids && StillBillable(challans[c], businessId, partyId)
  }

  /** A selection that can be billed: no id twice, and every id an unbilled challan of the business and party. */
  ghost predicate Selectable(challans: map<Id, Challan>, ids: seq<Id>, businessId: Id, partyId: Id)
  {
    && Distinct(ids)
    && forall k :: 0 <= k < |ids| ==> ids[k] in challans && StillBillable(challans[ids[k]], businessId, partyId)
  }

  /**
   * The count comparison `challans.length !== challanIds.length` passes
   * exactly for the selectable selections, which then find every selected
   * challan.  A repeated id therefore always reads as a stale selection.
   */
  lemma FoundCountIff(challans: map<Id, Challan>, ids: seq<Id>, businessId: Id, partyId: Id)
    ensures |Found(challans, ids, businessId, partyId)| <= |ids|
    ensures |Found(challans, ids, businessId, partyId)| == |ids| <==> Selectable(challans, ids, businessId, partyId)
    ensures Selectable(challans, ids, businessId, partyId) ==> Found(challans, ids, businessId, partyId) == IdSet(ids)
    ensures !Distinct(ids) ==> |Found(challans, ids, businessId, partyId)| < |ids|
  {
    var f, s := Found(challans, ids, businessId, partyId), IdSet(ids);
    SubsetCard(f, s);
    IdSetCard(ids);
    if Selectable(challans, ids, businessId, partyId) {
      assert s <= f by {
        forall x | x in s ensures x in f {
          var k :| 0 <= k < |ids| && ids[k] == x;
        }
      }
      assert f == s && |s| == |ids|;
    }
    if |f| == |ids| {
      assert |f| == |s| && |s| == |ids|;
      assert Distinct(ids);
      assert f == s;
      forall k | 0 <= k < |ids| ensures ids[k] in challans && StillBillable(challans[ids[k]], businessId, partyId) {
        assert ids[k] in s;
      }
    }
  }

  // ---- results and the bill header ------------------------------------------------

  const InvalidFormMessage: string := "Invalid form data."
  const MismatchBusinessMessage: string := "Business mismatch."
  const StaleMessage: string := "Some challans are no longer unbilled (or not found). Refresh and try again."
  const LinesMessage: string := "Some bill lines are missing (items mismatch). Re-select challans and try again."
  const FailedMessage: string := "Failed to create bill."

  function StaleSelection(): ActionResult<(Id, string)>
  {
    Err(Some(STALE_SELECTION), StaleMessage, None)
  }

  function LinesMismatch(): ActionResult<(Id, string)>
  {
    Err(Some(LINES_MISMATCH), LinesMessage, None)
  }

  /** `e?.message ?? "Failed to create bill."` for an error thrown inside the transaction. */
  function BillFailed(message: Option<string>): (r: ActionResult<(Id, string)>)
    ensures r.Err? && r.code.None? && r.fieldErrors.None?
    ensures message.Some? ==> r.message == message.value
    ensures message.None? ==> r.message == FailedMessage
  {
    Err(None, message.GetOr(FailedMessage), None)
  }

  /** The counter key of the form's bill: its business and the financial year of its date. */
  function BillKeyOf(f: BillForm): CounterKey
  {
    BillKey(f.businessId, YearKey(f.billDate))
  }

  /**
   * The bill row as first created: the header fields from the form, a null
   * note left empty, and the subtotal still at its default of 0.
   */
  function BillHeader(f: BillForm, billNo: string): (r: Bill)
    ensures r.businessId == f.businessId && r.partyId == f.partyId && r.billNo == billNo
    ensures r.billDate == f.billDate && r.periodStart == f.periodStart && r.periodEnd == f.periodEnd
    ensures r.notes == f.notes.OrNull() && r.subtotal == 0.0
  {
    Bill(f.businessId, f.partyId, billNo, f.billDate, f.periodStart, f.periodEnd, f.notes.OrNull(), 0.0)
  }

  // ---- the state a finalisation leaves ----------------------------------------------

  /**
   * The tables after finalising form `f` as bill `billId` numbered `billNo`:
   * the counter advanced, every item of the selected challans rewritten
   * from its line, those challans billed with their totals, and the bill
   * holding the sum of the totals.
   */
  ghost predicate Finalised(
    counters0: Counters, challans0: map<Id, Challan>, items0: map<Id, ChallanItem>, bills0: map<Id, Bill>,
    counters1: Counters, challans1: map<Id, Challan>, items1: map<Id, ChallanItem>, bills1: map<Id, Bill>,
    f: BillForm, billId: Id, billNo: string)
  {
    var cs, o := IdSet(f.selectedChallanIds), OverridesOf(f.lines);
    && billNo == BillNumber(YearKey(f.billDate), BillRead(counters0, BillKeyOf(f)))
    && counters1 == BillAdvance(counters0, BillKeyOf(f))
    && Covered(items0, o, cs)
    && items1 == RewriteItems(items0, o, ItemsOfAll(items0, cs))
    && challans1 == MarkChallans(challans0, items0, o, cs, billId)
    && bills1 == bills0[billId := BillHeader(f, billNo).(subtotal := Subtotal(items0, o, cs))]
  }

  /**
   * The tables when finalisation stops at a missing line: the counter
   * already advanced, the bill header written with subtotal 0, a proper
   * subset `done` of the selected challans marked billed with their items
   * rewritten, the walked `part` of the remaining challans' items rewritten
   * too, and every other item and challan as it was.
   */
  ghost predicate PartlyFinalised(
    counters0: Counters, challans0: map<Id, Challan>, items0: map<Id, ChallanItem>, bills0: map<Id, Bill>,
    counters1: Counters, challans1: map<Id, Challan>, items1: map<Id, ChallanItem>, bills1: map<Id, Bill>,
    f: BillForm, billId: Id)
  {
    var cs, o := IdSet(f.selectedChallanIds), OverridesOf(f.lines);
    var billNo := BillNumber(YearKey(f.billDate), BillRead(counters0, BillKeyOf(f)));
    && counters1 == BillAdvance(counters0, BillKeyOf(f))
    && bills1 == bills0[billId := BillHeader(f, billNo)]
    && exists done, part :: && done < cs && part <= ItemsOfAll(items0, cs - done)
                            && items1 == RewriteItems(items0, o, ItemsOfAll(items0, done) + part)
                            && challans1 == MarkChallans(challans0, items0, o, done, billId)
  }

  /**
   * A run stopped at a missing line still consumes a bill number and leaves
   * a bill row behind: the action answers with an error while the counter
   * has moved and the bill exists with subtotal 0.
   */
  lemma MismatchLeavesBill(
    counters0: Counters, challans0: map<Id, Challan>, items0: map<Id, ChallanItem>, bills0: map<Id, Bill>,
    counters1: Counters, challans1: map<Id, Challan>, items1: map<Id, ChallanItem>, bills1: map<Id, Bill>,
    f: BillForm, billId: Id)
    requires PartlyFinalised(counters0, challans0, items0, bills0, counters1, challans1, items1, bills1, f, billId)
    requires billId !in bills0
    ensures counters1 != counters0
    ensures bills1.Keys == bills0.Keys + {billId} && bills1[billId].subtotal == 0.0
    ensures BillKeyOf(f) in counters1 && counters1[BillKeyOf(f)] == BillRead(counters0, BillKeyOf(f)) + 1
  {
    var key := BillKeyOf(f);
    if key in counters0 {
      assert counters1[key] != counters0[key];
    } else {
      assert key in counters1;
    }
  }

  /**
   * A run stopped at a missing line touches nothing outside the selection:
   * items of unselected challans and unselected challans keep their rows,
   * and at least one selected challan is left as it was.
   */
  lemma MismatchFrame(
    counters0: Counters, challans0: map<Id, Challan>, items0: map<Id, ChallanItem>, bills0: map<Id, Bill>,
    counters1: Counters, challans1: map<Id, Challan>, items1: map<Id, ChallanItem>, bills1: map<Id, Bill>,
    f: BillForm, billId: Id)
    requires PartlyFinalised(counters0, challans0, items0, bills0, counters1, challans1, items1, bills1, f, billId)
    requires IdSet(f.selectedChallanIds) <= challans0.Keys
    ensures items1.Keys == items0.Keys && challans1.Keys == challans0.Keys
    ensures forall i :: i in items0 && items0[i].challanId !in IdSet(f.selectedChallanIds) ==> items1[i] == items0[i]
    ensures forall c :: c in challans0 && c !in IdSet(f.selectedChallanIds) ==> challans1[c] == challans0[c]
    ensures exists c :: c in IdSet(f.selectedChallanIds) && c in challans0 && challans1[c] == challans0[c]
  {
    var cs, o := IdSet(f.selectedChallanIds), OverridesOf(f.lines);
    var done, part :| && done < cs && part <= ItemsOfAll(items0, cs - done)
                      && items1 == RewriteItems(items0, o, ItemsOfAll(items0, done) + part)
                      && challans1 == MarkChallans(challans0, items0, o, done, billId);
    assert cs - done != {} by {
      assert done + (cs - done) == cs;
    }
    var c :| c in cs - done;
    assert challans1[c] == challans0[c];
  }

  /** The amount stored on each item (0 where none is stored). */
  function StoredAmount(items: map<Id, ChallanItem>): Id -> real
  {
    i => if i in items && items[i].amount.Some? then items[i].amount.value else 0.0
  }

  /** Sums of functions that agree on the set are equal. */
  lemma {:induction false} SetSumCongruent(s: set<Id>, f: Id -> real, g: Id -> real)
    requires forall x :: x in s ==> f(x) == g(x)
    ensures SetSum(s, f) == SetSum(s, g)
    decreases s
  {
    if s != {} {
      var x :| x in s;
      SetSumRemove(s, f, x);
      SetSumRemove(s, g, x);
      SetSumCongruent(s - {x}, f, g);
    }
  }

  /** After finalisation a selected challan's stored total is the sum of its items' stored amounts. */
  lemma ChallanTotalStored(items0: map<Id, ChallanItem>, o: Overrides, cs: set<Id>, c: Id)
    requires Covered(items0, o, cs) && c in cs
    ensures var items1 := RewriteItems(items0, o, ItemsOfAll(items0, cs));
      && ItemsOf(items1, c) == ItemsOf(items0, c)
      && SetSum(ItemsOf(items1, c), StoredAmount(items1)) == ChallanTotal(items0, o, c)
  {
    var items1 := RewriteItems(items0, o, ItemsOfAll(items0, cs));
    assert ItemsOf(items1, c) == ItemsOf(items0, c);
    forall i | i in ItemsOf(items0, c) ensures StoredAmount(items1)(i) == AmountOf(items0, o)(i) {
      assert items1[i] == Rewritten(items0[i], o[i]);
    }
    SetSumCongruent(ItemsOf(items0, c), StoredAmount(items1), AmountOf(items0, o));
  }

  /**
   * A finalised bill is consistent: every selected challan is billed to it,
   * its stored total is the sum of its items' stored amounts, and the bill's
   * subtotal is the sum of those totals and is not negative.
   */
  lemma FinalisedConsistent(
    counters0: Counters, challans0: map<Id, Challan>, items0: map<Id, ChallanItem>, bills0: map<Id, Bill>,
    counters1: Counters, challans1: map<Id, Challan>, items1: map<Id, ChallanItem>, bills1: map<Id, Bill>,
    f: BillForm, billId: Id, billNo: string)
    requires Finalised(counters0, challans0, items0, bills0, counters1, challans1, items1, bills1, f, billId, billNo)
    requires IdSet(f.selectedChallanIds) <= challans0.Keys
    ensures forall c :: c in IdSet(f.selectedChallanIds) ==>
      && challans1[c].billingStatus == BILLED && challans1[c].billId == Some(billId)
      && challans1[c].totalAmount == Some(SetSum(ItemsOf(items1, c), StoredAmount(items1)))
    ensures billId in bills1 && bills1[billId].billNo == billNo && bills1[billId].subtotal >= 0.0
    ensures bills1[billId].subtotal == SetSum(IdSet(f.selectedChallanIds), TotalOf(items0, OverridesOf(f.lines)))
  {
    var cs, o := IdSet(f.selectedChallanIds), OverridesOf(f.lines);
    forall c | c in cs
      ensures && challans1[c].billingStatus == BILLED && challans1[c].billId == Some(billId)
              && challans1[c].totalAmount == Some(SetSum(ItemsOf(items1, c), StoredAmount(items1)))
    {
      ChallanTotalStored(items0, o, cs, c);
    }
    SubtotalNonNegative(items0, o, cs);
  }

  /**
   * A challan is billed at most once: after a finalisation, submitting any
   * selection that contains one of its challans again is a stale selection.
   */
  lemma BilledOnce(challans0: map<Id, Challan>, items0: map<Id, ChallanItem>, o: Overrides, cs: set<Id>,
                   billId: Id, ids: seq<Id>, businessId: Id, partyId: Id, c: Id)
    requires c in cs && c in challans0 && c in ids
    ensures !Selectable(MarkChallans(challans0, items0, o, cs, billId), ids, businessId, partyId)
  {
    var k :| 0 <= k < |ids| && ids[k] == c;
    assert !StillBillable(MarkChallans(challans0, items0, o, cs, billId)[ids[k]], businessId, partyId);
  }

  // ---- the steps of the finalisation loops ---------------------------------------------

  /** One item of challan `ch` billed: it moves from `todo` to `seen`, is rewritten and adds its amount. */
  lemma ItemStep(s: map<Id, ChallanItem>, o: Overrides, e: set<Id>, ch: Id, todo: set<Id>, seen: set<Id>, it: Id)
    requires todo <= ItemsOf(s, ch) && seen == ItemsOf(s, ch) - todo && it in todo && it in o
    ensures todo - {it} <= ItemsOf(s, ch) && seen + {it} == ItemsOf(s, ch) - (todo - {it})
    ensures RewriteItems(s, o, e + seen)[it := Rewritten(s[it], o[it])] == RewriteItems(s, o, e + (seen + {it}))
    ensures SetSum(seen + {it}, AmountOf(s, o)) == SetSum(seen, AmountOf(s, o)) + LineAmount(o[it], s[it].quantity)
  {
    SetSumAdd(seen, AmountOf(s, o), it);
  }

  /** One id moves from the ids still to visit to the ids visited. */
  lemma VisitStep(all: set<Id>, todo: set<Id>, seen: set<Id>, x: Id)
    requires todo <= all && seen == all - todo && x in todo
    ensures todo - {x} <= all && seen + {x} == all - (todo - {x}) && x !in seen
  {
  }

  /** Marking one more challan billed. */
  lemma MarkStep(c0: map<Id, Challan>, s: map<Id, ChallanItem>, o: Overrides, done: set<Id>, ch: Id, billId: Id)
    requires ch in c0 && ch !in done
    ensures MarkChallans(c0, s, o, done, billId)[ch] == c0[ch]
    ensures MarkChallans(c0, s, o, done, billId)[ch := MarkedBilled(c0[ch], billId, ChallanTotal(s, o, ch))]
         == MarkChallans(c0, s, o, done + {ch}, billId)
  {
  }

  /** Lines for every item of a set of challans cover every subset of it. */
  lemma CoveredSubset(s: map<Id, ChallanItem>, o: Overrides, a: set<Id>, b: set<Id>)
    requires a <= b
    ensures Covered(s, o, b) ==> Covered(s, o, a)
  {
  }

  /** The items of one more challan. */
  lemma ItemsOfAllStep(s: map<Id, ChallanItem>, o: Overrides, done: set<Id>, ch: Id)
    ensures ItemsOfAll(s, done) + ItemsOf(s, ch) == ItemsOfAll(s, done + {ch})
    ensures Covered(s, o, done) && Covered(s, o, {ch}) <==> Covered(s, o, done + {ch})
  {
  }

  // ---- the input behind the partial commit ---------------------------------------------

  /**
   * A valid form whose selection passes the re-check but whose lines miss
   * an item of the selected challan: finalisation reaches the
   * LINES_MISMATCH return after the counter, the bill header and the
   * challans walked so far have been written.
   */
  lemma MissingLineReachable()
    ensures var ch := Challan("b", "p", Date(2025, 4, 1), Some("1"), None, None, OUTWARD, SALE,
                              None, 1.0, None, UNBILLED, None, 0);
            var challans := map["c" := ch];
            var items := map["i" := ChallanItem("c", None, Some("Bolt"), Some("PCS"), 1.0, None, None, None, 0)];
            var f := BillForm("b", "p", Date(2025, 4, 2), None, None, None, Absent, ["c"],
                              [LineForm("c", "j", None, None, 1.0, 10.0, 0.0)]);
            && BillRules(f)
            && Selectable(challans, f.selectedChallanIds, f.businessId, f.partyId)
            && !Covered(items, OverridesOf(f.lines), Found(challans, f.selectedChallanIds, f.businessId, f.partyId))
  {
    var ch := Challan("b", "p", Date(2025, 4, 1), Some("1"), None, None, OUTWARD, SALE,
                      None, 1.0, None, UNBILLED, None, 0);
    var challans := map["c" := ch];
    var items := map["i" := ChallanItem("c", None, Some("Bolt"), Some("PCS"), 1.0, None, None, None, 0)];
    var f := BillForm("b", "p", Date(2025, 4, 2), None, None, None, Absent, ["c"],
                      [LineForm("c", "j", None, None, 1.0, 10.0, 0.0)]);
    assert OverridesOf(f.lines) == map["j" := Override(10.0, 0.0)] by {
      assert f.lines[..0] == [];
    }
    assert "c" in Found(challans, f.selectedChallanIds, f.businessId, f.partyId);
    assert "i" !in OverridesOf(f.lines);
  }
}
