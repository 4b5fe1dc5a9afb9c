/**
 * The register's tables as one mutable store, and the server actions as
 * methods on it: challan numbering, challan creation and editing, bill
 * finalisation, and the party, material and business actions.  A database
 * error is a `fault` parameter; a transaction that fails leaves every table
 * as it was.
 */
module Store {
  import opened Wrappers
  import opened Entities
  import opened Ordering
  import opened Validation
  import opened Errors
  import opened Numbering
  import opened BillValidator
  import opened Billing
  import opened BillSelection
  import opened Rows
  import opened ChallanValidator
  import opened ChallanTotals
  import opened ChallanActions
  import PartyValidator
  import PartyActions
  import MaterialValidator
  import MaterialActions
  import BusinessValidator
  import BusinessActions
  import UnbilledQuery

  // ---- the store invariant ------------------------------------------------------

  /** Business `businessId` has at least one register entry. */
  predicate HasEntries(challans: map<Id, Challan>, businessId: Id)
  {
    exists c :: c in challans && challans[c].businessId == businessId
  }

  /** Some owner's business has id `businessId`. */
  predicate BusinessExists(businesses: BusinessActions.Businesses, businessId: Id)
  {
    exists o :: o in businesses && businesses[o].id == businessId
  }

  /**
   * Every challan counter belongs to an existing business with entries: a
   * challan counter is only ever created together with a challan.
   */
  ghost predicate CountersBacked(counters: Counters, challans: map<Id, Challan>, businesses: BusinessActions.Businesses)
  {
    forall k :: k in counters && k.counterType == CHALLAN ==>
      HasEntries(challans, k.businessId) && BusinessExists(businesses, k.businessId)
  }

  /** A challan is billed exactly when it names a bill, and the bill exists. */
  ghost predicate BillLinks(challans: map<Id, Challan>, bills: map<Id, Bill>)
  {
    forall c :: c in challans ==>
      && (challans[c].billingStatus == BILLED <==> challans[c].billId.Some?)
      && (challans[c].billId.Some? ==> challans[c].billId.value in bills)
  }

  /** Marking challans billed to an existing bill, all or some of them, keeps the invariant. */
  lemma MarkedValid(counters0: Counters, counters1: Counters, c0: map<Id, Challan>, s: map<Id, ChallanItem>,
                    c1: map<Id, Challan>, o: Overrides, found: set<Id>, partial: bool, billId: Id,
                    businesses: BusinessActions.Businesses, bills0: map<Id, Bill>, bills1: map<Id, Bill>)
    requires CountersBacked(counters0, c0, businesses) && BillLinks(c0, bills0)
    requires forall k :: k in counters1 && k.counterType == CHALLAN ==> k in counters0
    requires bills0.Keys <= bills1.Keys && billId in bills1
    requires !partial ==> c1 == MarkChallans(c0, s, o, found, billId)
    requires partial ==> exists done :: done < found && c1 == MarkChallans(c0, s, o, done, billId)
    ensures CountersBacked(counters1, c1, businesses) && BillLinks(c1, bills1)
  {
    var done := found;
    if partial {
      done :| done < found && c1 == MarkChallans(c0, s, o, done, billId);
    }
    forall k | k in counters1 && k.counterType == CHALLAN ensures HasEntries(c1, k.businessId) {
      var c :| c in c0 && c0[c].businessId == k.businessId;
      assert c1[c].businessId == k.businessId;
    }
  }

  /** A finalisation, complete or stopped at a missing line, keeps the invariant. */
  lemma FinalisedValid(counters0: Counters, challans0: map<Id, Challan>, items0: map<Id, ChallanItem>, bills0: map<Id, Bill>,
                       counters1: Counters, challans1: map<Id, Challan>, items1: map<Id, ChallanItem>, bills1: map<Id, Bill>,
                       f: BillForm, billId: Id, billNo: string, complete: bool, businesses: BusinessActions.Businesses)
    requires CountersBacked(counters0, challans0, businesses) && BillLinks(challans0, bills0)
    requires complete ==> Finalised(counters0, challans0, items0, bills0, counters1, challans1, items1, bills1,
                                    f, billId, billNo)
    requires !complete ==> PartlyFinalised(counters0, challans0, items0, bills0, counters1, challans1, items1, bills1,
                                           f, billId)
    ensures CountersBacked(counters1, challans1, businesses) && BillLinks(challans1, bills1)
  {
    var cs, o := IdSet(f.selectedChallanIds), OverridesOf(f.lines);
    assert BillKeyOf(f).counterType == BILL;
    MarkedValid(counters0, counters1, challans0, items0, challans1, o, cs, !complete, billId, businesses, bills0, bills1);
  }

  /** Inserting an unbilled challan together with its business's counter keeps the invariant. */
  lemma InsertChallanKeepsValid(counters0: Counters, counters1: Counters, c0: map<Id, Challan>,
                                businesses: BusinessActions.Businesses, bills: map<Id, Bill>,
                                key: CounterKey, ownerId: Id, newId: Id, ch: Challan)
    requires CountersBacked(counters0, c0, businesses) && BillLinks(c0, bills)
    requires forall k :: k in counters1 && k.counterType == CHALLAN ==> k in counters0 || k == key
    requires newId !in c0 && ownerId in businesses
    requires ch.businessId == businesses[ownerId].id && key.businessId == ch.businessId
    requires ch.billingStatus == UNBILLED && ch.billId.None?
    ensures CountersBacked(counters1, c0[newId := ch], businesses) && BillLinks(c0[newId := ch], bills)
  {
    var c1 := c0[newId := ch];
    forall k | k in counters1 && k.counterType == CHALLAN
      ensures HasEntries(c1, k.businessId) && BusinessExists(businesses, k.businessId)
    {
      if k == key {
        assert c1[newId].businessId == k.businessId;
      } else {
        var c :| c in c0 && c0[c].businessId == k.businessId;
        assert c1[c].businessId == k.businessId;
      }
    }
  }

  /** Replacing a challan's header by one with the same business and billing fields keeps the invariant. */
  lemma EditKeepsValid(counters: Counters, c0: map<Id, Challan>, businesses: BusinessActions.Businesses,
                       bills: map<Id, Bill>, id: Id, ch: Challan)
    requires CountersBacked(counters, c0, businesses) && BillLinks(c0, bills)
    requires id in c0 && ch.businessId == c0[id].businessId
    requires ch.billingStatus == c0[id].billingStatus && ch.billId == c0[id].billId
    ensures CountersBacked(counters, c0[id := ch], businesses) && BillLinks(c0[id := ch], bills)
  {
    var c1 := c0[id := ch];
    forall k | k in counters && k.counterType == CHALLAN ensures HasEntries(c1, k.businessId) {
      var c :| c in c0 && c0[c].businessId == k.businessId;
      assert c1[c].businessId == k.businessId;
    }
  }

  /** Businesses that keep their ids keep backing the counters. */
  lemma BusinessesKeepValid(counters: Counters, challans: map<Id, Challan>,
                            b0: BusinessActions.Businesses, b1: BusinessActions.Businesses)
    requires CountersBacked(counters, challans, b0)
    requires forall o :: o in b0 ==> o in b1 && b1[o].id == b0[o].id
    ensures CountersBacked(counters, challans, b1)
  {
    forall k | k in counters && k.counterType == CHALLAN ensures BusinessExists(b1, k.businessId) {
      var o :| o in b0 && b0[o].id == k.businessId;
      assert b1[o].id == k.businessId;
    }
  }

  /**
   * The BILL counter of the form's business and year: created holding 1 if
   * missing, read into the bill number, then raised by one.
   */
  method DrawBillNumber(counters: Counters, f: BillForm) returns (counters1: Counters, billNo: string)
    ensures billNo == BillNumber(YearKey(f.billDate), BillRead(counters, BillKeyOf(f)))
    ensures counters1 == BillAdvance(counters, BillKeyOf(f))
  {
    var yearKey := YearKey(f.billDate);
    var key := BillKey(f.businessId, yearKey);
    counters1 := counters;
    if key !in counters1 {
      counters1 := counters1[key := 1];
    }
    var n := counters1[key];
    billNo := BillNumber(yearKey, n);
    counters1 := counters1[key := n + 1];
  }

  /** Storing the subtotal on the inserted header is inserting the header with it. */
  lemma StoreSubtotal(bills: map<Id, Bill>, id: Id, header: Bill, subtotal: real)
    ensures bills[id := header][id := bills[id := header][id].(subtotal := subtotal)]
         == bills[id := header.(subtotal := subtotal)]
  {
  }


  /**
   * Replacing challan `id`'s items by the rows of an edit leaves it with
   * exactly the new items, each priced from its line, and every other
   * challan's items as they were.
   */
  lemma EditedItems(items0: map<Id, ChallanItem>, id: Id, itemIds: seq<Id>, its: seq<ItemForm>, header: real,
                    now: Timestamp)
    requires |itemIds| == |its| && Distinct(itemIds)
    requires forall k :: 0 <= k < |itemIds| ==> itemIds[k] !in items0
    ensures var items1 := Insert(DropItems(items0, id), itemIds, UpdatedRows(id, its, header, now));
      && ItemsOf(items1, id) == IdSet(itemIds)
      && (forall k :: 0 <= k < |itemIds| ==>
            itemIds[k] in items1 && items1[itemIds[k]] == UpdatedItem(id, its[k], header, now))
      && (forall c :: c != id ==> ItemsOf(items1, c) == ItemsOf(items0, c))
      && (forall i :: i in items0 && items0[i].challanId != id ==> i in items1 && items1[i] == items0[i])
  {
    var rows := UpdatedRows(id, its, header, now);
    ReplaceItems(items0, id, itemIds, rows);
    var items1 := Insert(DropItems(items0, id), itemIds, rows);
    forall k | 0 <= k < |itemIds| ensures itemIds[k] in items1 {
      assert itemIds[k] in IdSet(itemIds);
    }
  }

  // ---- challan numbers ------------------------------------------------------------

  /**
   * `allocateChallanNumber`: the CHALLAN counter of the business and the
   * financial year of `date` is created holding 2 or raised by one, and
   * the number issued is the stored value minus one.
   */
  method AllocateChallanNumber(counters: Counters, businessId: Id, date: Date)
    returns (counters1: Counters, challanNumber: string, yearKey: string, issued: nat)
    ensures yearKey == YearKey(date)
    ensures counters1 == ChallanUpsert(counters, ChallanKey(businessId, yearKey))
    ensures issued == Issued(counters, ChallanKey(businessId, yearKey))
    ensures issued == FirstIssued(counters, ChallanKey(businessId, yearKey))
    ensures challanNumber == ChallanNumber(yearKey, issued)
  {
    yearKey := YearKey(date);
    var key := ChallanKey(businessId, yearKey);
    if key in counters {
      counters1 := counters[key := counters[key] + 1];
    } else {
      counters1 := counters[key := 2];
    }
    issued := counters1[key] - 1;
    challanNumber := ChallanNumber(yearKey, issued);
  }

  // ---- bill finalisation ------------------------------------------------------------

  /** The four tables the finalisation transaction reads and writes. */
  datatype Tables = Tables(counters: Counters, challans: map<Id, Challan>, items: map<Id, ChallanItem>,
                           bills: map<Id, Bill>)

  /** The store invariant on the tables, with the businesses that back the counters. */
  ghost predicate Sound(t: Tables, businesses: BusinessActions.Businesses)
  {
    CountersBacked(t.counters, t.challans, businesses) && BillLinks(t.challans, t.bills)
  }

  /**
   * The inner loop: the items of challan `ch`, as the query returned them
   * in `snapshot`, are rewritten in `rows` from their lines one by one in
   * any order, summing their amounts; it stops at the first item without
   * a line.
   */
  method BillItems(snapshot: map<Id, ChallanItem>, rows: map<Id, ChallanItem>, ch: Id, o: Overrides, ghost e: set<Id>)
    returns (written: map<Id, ChallanItem>, total: real, missing: bool)
    requires rows == RewriteItems(snapshot, o, e)
    ensures !missing <==> Covered(snapshot, o, {ch})
    ensures !missing ==> written == RewriteItems(snapshot, o, e + ItemsOf(snapshot, ch))
    ensures !missing ==> total == ChallanTotal(snapshot, o, ch)
    ensures missing ==> exists part :: part <= ItemsOf(snapshot, ch) && written == RewriteItems(snapshot, o, e + part)
  {
    written := rows;
    var todo := ItemsOf(snapshot, ch);
    ghost var seen: set<Id> := {};
    total, missing := 0.0, false;
    assert e + seen == e;
    while todo != {} && !missing
      invariant todo <= ItemsOf(snapshot, ch) && seen == ItemsOf(snapshot, ch) - todo
      invariant forall i :: i in seen ==> i in o
      invariant written == RewriteItems(snapshot, o, e + seen)
      invariant !missing ==> total == SetSum(seen, AmountOf(snapshot, o))
      invariant missing ==> !Covered(snapshot, o, {ch})
      decreases todo, !missing
    {
      var it :| it in todo;
      if it !in o {
        missing := true;
      } else {
        ItemStep(snapshot, o, e, ch, todo, seen, it);
        total := total + LineAmount(o[it], snapshot[it].quantity);
        written := written[it := Rewritten(snapshot[it], o[it])];
        todo := todo - {it};
        seen := seen + {it};
      }
    }
    if !missing {
      assert seen == ItemsOf(snapshot, ch);
    }
  }

  /**
   * One pass of the outer loop: challan `ch` has its items billed and is
   * marked billed to `billId` with their total.
   */
  method BillChallan(snapshot: map<Id, ChallanItem>, rows: map<Id, ChallanItem>, ghost challans0: map<Id, Challan>,
                     marked: map<Id, Challan>, ghost done: set<Id>, ch: Id, o: Overrides, billId: Id)
    returns (rows1: map<Id, ChallanItem>, marked1: map<Id, Challan>, total: real, missing: bool)
    requires ch in challans0 && ch !in done
    requires rows == RewriteItems(snapshot, o, ItemsOfAll(snapshot, done))
    requires marked == MarkChallans(challans0, snapshot, o, done, billId)
    ensures !missing <==> Covered(snapshot, o, {ch})
    ensures !missing ==> && rows1 == RewriteItems(snapshot, o, ItemsOfAll(snapshot, done + {ch}))
                         && marked1 == MarkChallans(challans0, snapshot, o, done + {ch}, billId)
                         && total == ChallanTotal(snapshot, o, ch)
    ensures missing ==> && marked1 == marked
                        && exists part :: part <= ItemsOf(snapshot, ch)
                                          && rows1 == RewriteItems(snapshot, o, ItemsOfAll(snapshot, done) + part)
  {
    rows1, total, missing := BillItems(snapshot, rows, ch, o, ItemsOfAll(snapshot, done));
    if missing {
      return rows1, marked, 0.0, true;
    }
    MarkStep(challans0, snapshot, o, done, ch, billId);
    ItemsOfAllStep(snapshot, o, done, ch);
    marked1 := marked[ch := MarkedBilled(marked[ch], billId, total)];
  }

  /**
   * The outer loop: each found challan, in any order, has its items
   * billed and is marked billed to `billId` with its total; the totals add
   * up to the subtotal.  A missing line stops the walk, returning what was
   * written so far.
   */
  method BillSelected(snapshot: map<Id, ChallanItem>, challans0: map<Id, Challan>, found: set<Id>, o: Overrides,
                      billId: Id) returns (items1: map<Id, ChallanItem>, challans1: map<Id, Challan>,
                                           subtotal: real, mismatch: bool)
    requires found <= challans0.Keys
    ensures mismatch <==> !Covered(snapshot, o, found)
    ensures !mismatch ==> && items1 == RewriteItems(snapshot, o, ItemsOfAll(snapshot, found))
                          && challans1 == MarkChallans(challans0, snapshot, o, found, billId)
                          && subtotal == Subtotal(snapshot, o, found)
    ensures mismatch ==> exists done, part :: && done < found && part <= ItemsOfAll(snapshot, found - done)
                                              && items1 == RewriteItems(snapshot, o, ItemsOfAll(snapshot, done) + part)
                                              && challans1 == MarkChallans(challans0, snapshot, o, done, billId)
  {
    items1, challans1 := snapshot, challans0;
    var remaining := found;
    ghost var done: set<Id> := {};
    subtotal, mismatch := 0.0, false;
    assert ItemsOfAll(snapshot, done) == {};
    while remaining != {}
      invariant remaining <= found && done == found - remaining
      invariant Covered(snapshot, o, done)
      invariant items1 == RewriteItems(snapshot, o, ItemsOfAll(snapshot, done))
      invariant challans1 == MarkChallans(challans0, snapshot, o, done, billId)
      invariant subtotal == Subtotal(snapshot, o, done)
      decreases remaining
    {
      var ch :| ch in remaining;
      VisitStep(found, remaining, done, ch);
      var rows, marked, total, missing := BillChallan(snapshot, items1, challans0, challans1, done, ch, o, billId);
      if missing {
        CoveredSubset(snapshot, o, {ch}, found);
        ghost var part :| part <= ItemsOf(snapshot, ch)
                          && rows == RewriteItems(snapshot, o, ItemsOfAll(snapshot, done) + part);
        assert done < found && part <= ItemsOfAll(snapshot, found - done);
        return rows, challans1, 0.0, true;
      }
      SetSumAdd(done, TotalOf(snapshot, o), ch);
      items1, challans1 := rows, marked;
      subtotal := subtotal + total;
      remaining := remaining - {ch};
      done := done + {ch};
    }
    assert done == found;
  }

  /**
   * The writes of the finalisation transaction once the selection has
   * passed the re-check: the bill number is drawn, the bill header
   * inserted, the selected challans billed, and the subtotal stored.  A
   * missing line returns LINES_MISMATCH with the writes made before it.
   */
  method WriteBill(t: Tables, businesses: BusinessActions.Businesses, f: BillForm, found: set<Id>, newBillId: Id)
    returns (r: ActionResult<(Id, string)>, t1: Tables)
    requires Sound(t, businesses) && newBillId !in t.bills
    requires found == IdSet(f.selectedChallanIds) && found <= t.challans.Keys
    ensures Sound(t1, businesses)
    ensures Covered(t.items, OverridesOf(f.lines), found) ==>
      && r.Ok? && r.value.0 == newBillId
      && Finalised(t.counters, t.challans, t.items, t.bills, t1.counters, t1.challans, t1.items, t1.bills,
                   f, newBillId, r.value.1)
    ensures !Covered(t.items, OverridesOf(f.lines), found) ==>
      && r == LinesMismatch()
      && PartlyFinalised(t.counters, t.challans, t.items, t.bills, t1.counters, t1.challans, t1.items, t1.bills,
                         f, newBillId)
  {
    var counters1, billNo := DrawBillNumber(t.counters, f);
    var header := BillHeader(f, billNo);
    var bills1 := t.bills[newBillId := header];
    var o := BuildOverrides(f.lines);
    var items1, challans1, subtotal, mismatch := BillSelected(t.items, t.challans, found, o, newBillId);
    if mismatch {
      r := LinesMismatch();
    } else {
      StoreSubtotal(t.bills, newBillId, header, subtotal);
      bills1 := bills1[newBillId := bills1[newBillId].(subtotal := subtotal)];
      r := Ok((newBillId, billNo));
    }
    t1 := Tables(counters1, challans1, items1, bills1);
    FinalisedValid(t.counters, t.challans, t.items, t.bills, t1.counters, t1.challans, t1.items, t1.bills,
                   f, newBillId, billNo, !mismatch, businesses);
  }

  /**
   * The transaction of `finalizeBillAction` for a valid form of the
   * session's business: the selection is re-checked against the challans
   * the query finds, then the bill is written.  A stale selection or a
   * database error returns the tables as they were.
   */
  method BillTransaction(t: Tables, businesses: BusinessActions.Businesses, f: BillForm, newBillId: Id,
                         fault: Option<Option<string>>) returns (r: ActionResult<(Id, string)>, t1: Tables)
    requires Sound(t, businesses) && newBillId !in t.bills
    ensures Sound(t1, businesses)
    ensures var sel := Selectable(t.challans, f.selectedChallanIds, f.businessId, f.partyId);
      !sel || fault.Some? ==> r == (if !sel then StaleSelection() else BillFailed(fault.value)) && t1 == t
    ensures var sel := Selectable(t.challans, f.selectedChallanIds, f.businessId, f.partyId);
      var cover := Covered(t.items, OverridesOf(f.lines), IdSet(f.selectedChallanIds));
      sel && fault.None? && cover ==>
        && r.Ok? && r.value.0 == newBillId
        && Finalised(t.counters, t.challans, t.items, t.bills, t1.counters, t1.challans, t1.items, t1.bills,
                     f, newBillId, r.value.1)
    ensures var sel := Selectable(t.challans, f.selectedChallanIds, f.businessId, f.partyId);
      var cover := Covered(t.items, OverridesOf(f.lines), IdSet(f.selectedChallanIds));
      sel && fault.None? && !cover ==>
        && r == LinesMismatch()
        && PartlyFinalised(t.counters, t.challans, t.items, t.bills, t1.counters, t1.challans, t1.items, t1.bills,
                           f, newBillId)
  {
    var ids := f.selectedChallanIds;
    var found := Found(t.challans, ids, f.businessId, f.partyId);
    FoundCountIff(t.challans, ids, f.businessId, f.partyId);
    if |found| != |ids| {
      return StaleSelection(), t;
    }
    if fault.Some? {
      return BillFailed(fault.value), t;
    }
    r, t1 := WriteBill(t, businesses, f, found, newBillId);
  }

  /**
   * The transaction with a missing line aborting it, as the LINES_MISMATCH
   * error is evidently meant: every failure returns the tables as they were,
   * and a success bills exactly the selected challans.
   */
  method AtomicBillTransaction(t: Tables, businesses: BusinessActions.Businesses, f: BillForm, newBillId: Id,
                               fault: Option<Option<string>>) returns (r: ActionResult<(Id, string)>, t1: Tables)
    requires Sound(t, businesses) && newBillId !in t.bills
    ensures Sound(t1, businesses)
    ensures var sel := Selectable(t.challans, f.selectedChallanIds, f.businessId, f.partyId);
      !sel || fault.Some? ==> r == (if !sel then StaleSelection() else BillFailed(fault.value))
    ensures var sel := Selectable(t.challans, f.selectedChallanIds, f.businessId, f.partyId);
      var cover := Covered(t.items, OverridesOf(f.lines), IdSet(f.selectedChallanIds));
      sel && fault.None? && !cover ==> r == LinesMismatch()
    ensures var sel := Selectable(t.challans, f.selectedChallanIds, f.businessId, f.partyId);
      var cover := Covered(t.items, OverridesOf(f.lines), IdSet(f.selectedChallanIds));
      sel && fault.None? && cover ==>
        && r.Ok? && r.value.0 == newBillId
        && Finalised(t.counters, t.challans, t.items, t.bills, t1.counters, t1.challans, t1.items, t1.bills,
                     f, newBillId, r.value.1)
    ensures r.Err? ==> t1 == t
  {
    r, t1 := BillTransaction(t, businesses, f, newBillId, fault);
    if r.Err? {
      t1 := t;
    }
  }

  /**
   * What `finalizeBillAction` as written does, from tables `t` to `t1` with
   * result `r`: an invalid form or a foreign business is refused, a stale
   * selection or a database error leaves the tables alone, and otherwise
   * the bill is written in full when every item has its line and only in
   * part when one is missing.
   */
  ghost predicate AsWrittenOutcome(t: Tables, t1: Tables, sessionBusinessId: Id, f: BillForm, newBillId: Id,
                                   fault: Option<Option<string>>, r: ActionResult<(Id, string)>)
  {
    var accepted := BillRules(f) && f.businessId == sessionBusinessId;
    var sel := Selectable(t.challans, f.selectedChallanIds, f.businessId, f.partyId);
    var cover := Covered(t.items, OverridesOf(f.lines), IdSet(f.selectedChallanIds));
    && (!BillRules(f) ==> r == Err(None, InvalidFormMessage, Some(Group(ParseBill(f).issues, Some(RootKey)))) && t1 == t)
    && (BillRules(f) && f.businessId != sessionBusinessId ==> r == Err(None, MismatchBusinessMessage, None) && t1 == t)
    && (accepted && (!sel || fault.Some?) ==> r == (if !sel then StaleSelection() else BillFailed(fault.value)) && t1 == t)
    && (accepted && sel && fault.None? && cover ==>
          && r.Ok? && r.value.0 == newBillId
          && Finalised(t.counters, t.challans, t.items, t.bills, t1.counters, t1.challans, t1.items, t1.bills,
                       f, newBillId, r.value.1))
    && (accepted && sel && fault.None? && !cover ==>
          && r == LinesMismatch()
          && PartlyFinalised(t.counters, t.challans, t.items, t.bills, t1.counters, t1.challans, t1.items, t1.bills,
                             f, newBillId))
  }

  /**
   * What `finalizeBillAction` evidently means to do: the same, except that a
   * missing line aborts the transaction, so every failure leaves the tables
   * as they were.
   */
  ghost predicate AtomicOutcome(t: Tables, t1: Tables, sessionBusinessId: Id, f: BillForm, newBillId: Id,
                                fault: Option<Option<string>>, r: ActionResult<(Id, string)>)
  {
    var accepted := BillRules(f) && f.businessId == sessionBusinessId;
    var sel := Selectable(t.challans, f.selectedChallanIds, f.businessId, f.partyId);
    var cover := Covered(t.items, OverridesOf(f.lines), IdSet(f.selectedChallanIds));
    && (!BillRules(f) ==> r == Err(None, InvalidFormMessage, Some(Group(ParseBill(f).issues, Some(RootKey)))))
    && (BillRules(f) && f.businessId != sessionBusinessId ==> r == Err(None, MismatchBusinessMessage, None))
    && (accepted && !sel ==> r == StaleSelection())
    && (accepted && sel && fault.Some? ==> r == BillFailed(fault.value))
    && (accepted && sel && fault.None? && !cover ==> r == LinesMismatch())
    && (accepted && sel && fault.None? && cover ==>
          && r.Ok? && r.value.0 == newBillId
          && Finalised(t.counters, t.challans, t.items, t.bills, t1.counters, t1.challans, t1.items, t1.bills,
                       f, newBillId, r.value.1))
    && (r.Err? ==> t1 == t)
  }

  /** `finalizeBillAction` as written, on the tables: validation, the business check, then the transaction. */
  method FinalizeAsWritten(t: Tables, businesses: BusinessActions.Businesses, sessionBusinessId: Id, f: BillForm,
                           newBillId: Id, fault: Option<Option<string>>) returns (r: ActionResult<(Id, string)>, t1: Tables)
    requires Sound(t, businesses) && newBillId !in t.bills
    ensures Sound(t1, businesses)
    ensures AsWrittenOutcome(t, t1, sessionBusinessId, f, newBillId, fault, r)
  {
    var parsed := ParseBill(f);
    if parsed.Failed? {
      var fieldErrors := ZodFieldErrors(parsed.issues);
      return Err(None, InvalidFormMessage, Some(fieldErrors)), t;
    }
    if f.businessId != sessionBusinessId {
      return Err(None, MismatchBusinessMessage, None), t;
    }
    r, t1 := BillTransaction(t, businesses, f, newBillId, fault);
  }

  /** `finalizeBillAction` with the transaction made atomic, on the tables. */
  method FinalizeAtomically(t: Tables, businesses: BusinessActions.Businesses, sessionBusinessId: Id, f: BillForm,
                            newBillId: Id, fault: Option<Option<string>>) returns (r: ActionResult<(Id, string)>, t1: Tables)
    requires Sound(t, businesses) && newBillId !in t.bills
    ensures Sound(t1, businesses)
    ensures AtomicOutcome(t, t1, sessionBusinessId, f, newBillId, fault, r)
  {
    var parsed := ParseBill(f);
    if parsed.Failed? {
      var fieldErrors := ZodFieldErrors(parsed.issues);
      return Err(None, InvalidFormMessage, Some(fieldErrors)), t;
    }
    if f.businessId != sessionBusinessId {
      return Err(None, MismatchBusinessMessage, None), t;
    }
    r, t1 := AtomicBillTransaction(t, businesses, f, newBillId, fault);
  }

  // ---- the store ------------------------------------------------------------------

  class Db {
    var counters: Counters
    var challans: map<Id, Challan>
    var items: map<Id, ChallanItem>
    var bills: map<Id, Bill>
    var parties: PartyActions.Parties
    var materials: MaterialActions.Materials
    var businesses: BusinessActions.Businesses

    ghost predicate Valid()
      reads this`counters, this`challans, this`items, this`bills, this`businesses
    {
      Sound(Tables(counters, challans, items, bills), businesses)
    }

    constructor ()
      ensures Valid()
      ensures counters == map[] && challans == map[] && items == map[] && bills == map[]
      ensures parties == map[] && materials == map[] && businesses == map[]
    {
      counters, challans, items, bills := map[], map[], map[], map[];
      parties, materials, businesses := map[], map[], map[];
    }

    // ---- challan numbers ------------------------------------------------------------

    /**
     * `getNextChallanNumber`: the number shown on a new challan form; 1 unless
     * the business exists, has entries and has this year's challan counter.
     * In a valid store it is the number the next allocation for a challan
     * dated `today` issues.
     */
    function NextChallanNumber(businessId: Id, today: Date): (n: nat)
      reads this`counters, this`challans, this`businesses
      ensures CountersBacked(counters, challans, businesses) ==>
        n == Issued(counters, ChallanKey(businessId, YearKey(today)))
    {
      var key := ChallanKey(businessId, YearKey(today));
      if !(BusinessExists(businesses, businessId) && key in counters) || !HasEntries(challans, businessId) then 1
      else counters[key]
    }

    // ---- challan creation -----------------------------------------------------------

    /**
     * The writes of `createChallanAction` once the form has parsed: a number
     * is allocated for the challan's date, the header is inserted as `newId`
     * and the lines as `itemIds`, their units stored under `rule`.
     */
    method InsertChallan(ownerId: Id, d: ChallanData, newId: Id, itemIds: seq<Id>, now: Timestamp, rule: UnitRule)
      requires Valid()
      requires ownerId in businesses && newId !in challans
      requires |itemIds| == |d.items|
      modifies this`counters, this`challans, this`items
      ensures Valid()
      ensures var key := ChallanKey(businesses[ownerId].id, YearKey(d.date));
        && counters == ChallanUpsert(old(counters), key)
        && challans == old(challans)[newId := NewChallan(businesses[ownerId].id, d, Issued(old(counters), key), now)]
        && items == Insert(old(items), itemIds, CreatedRows(newId, d.items, now, rule))
    {
      var business := businesses[ownerId];
      var counters1, challanNumber, yearKey, issued := AllocateChallanNumber(counters, business.id, d.date);
      var header := NewChallan(business.id, d, issued, now);
      assert header.businessId == business.id && header.billingStatus == UNBILLED && header.billId.None?;
      InsertChallanKeepsValid(counters, counters1, challans, businesses, bills,
                              ChallanKey(business.id, yearKey), ownerId, newId, header);
      counters, challans, items := counters1, challans[newId := header], Insert(items, itemIds, CreatedRows(newId, d.items, now, rule));
    }

    /**
     * `createChallanAction` as written, for the business of `ownerId`: the
     * form is parsed, then the writes run in one transaction, every
     * non-empty unit stored as null; a database error rolls all of them
     * back.
     */
    method CreateChallan(ownerId: Id, form: ChallanForm, isUuid: string -> bool, newId: Id, itemIds: seq<Id>,
                         now: Timestamp, fault: Option<Thrown>) returns (r: ActionResult<Id>)
      requires Valid()
      requires ownerId in businesses && newId !in challans
      requires |itemIds| == |form.items| && Distinct(itemIds)
      requires forall k :: 0 <= k < |itemIds| ==> itemIds[k] !in items
      modifies this`counters, this`challans, this`items
      ensures Valid()
      ensures !ChallanRules(form, isUuid) ==> r == InvalidChallan(ParseChallan(form, isUuid).issues)
      ensures ChallanRules(form, isUuid) && fault.Some? ==> r == CreateCaught(fault.value)
      ensures r.Ok? <==> ChallanRules(form, isUuid) && fault.None?
      ensures r.Err? ==> counters == old(counters) && challans == old(challans) && items == old(items)
      ensures r.Ok? ==>
        var d := ParseChallan(form, isUuid).data;
        var key := ChallanKey(businesses[ownerId].id, YearKey(d.date));
        && r.value == newId
        && counters == ChallanUpsert(old(counters), key)
        && challans == old(challans)[newId := NewChallan(businesses[ownerId].id, d, Issued(old(counters), key), now)]
        && items == Insert(old(items), itemIds, CreatedRows(newId, d.items, now, AsWritten))
    {
      var parsed := ParseChallan(form, isUuid);
      if parsed.Failed? {
        return InvalidChallan(parsed.issues);
      }
      if fault.Some? {
        return CreateCaught(fault.value);
      }
      InsertChallan(ownerId, parsed.data, newId, itemIds, now, AsWritten);
      return Ok(newId);
    }

    /**
     * `createChallanAction` with the unit rule evidently intended: the same
     * action, except that a free-text line keeps its unit.
     */
    method CreateChallanIntended(ownerId: Id, form: ChallanForm, isUuid: string -> bool, newId: Id, itemIds: seq<Id>,
                                 now: Timestamp, fault: Option<Thrown>) returns (r: ActionResult<Id>)
      requires Valid()
      requires ownerId in businesses && newId !in challans
      requires |itemIds| == |form.items| && Distinct(itemIds)
      requires forall k :: 0 <= k < |itemIds| ==> itemIds[k] !in items
      modifies this`counters, this`challans, this`items
      ensures Valid()
      ensures !ChallanRules(form, isUuid) ==> r == InvalidChallan(ParseChallan(form, isUuid).issues)
      ensures ChallanRules(form, isUuid) && fault.Some? ==> r == CreateCaught(fault.value)
      ensures r.Ok? <==> ChallanRules(form, isUuid) && fault.None?
      ensures r.Err? ==> counters == old(counters) && challans == old(challans) && items == old(items)
      ensures r.Ok? ==>
        var d := ParseChallan(form, isUuid).data;
        var key := ChallanKey(businesses[ownerId].id, YearKey(d.date));
        && r.value == newId
        && counters == ChallanUpsert(old(counters), key)
        && challans == old(challans)[newId := NewChallan(businesses[ownerId].id, d, Issued(old(counters), key), now)]
        && items == Insert(old(items), itemIds, CreatedRows(newId, d.items, now, Intended))
    {
      var parsed := ParseChallan(form, isUuid);
      if parsed.Failed? {
        return InvalidChallan(parsed.issues);
      }
      if fault.Some? {
        return CreateCaught(fault.value);
      }
      InsertChallan(ownerId, parsed.data, newId, itemIds, now, Intended);
      return Ok(newId);
    }

    // ---- challan editing --------------------------------------------------------------

    /**
     * The transaction of `updateChallanAction`, with the lookup scoped to
     * business `scope`: an editable unbilled challan gets its header
     * rewritten and its items replaced by the submitted lines as `itemIds`.
     */
    method EditChallan(scope: Id, form: ChallanForm, d: ChallanData, itemIds: seq<Id>, now: Timestamp,
                       fault: Option<Thrown>) returns (r: ActionResult<Id>)
      requires Valid()
      requires |itemIds| == |form.items| && Distinct(itemIds)
      requires forall k :: 0 <= k < |itemIds| ==> itemIds[k] !in items
      modifies this`challans, this`items
      ensures Valid()
      ensures r.Err? ==> challans == old(challans) && items == old(items)
      ensures d.id.None? ==> r.Err?
      ensures d.id.Some? && !Editable(old(challans), scope, d.id.value) ==> r == Err(None, NotFoundMessage, None)
      ensures d.id.Some? && Editable(old(challans), scope, d.id.value) && old(challans)[d.id.value].billingStatus != UNBILLED
              ==> r == Err(None, LockedMessage, None)
      ensures (d.id.Some? && Editable(old(challans), scope, d.id.value) && old(challans)[d.id.value].billingStatus == UNBILLED
               && fault.Some?) ==> r == UpdateCaught(fault.value)
      ensures r.Ok? <==> d.id.Some? && Editable(old(challans), scope, d.id.value)
                         && old(challans)[d.id.value].billingStatus == UNBILLED && fault.None?
      ensures r.Ok? ==>
        var id := d.id.value;
        var header := HeaderDiscount(form.discountOnChallan);
        && r.value == id
        && challans == old(challans)[id := EditedHeader(old(challans)[id], d, UpdateTotals(form.items, form.discountOnChallan))]
        && items == Insert(DropItems(old(items), id), itemIds, UpdatedRows(id, form.items, header, now))
    {
      if d.id.None? {
        // The lookup without an id finds any editable challan of the business,
        // and the update by an undefined id is refused by the database.
        if exists c | c in challans :: Editable(challans, scope, c) {
          var c :| c in challans && Editable(challans, scope, c);
          if challans[c].billingStatus != UNBILLED {
            return UpdateCaught(OtherError(Some("LOCKED_BILLED")));
          }
          return UpdateCaught(OtherError(None));
        }
        return UpdateCaught(OtherError(Some("NOT_FOUND")));
      }
      var id := d.id.value;
      if !Editable(challans, scope, id) {
        return UpdateCaught(OtherError(Some("NOT_FOUND")));
      }
      if challans[id].billingStatus != UNBILLED {
        return UpdateCaught(OtherError(Some("LOCKED_BILLED")));
      }
      var savedChallans, savedItems := challans, items;
      var edited := EditedHeader(challans[id], d, UpdateTotals(form.items, form.discountOnChallan));
      EditKeepsIdentity(challans, scope, id, d, UpdateTotals(form.items, form.discountOnChallan));
      challans := challans[id := edited];
      items := DropItems(items, id);
      items := Insert(items, itemIds, UpdatedRows(id, form.items, HeaderDiscount(form.discountOnChallan), now));
      if fault.Some? {
        challans, items := savedChallans, savedItems;
        return UpdateCaught(fault.value);
      }
      EditKeepsValid(counters, savedChallans, businesses, bills, id, edited);
      return Ok(id);
    }

    /**
     * `updateChallanAction` as written: the lookup is scoped to the business
     * id the form carries, not to the session's business `sessionBusinessId`.
     */
    method UpdateChallanAsWritten(sessionBusinessId: Id, form: ChallanForm, isUuid: string -> bool, itemIds: seq<Id>,
                                  now: Timestamp, fault: Option<Thrown>) returns (r: ActionResult<Id>)
      requires Valid()
      requires |itemIds| == |form.items| && Distinct(itemIds)
      requires forall k :: 0 <= k < |itemIds| ==> itemIds[k] !in items
      modifies this`challans, this`items
      ensures Valid()
      ensures !ChallanRules(form, isUuid) ==> r == InvalidChallan(ParseChallan(form, isUuid).issues)
      ensures r.Err? ==> challans == old(challans) && items == old(items)
      ensures ChallanRules(form, isUuid) && form.id.Some? && !Editable(old(challans), form.businessId, form.id.value)
              ==> r == Err(None, NotFoundMessage, None)
      ensures ChallanRules(form, isUuid) && form.id.Some? && Editable(old(challans), form.businessId, form.id.value)
              && old(challans)[form.id.value].billingStatus != UNBILLED
              ==> r == Err(None, LockedMessage, None)
      ensures r.Ok? <==> && ChallanRules(form, isUuid) && form.id.Some? && fault.None?
                         && Editable(old(challans), form.businessId, form.id.value)
                         && old(challans)[form.id.value].billingStatus == UNBILLED
      ensures r.Ok? ==>
        var id := form.id.value;
        && r.value == id
        && challans == old(challans)[id := EditedHeader(old(challans)[id], ParseChallan(form, isUuid).data,
                                                        UpdateTotals(form.items, form.discountOnChallan))]
        && items == Insert(DropItems(old(items), id), itemIds,
                           UpdatedRows(id, form.items, HeaderDiscount(form.discountOnChallan), now))
    {
      var parsed := ParseChallan(form, isUuid);
      if parsed.Failed? {
        return InvalidChallan(parsed.issues);
      }
      r := EditChallan(parsed.data.businessId, form, parsed.data, itemIds, now, fault);
    }

    /**
     * `updateChallanAction` with the lookup scoped to the session's business:
     * a challan of another business is not found, whatever the form says.
     */
    method UpdateChallan(sessionBusinessId: Id, form: ChallanForm, isUuid: string -> bool, itemIds: seq<Id>,
                         now: Timestamp, fault: Option<Thrown>) returns (r: ActionResult<Id>)
      requires Valid()
      requires |itemIds| == |form.items| && Distinct(itemIds)
      requires forall k :: 0 <= k < |itemIds| ==> itemIds[k] !in items
      modifies this`challans, this`items
      ensures Valid()
      ensures !ChallanRules(form, isUuid) ==> r == InvalidChallan(ParseChallan(form, isUuid).issues)
      ensures r.Err? ==> challans == old(challans) && items == old(items)
      ensures ChallanRules(form, isUuid) && form.id.Some? && !Editable(old(challans), sessionBusinessId, form.id.value)
              ==> r == Err(None, NotFoundMessage, None)
      ensures ChallanRules(form, isUuid) && form.id.Some? && Editable(old(challans), sessionBusinessId, form.id.value)
              && old(challans)[form.id.value].billingStatus != UNBILLED
              ==> r == Err(None, LockedMessage, None)
      ensures r.Ok? <==> && ChallanRules(form, isUuid) && form.id.Some? && fault.None?
                         && Editable(old(challans), sessionBusinessId, form.id.value)
                         && old(challans)[form.id.value].billingStatus == UNBILLED
      ensures r.Ok? ==>
        var id := form.id.value;
        && old(challans)[id].businessId == sessionBusinessId
        && challans == old(challans)[id := EditedHeader(old(challans)[id], ParseChallan(form, isUuid).data,
                                                        UpdateTotals(form.items, form.discountOnChallan))]
        && ItemsOf(items, id) == IdSet(itemIds)
        && (forall k :: 0 <= k < |itemIds| ==>
              itemIds[k] in items && items[itemIds[k]] == UpdatedItem(id, form.items[k], HeaderDiscount(form.discountOnChallan), now))
        && (forall c :: c != id ==> ItemsOf(items, c) == ItemsOf(old(items), c))
        && (forall i :: i in old(items) && old(items)[i].challanId != id ==> i in items && items[i] == old(items)[i])
        && items == Insert(DropItems(old(items), id), itemIds,
                           UpdatedRows(id, form.items, HeaderDiscount(form.discountOnChallan), now))
    {
      var parsed := ParseChallan(form, isUuid);
      if parsed.Failed? {
        return InvalidChallan(parsed.issues);
      }
      r := EditChallan(sessionBusinessId, form, parsed.data, itemIds, now, fault);
      if r.Ok? {
        var id := form.id.value;
        EditedItems(old(items), id, itemIds, form.items, HeaderDiscount(form.discountOnChallan), now);
      }
    }

    /**
     * `finalizeBillAction` as written: a form that fails the schema or names
     * another business is refused; otherwise the transaction runs, and a
     * missing line leaves its partial writes committed.
     */
    method FinalizeBillAsWritten(sessionBusinessId: Id, form: BillForm, newBillId: Id, fault: Option<Option<string>>)
      returns (r: ActionResult<(Id, string)>)
      requires Valid() && newBillId !in bills
      modifies this`counters, this`challans, this`items, this`bills
      ensures Valid()
      ensures AsWrittenOutcome(Tables(old(counters), old(challans), old(items), old(bills)),
                               Tables(counters, challans, items, bills), sessionBusinessId, form, newBillId, fault, r)
    {
      var t1;
      r, t1 := FinalizeAsWritten(Tables(counters, challans, items, bills), businesses, sessionBusinessId, form,
                                 newBillId, fault);
      counters, challans, items, bills := t1.counters, t1.challans, t1.items, t1.bills;
    }

    /**
     * `finalizeBillAction` with a missing line aborting the transaction:
     * every failure leaves every table as it was, and a success bills
     * exactly the selected challans.
     */
    method FinalizeBill(sessionBusinessId: Id, form: BillForm, newBillId: Id, fault: Option<Option<string>>)
      returns (r: ActionResult<(Id, string)>)
      requires Valid() && newBillId !in bills
      modifies this`counters, this`challans, this`items, this`bills
      ensures Valid()
      ensures AtomicOutcome(Tables(old(counters), old(challans), old(items), old(bills)),
                            Tables(counters, challans, items, bills), sessionBusinessId, form, newBillId, fault, r)
    {
      var t1;
      r, t1 := FinalizeAtomically(Tables(counters, challans, items, bills), businesses, sessionBusinessId, form,
                                  newBillId, fault);
      counters, challans, items, bills := t1.counters, t1.challans, t1.items, t1.bills;
    }

    // ---- parties -------------------------------------------------------------------------

    /** `softDeleteParty`: a guarded update of a live party, then a lookup to tell deleted from missing. */
    method SoftDeleteParty(businessId: Id, ownerId: Id, partyId: Id, now: Timestamp, fault: Option<Thrown>)
      returns (r: ActionResult<()>)
      modifies this`parties
      ensures (r, parties) == PartyActions.SoftDelete(old(parties), businessId, ownerId, partyId, now, fault)
    {
      if fault.Some? {
        return PrismaError(fault.value);
      }
      var count := 0;
      if PartyActions.Owned(parties, businessId, partyId) && PartyActions.Live(parties[partyId]) {
        parties := parties[partyId := PartyActions.SoftDeleted(parties[partyId], ownerId, now)];
        count := 1;
      }
      if count == 1 {
        return Ok(());
      }
      if !PartyActions.Owned(parties, businessId, partyId) {
        return PartyActions.NotFound();
      }
      return Ok(());
    }

    /** `restoreParty`: a guarded update of a deleted party, then a lookup to tell live from missing. */
    method RestoreParty(businessId: Id, partyId: Id, fault: Option<Thrown>) returns (r: ActionResult<()>)
      modifies this`parties
      ensures (r, parties) == PartyActions.Restore(old(parties), businessId, partyId, fault)
    {
      if fault.Some? {
        return PrismaError(fault.value);
      }
      var count := 0;
      if PartyActions.Owned(parties, businessId, partyId) && !PartyActions.Live(parties[partyId]) {
        parties := parties[partyId := PartyActions.Restored(parties[partyId])];
        count := 1;
      }
      if count == 1 {
        return Ok(());
      }
      if !PartyActions.Owned(parties, businessId, partyId) {
        return PartyActions.NotFound();
      }
      return Ok(());
    }

    /** `togglePartyActive`: a lookup, then a guarded update that negates `isActive`. */
    method TogglePartyActive(businessId: Id, partyId: Id, fault: Option<Thrown>) returns (r: ActionResult<()>)
      modifies this`parties
      ensures (r, parties) == PartyActions.Toggle(old(parties), businessId, partyId, fault)
    {
      if fault.Some? {
        return PrismaError(fault.value);
      }
      if !PartyActions.Owned(parties, businessId, partyId) {
        return PartyActions.NotFound();
      }
      var party := parties[partyId];
      if !PartyActions.Live(party) {
        return PartyActions.DeletedMessage(PartyActions.RestoreStatusMessage);
      }
      var count := 0;
      if PartyActions.Owned(parties, businessId, partyId) && PartyActions.Live(parties[partyId]) {
        parties := parties[partyId := parties[partyId].(isActive := !party.isActive)];
        count := 1;
      }
      if count != 1 {
        // The source answers a count other than 1 with this message; only a
        // concurrent request changing the row between lookup and update
        // reaches it, and the model runs one request at a time.
        assert false;
        return Err(Some(FAILED), "Could not update party status.", None);
      }
      return Ok(());
    }

    /** `updateParty`: a guarded update of a live party, then a lookup to tell deleted from missing. */
    method UpdateParty(businessId: Id, form: PartyValidator.PartyForm, isEmail: string -> bool, fault: Option<Thrown>)
      returns (r: ActionResult<()>)
      modifies this`parties
      ensures (r, parties) == PartyActions.Update(old(parties), businessId, form, isEmail, fault)
    {
      var parsed := PartyValidator.ParseParty(form, isEmail);
      if parsed.Failed? {
        return Err(None, PartyActions.FixMessage, Some(Group(parsed.issues, None)));
      }
      var d := parsed.data;
      if d.id.None? || d.id.value == "" {
        return Err(None, PartyActions.FixMessage, None);
      }
      var partyId := d.id.value;
      if fault.Some? {
        return PrismaError(fault.value);
      }
      var count := 0;
      if PartyActions.Owned(parties, businessId, partyId) && PartyActions.Live(parties[partyId]) {
        parties := parties[partyId := PartyActions.Edited(parties[partyId], d)];
        count := 1;
      }
      if count == 1 {
        return Ok(());
      }
      if !PartyActions.Owned(parties, businessId, partyId) {
        return PartyActions.NotFound();
      }
      if !PartyActions.Live(parties[partyId]) {
        return PartyActions.DeletedMessage(PartyActions.RestoreEditMessage);
      }
      // Reached in the source only when a concurrent request changed the row
      // between the guarded update and this lookup.
      assert false;
      return Err(Some(FAILED), "Could not update party.", None);
    }

    /**
     * `createPartyAction`: the owner's business is looked up, the party
     * inserted, then the business marked onboarded, as separate writes.
     */
    method CreateParty(ownerId: Id, form: PartyValidator.PartyForm, isEmail: string -> bool, newId: Id,
                       now: Timestamp, fault: Option<PartyActions.CreateStep>) returns (r: ActionResult<()>)
      requires Valid() && newId !in parties
      modifies this`parties, this`businesses
      ensures Valid()
      ensures (r, parties, businesses)
           == PartyActions.Create(old(parties), old(businesses), ownerId, form, isEmail, newId, now, fault)
    {
      var parsed := PartyValidator.ParseParty(form, isEmail);
      if parsed.Failed? {
        return Err(Some(VALIDATION_ERROR), PartyActions.FixFieldsMessage, Some(Group(parsed.issues, None)));
      }
      r := InsertParty(ownerId, parsed.data, newId, now, fault);
    }

    /** The writes of `createPartyAction` for a validated form. */
    method InsertParty(ownerId: Id, d: PartyValidator.PartyData, newId: Id, now: Timestamp,
                       fault: Option<PartyActions.CreateStep>) returns (r: ActionResult<()>)
      requires Valid() && newId !in parties
      modifies this`parties, this`businesses
      ensures Valid()
      ensures (r, parties, businesses)
           == PartyActions.CreateValid(old(parties), old(businesses), ownerId, d, newId, now, fault)
    {
      if fault == Some(PartyActions.LookupBusiness) {
        return PartyActions.CreateFailed();
      }
      if ownerId !in businesses {
        return Err(Some(BUSINESS_NOT_FOUND), PartyActions.NoBusinessMessage, None);
      }
      var business := businesses[ownerId];
      if fault == Some(PartyActions.InsertParty) {
        return PartyActions.CreateFailed();
      }
      parties := parties[newId := PartyActions.NewParty(business.id, d)];
      if fault == Some(PartyActions.CompleteOnboarding) {
        return PartyActions.CreateFailed();
      }
      businesses := businesses[ownerId := PartyActions.Onboarded(business, now)];
      BusinessesKeepValid(counters, challans, old(businesses), businesses);
      return Ok(());
    }

    // ---- materials -----------------------------------------------------------------------

    /** `createMaterialAction`. */
    method CreateMaterial(businessId: Id, form: MaterialValidator.MaterialForm, newId: Id, fault: Option<Thrown>)
      returns (r: ActionResult<()>)
      requires newId !in materials
      modifies this`materials
      ensures (r, materials) == MaterialActions.Create(old(materials), businessId, form, newId, fault)
    {
      var parsed := MaterialValidator.ParseMaterial(form);
      if parsed.Failed? {
        return MaterialActions.InvalidInput(parsed.issues);
      }
      if fault.Some? {
        return MaterialActions.CaughtWrite(fault.value);
      }
      materials := materials[newId := MaterialActions.NewMaterial(businessId, parsed.data)];
      return Ok(());
    }

    /** `updateMaterialAction`: a lookup in the business, then the update. */
    method UpdateMaterial(businessId: Id, form: MaterialValidator.MaterialForm, fault: Option<Thrown>)
      returns (r: ActionResult<()>)
      modifies this`materials
      ensures (r, materials) == MaterialActions.Update(old(materials), businessId, form, fault)
    {
      var parsed := MaterialValidator.ParseMaterial(form);
      if parsed.Failed? {
        return MaterialActions.InvalidInput(parsed.issues);
      }
      var d := parsed.data;
      if d.id.None? || d.id.value == "" {
        return Err(Some(VALIDATION_ERROR), MaterialActions.IdRequired,
                   Some(map["id" := [MaterialActions.IdRequired]]));
      }
      if fault.Some? {
        return MaterialActions.CaughtWrite(fault.value);
      }
      var id := d.id.value;
      if !(id in materials && materials[id].businessId == businessId) {
        return Err(Some(NOT_FOUND), MaterialActions.NotFoundMessage, None);
      }
      materials := materials[id := MaterialActions.EditedMaterial(materials[id], d)];
      return Ok(());
    }

    /** `toggleMaterialActiveAction`: a lookup in the business, then `isActive` negated. */
    method ToggleMaterialActive(businessId: Id, id: Id, fault: Option<Thrown>) returns (r: ActionResult<()>)
      modifies this`materials
      ensures (r, materials) == MaterialActions.Toggle(old(materials), businessId, id, fault)
    {
      if fault.Some? {
        return PrismaError(fault.value);
      }
      if !(id in materials && materials[id].businessId == businessId) {
        return Err(Some(NOT_FOUND), MaterialActions.NotFoundDotMessage, None);
      }
      materials := materials[id := materials[id].(isActive := !materials[id].isActive)];
      return Ok(());
    }

    // ---- business -------------------------------------------------------------------------

    /** `createBusinessAction`: a lookup by owner, then the insert. */
    method CreateBusiness(ownerId: Id, form: BusinessValidator.BusinessForm, isEmail: string -> bool, newId: Id,
                          fault: Option<Thrown>) returns (r: ActionResult<()>)
      requires Valid()
      modifies this`businesses
      ensures Valid()
      ensures (r, businesses) == BusinessActions.Create(old(businesses), ownerId, form, isEmail, newId, fault)
    {
      var parsed := BusinessValidator.ParseBusiness(form, isEmail);
      if parsed.Failed? {
        return Err(Some(VALIDATION_ERROR), BusinessActions.FixFieldsMessage, Some(Group(parsed.issues, None)));
      }
      if fault.Some? {
        return BusinessActions.Caught(fault.value);
      }
      if ownerId in businesses {
        return BusinessActions.AlreadyExists();
      }
      businesses := businesses[ownerId := BusinessActions.NewBusiness(newId, parsed.data)];
      BusinessesKeepValid(counters, challans, old(businesses), businesses);
      return Ok(());
    }
  }
}
