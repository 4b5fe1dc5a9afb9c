/**
 * The candidate challans for a new bill: the query that lists a party's
 * unbilled outward sale and job-work challans, oldest first, with their items.
 */
module UnbilledQuery {
  import opened Wrappers
  import opened Entities
  import opened Ordering
  import opened Billing

  const PartyRequiredMessage: string := "Party is required."
  const LoadFailedMessage: string := "Failed to load challans."

  /** The filter of the candidate query. */
  predicate Candidate(ch: Challan, businessId: Id, partyId: Id)
  {
    && ch.businessId == businessId
    && ch.partyId == partyId
    && ch.billingStatus == UNBILLED
    && ch.billId.None?
    && ch.challanNo.Some?
    && ch.entryType == OUTWARD
    && (ch.purpose == SALE || ch.purpose == JOBWORK)
  }

  /** The re-check bill finalisation makes on each selected challan. */
  predicate StillBillable(ch: Challan, businessId: Id, partyId: Id)
  {
    ch.businessId == businessId && ch.partyId == partyId && ch.billingStatus == UNBILLED && ch.billId.None?
  }

  /** Every candidate passes the finalisation re-check, which is the weaker filter. */
  lemma CandidateIsBillable(ch: Challan, businessId: Id, partyId: Id)
    requires Candidate(ch, businessId, partyId)
    ensures StillBillable(ch, businessId, partyId)
  {
  }

  // ---- ordering ---------------------------------------------------------------------

  /** The sort key of a challan: its date, then its creation time. */
  datatype RowKey = RowKey(date: Date, createdAt: nat)

  predicate KeyLe(a: RowKey, b: RowKey)
  {
    (a.date != b.date && DateLe(a.date, b.date)) || (a.date == b.date && a.createdAt <= b.createdAt)
  }

  lemma DateLeTotal(a: Date, b: Date)
    ensures DateLe(a, b) || DateLe(b, a)
    ensures DateLe(a, b) && DateLe(b, a) ==> a == b
  {
  }

  lemma KeyLeTransitive(a: RowKey, b: RowKey, c: RowKey)
    requires KeyLe(a, b) && KeyLe(b, c)
    ensures KeyLe(a, c)
  {
    DateLeTotal(a.date, c.date);
  }

  const NoKey: RowKey := RowKey(Date(1, 0, 0), 0)

  function ChallanKey(challans: map<Id, Challan>, id: Id): RowKey
  {
    if id in challans then RowKey(challans[id].date, challans[id].createdAt) else NoKey
  }

  /** `orderBy: [{ date: "asc" }, { createdAt: "asc" }]` */
  function ChallanOrder(challans: map<Id, Challan>): (Id, Id) -> bool
  {
    (a: Id, b: Id) => KeyLe(ChallanKey(challans, a), ChallanKey(challans, b))
  }

  lemma ChallanOrderIsPreorder(challans: map<Id, Challan>)
    ensures TotalPreorder(ChallanOrder(challans))
  {
    var le := ChallanOrder(challans);
    forall a, b ensures le(a, b) || le(b, a) {
      DateLeTotal(ChallanKey(challans, a).date, ChallanKey(challans, b).date);
    }
    forall a, b, c | Chain(le, a, b, c) ensures le(a, c) {
      KeyLeTransitive(ChallanKey(challans, a), ChallanKey(challans, b), ChallanKey(challans, c));
    }
  }

  function ItemCreated(items: map<Id, ChallanItem>, id: Id): nat
  {
    if id in items then items[id].createdAt else 0
  }

  /** `orderBy: { createdAt: "asc" }` on a challan's items. */
  function ItemOrder(items: map<Id, ChallanItem>): (Id, Id) -> bool
  {
    (a: Id, b: Id) => ItemCreated(items, a) <= ItemCreated(items, b)
  }

  lemma ItemOrderIsPreorder(items: map<Id, ChallanItem>)
    ensures TotalPreorder(ItemOrder(items))
  {
    var le := ItemOrder(items);
    forall a, b, c | Chain(le, a, b, c) ensures le(a, c) {
    }
  }

  // ---- the result rows ------------------------------------------------------------------

  /** The selected fields of a line's catalogue material. */
  datatype MaterialRef = MaterialRef(name: string, unit: MaterialUnit)

  datatype ItemDto = ItemDto(
    id: Id, material: Option<MaterialRef>, quantity: real,
    rate: Option<real>, discount: Option<real>, amount: Option<real>)

  /** A candidate as returned; the date is rendered as an ISO string, which is not modelled. */
  datatype ChallanDto = ChallanDto(
    id: Id, challanNo: Option<string>, date: Date, vehicleNo: Option<string>,
    purpose: Purpose, totalAmount: Option<real>, items: seq<ItemDto>)

  function MaterialOf(materials: map<Id, Material>, materialId: Option<Id>): Option<MaterialRef>
  {
    if materialId.Some? && materialId.value in materials
    then Some(MaterialRef(materials[materialId.value].name, materials[materialId.value].unit))
    else None
  }

  function ItemRow(items: map<Id, ChallanItem>, materials: map<Id, Material>, id: Id): ItemDto
    requires id in items
  {
    var it := items[id];
    ItemDto(id, MaterialOf(materials, it.materialId), it.quantity, it.rate, it.discount, it.amount)
  }

  function ItemRows(items: map<Id, ChallanItem>, materials: map<Id, Material>, ids: seq<Id>): (r: seq<ItemDto>)
    requires forall j :: 0 <= j < |ids| ==> ids[j] in items
    ensures |r| == |ids|
    ensures forall j :: 0 <= j < |ids| ==> r[j].id == ids[j] && r[j] == ItemRow(items, materials, ids[j])
  {
    seq(|ids|, j requires 0 <= j < |ids| => ItemRow(items, materials, ids[j]))
  }

  /** One candidate with its items, oldest item first. */
  ghost function ChallanRow(challans: map<Id, Challan>, items: map<Id, ChallanItem>,
                            materials: map<Id, Material>, id: Id): (r: ChallanDto)
    requires id in challans
    ensures r.id == id && r.date == challans[id].date
    ensures forall x :: x in Column(r.items, ItemDtoId) <==> x in ItemsOf(items, id)
    ensures forall j :: 0 <= j < |r.items| ==> r.items[j].id in items
    ensures forall j, k :: 0 <= j < k < |r.items| ==>
      r.items[j].id != r.items[k].id && items[r.items[j].id].createdAt <= items[r.items[k].id].createdAt
  {
    ItemOrderIsPreorder(items);
    var ch := challans[id];
    var ids := SortSet(ItemsOf(items, id), ItemOrder(items));
    assert forall j :: 0 <= j < |ids| ==> ids[j] in ItemsOf(items, id);
    var rows := ItemRows(items, materials, ids);
    ItemRowsInOrder(items, materials, ids);
    ChallanDto(id, ch.challanNo, ch.date, ch.vehicleNo, ch.purpose, ch.totalAmount, rows)
  }

  /** The item rows built from ids sorted by item order carry those ids, oldest first. */
  lemma ItemRowsInOrder(items: map<Id, ChallanItem>, materials: map<Id, Material>, ids: seq<Id>)
    requires forall j :: 0 <= j < |ids| ==> ids[j] in items
    requires SortedBy(ids, ItemOrder(items)) && Distinct(ids)
    ensures var r := ItemRows(items, materials, ids);
      && Column(r, ItemDtoId) == ids
      && (forall j :: 0 <= j < |r| ==> r[j].id in items)
      && (forall j, k :: 0 <= j < k < |r| ==>
            r[j].id != r[k].id && items[r[j].id].createdAt <= items[r[k].id].createdAt)
  {
    var r := ItemRows(items, materials, ids);
    assert Column(r, ItemDtoId) == ids;
    var le := ItemOrder(items);
    forall j, k | 0 <= j < k < |r| ensures r[j].id != r[k].id && items[r[j].id].createdAt <= items[r[k].id].createdAt {
      assert le(ids[j], ids[k]);
    }
  }

  function ItemDtoId(d: ItemDto): Id { d.id }

  function ChallanDtoId(d: ChallanDto): Id { d.id }

  function CandidateIds(challans: map<Id, Challan>, businessId: Id, partyId: Id): set<Id>
  {
    set id | id in challans && Candidate(challans[id], businessId, partyId)
  }

  ghost function CandidateRows(challans: map<Id, Challan>, items: map<Id, ChallanItem>,
                               materials: map<Id, Material>, ids: seq<Id>): (r: seq<ChallanDto>)
    requires forall i :: 0 <= i < |ids| ==> ids[i] in challans
    ensures |r| == |ids|
    ensures forall i :: 0 <= i < |ids| ==> r[i] == ChallanRow(challans, items, materials, ids[i])
  {
    seq(|ids|, i requires 0 <= i < |ids| => ChallanRow(challans, items, materials, ids[i]))
  }

  /**
   * `getUnbilledChallansForPartyAction`: an empty party id is refused;
   * `failure` is the message of an error thrown by the query (None inside
   * when the error has none).  Otherwise every candidate appears exactly
   * once, ordered by date and then creation time, each with its items
   * ordered by creation time.
   */
  ghost function UnbilledChallans(challans: map<Id, Challan>, items: map<Id, ChallanItem>,
                                  materials: map<Id, Material>, businessId: Id, partyId: Id,
                                  failure: Option<Option<string>>)
    : (r: ActionResult<seq<ChallanDto>>)
    ensures r.Ok? <==> partyId != "" && failure.None?
    ensures partyId == "" ==> r == Err(None, PartyRequiredMessage, None)
    ensures partyId != "" && failure.Some? ==> r == Err(None, failure.value.GetOr(LoadFailedMessage), None)
    ensures r.Ok? ==>
      && (forall id :: id in Column(r.value, ChallanDtoId) <==> id in CandidateIds(challans, businessId, partyId))
      && Distinct(Column(r.value, ChallanDtoId))
      && (forall i :: 0 <= i < |r.value| ==>
            r.value[i].id in challans && r.value[i] == ChallanRow(challans, items, materials, r.value[i].id))
      && (forall i, j :: 0 <= i < j < |r.value| ==>
            KeyLe(ChallanKey(challans, r.value[i].id), ChallanKey(challans, r.value[j].id)))
  {
    if partyId == "" then Err(None, PartyRequiredMessage, None)
    else if failure.Some? then Err(None, failure.value.GetOr(LoadFailedMessage), None)
    else
      ChallanOrderIsPreorder(challans);
      var ids := SortSet(CandidateIds(challans, businessId, partyId), ChallanOrder(challans));
      assert forall i :: 0 <= i < |ids| ==> ids[i] in CandidateIds(challans, businessId, partyId);
      var rows := CandidateRows(challans, items, materials, ids);
      RowsInOrder(challans, items, materials, ids);
      Ok(rows)
  }

  /** The rows built from ids sorted by challan order carry those ids, in that order. */
  lemma RowsInOrder(challans: map<Id, Challan>, items: map<Id, ChallanItem>,
                    materials: map<Id, Material>, ids: seq<Id>)
    requires forall i :: 0 <= i < |ids| ==> ids[i] in challans
    requires SortedBy(ids, ChallanOrder(challans))
    ensures var r := CandidateRows(challans, items, materials, ids);
      && Column(r, ChallanDtoId) == ids
      && (forall i :: 0 <= i < |r| ==> r[i].id in challans && r[i] == ChallanRow(challans, items, materials, r[i].id))
      && (forall i, j :: 0 <= i < j < |r| ==> KeyLe(ChallanKey(challans, r[i].id), ChallanKey(challans, r[j].id)))
  {
    var r := CandidateRows(challans, items, materials, ids);
    assert Column(r, ChallanDtoId) == ids;
    var le := ChallanOrder(challans);
    forall i, j | 0 <= i < j < |r| ensures KeyLe(ChallanKey(challans, r[i].id), ChallanKey(challans, r[j].id)) {
      assert le(ids[i], ids[j]);
    }
  }

  /** Every challan listed as a candidate passes the finalisation re-check. */
  lemma ListedChallansAreBillable(challans: map<Id, Challan>, items: map<Id, ChallanItem>,
                                  materials: map<Id, Material>, businessId: Id, partyId: Id, i: nat)
    requires UnbilledChallans(challans, items, materials, businessId, partyId, None).Ok?
    requires i < |UnbilledChallans(challans, items, materials, businessId, partyId, None).value|
    ensures var id := UnbilledChallans(challans, items, materials, businessId, partyId, None).value[i].id;
      id in challans && StillBillable(challans[id], businessId, partyId)
  {
    var rows := UnbilledChallans(challans, items, materials, businessId, partyId, None).value;
    assert rows[i].id in Column(rows, ChallanDtoId);
  }
}
