/**
 * The party picker of the bill form: the live parties of the current
 * business, optionally restricted to some kinds, sorted by name.
 */
module PartySelect {
  import opened Wrappers
  import opened Text
  import opened Entities
  import opened Ordering

  const LoadFailedMessage: string := "Failed to load parties."

  /** The optional filter: kinds to keep, and whether inactive parties are listed too. */
  datatype SelectInput = SelectInput(kinds: Option<seq<PartyKind>>, includeInactive: Option<bool>)

  /** The selected columns of a listed party. */
  datatype SelectItem = SelectItem(id: Id, name: string, kind: PartyKind)

  /** The `where` clause of the query. */
  predicate Selected(p: Party, businessId: Id, input: SelectInput)
  {
    && p.businessId == businessId
    && p.deletedAt.None?
    && (input.includeInactive == Some(true) || p.isActive)
    && (input.kinds.None? || input.kinds.value == [] || p.kind in input.kinds.value)
  }

  function NameOf(parties: map<Id, Party>, id: Id): string
  {
    if id in parties then parties[id].name else ""
  }

  /** `orderBy: { name: "asc" }`, comparing names character by character. */
  function NameOrder(parties: map<Id, Party>): (Id, Id) -> bool
  {
    (a: Id, b: Id) => StrLe(NameOf(parties, a), NameOf(parties, b))
  }

  lemma NameOrderIsPreorder(parties: map<Id, Party>)
    ensures TotalPreorder(NameOrder(parties))
  {
    var le := NameOrder(parties);
    forall a, b ensures le(a, b) || le(b, a) {
      StrLeTotal(NameOf(parties, a), NameOf(parties, b));
    }
    forall a, b, c | Chain(le, a, b, c) ensures le(a, c) {
      StrLeTransitive(NameOf(parties, a), NameOf(parties, b), NameOf(parties, c));
    }
  }

  function SelectedIds(parties: map<Id, Party>, businessId: Id, input: SelectInput): set<Id>
  {
    set id | id in parties && Selected(parties[id], businessId, input)
  }

  function SelectItemId(item: SelectItem): Id { item.id }

  function SelectItems(parties: map<Id, Party>, ids: seq<Id>): (r: seq<SelectItem>)
    requires forall i :: 0 <= i < |ids| ==> ids[i] in parties
    ensures |r| == |ids|
    ensures forall i :: 0 <= i < |ids| ==>
      r[i] == SelectItem(ids[i], parties[ids[i]].name, parties[ids[i]].kind)
  {
    seq(|ids|, i requires 0 <= i < |ids| => SelectItem(ids[i], parties[ids[i]].name, parties[ids[i]].kind))
  }

  /**
   * `getPartiesForSelect`: `failure` is the message of an error thrown while
   * querying (None inside when the error has none).  Otherwise every selected
   * party is listed once, with its stored name and kind, in name order.
   */
  ghost function PartiesForSelect(parties: map<Id, Party>, businessId: Id, input: SelectInput,
                                  failure: Option<Option<string>>): (r: ActionResult<seq<SelectItem>>)
    ensures r.Err? <==> failure.Some?
    ensures r.Err? ==> r == Err(None, failure.value.GetOr(LoadFailedMessage), None)
    ensures r.Ok? ==>
      && (forall id :: id in Column(r.value, SelectItemId) <==> id in parties && Selected(parties[id], businessId, input))
      && Distinct(Column(r.value, SelectItemId))
      && (forall i :: 0 <= i < |r.value| ==>
            && r.value[i].id in parties
            && r.value[i].name == parties[r.value[i].id].name
            && r.value[i].kind == parties[r.value[i].id].kind)
      && (forall i, j :: 0 <= i < j < |r.value| ==> StrLe(r.value[i].name, r.value[j].name))
  {
    if failure.Some? then Err(None, failure.value.GetOr(LoadFailedMessage), None)
    else
      NameOrderIsPreorder(parties);
      var ids := SortSet(SelectedIds(parties, businessId, input), NameOrder(parties));
      assert forall i :: 0 <= i < |ids| ==> ids[i] in SelectedIds(parties, businessId, input);
      var items := SelectItems(parties, ids);
      assert Column(items, SelectItemId) == ids;
      assert forall i, j :: 0 <= i < j < |ids| ==> NameOrder(parties)(ids[i], ids[j]);
      Ok(items)
  }

  /** Listing inactive parties too only ever adds to the list. */
  lemma IncludeInactiveWidens(p: Party, businessId: Id, kinds: Option<seq<PartyKind>>, flag: Option<bool>)
    requires Selected(p, businessId, SelectInput(kinds, flag))
    ensures Selected(p, businessId, SelectInput(kinds, Some(true)))
  {
  }

  /** An empty kind list filters nothing, exactly like an absent one. */
  lemma EmptyKindsFilterNothing(p: Party, businessId: Id, flag: Option<bool>)
    ensures Selected(p, businessId, SelectInput(Some([]), flag)) <==> Selected(p, businessId, SelectInput(None, flag))
  {
  }
}
