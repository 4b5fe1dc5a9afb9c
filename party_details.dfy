/**
 * The party page's entry list: reading the filter from the search
 * parameters, building the entry `where` clause condition by condition, and
 * the pagination arithmetic.
 */
module PartyDetails {
  import opened Wrappers
  import opened Text
  import opened Entities
  import opened ChallanValidator

  /** A search parameter: missing, given once, or repeated. */
  datatype Param = Missing | One(value: string) | Many(values: seq<string>)

  /**
   * The filter.  The date window is given (reading it needs the clock and date
   * parsing); type, purpose and billing are the raw strings, "ALL" meaning no
   * constraint; page may be infinite when the parameter reads so.
   */
  datatype Filter = Filter(
    from: Date, to: Date, entryType: string, purpose: string, billing: string,
    q: string, page: Num, pageSize: real)

  /** A single-string parameter, or "ALL". */
  function ChoiceParam(p: Param): (r: string)
    ensures p.One? ==> r == p.value
    ensures !p.One? ==> r == "ALL"
  {
    if p.One? then p.value else "ALL"
  }

  /**
   * `Number(x) || fallback`, with a missing parameter read as the fallback:
   * NaN and 0 are falsy and give the fallback, any other number is kept.
   */
  function NumberOr(p: Param, toNumber: string -> Num, fallback: real): (r: Num)
    ensures r != NaN
    ensures fallback != 0.0 ==> r != Finite(0.0)
    ensures !p.One? ==> r == Finite(fallback)
    ensures p.One? && (toNumber(p.value) == NaN || toNumber(p.value) == Finite(0.0)) ==> r == Finite(fallback)
    ensures p.One? && toNumber(p.value) != NaN && toNumber(p.value) != Finite(0.0) ==> r == toNumber(p.value)
  {
    var n := if p.One? then toNumber(p.value) else Finite(fallback);
    if n == NaN || n == Finite(0.0) then Finite(fallback) else n
  }

  /** `Math.max(1, n)`. */
  function AtLeastOne(n: Num): (r: Num)
    ensures r == PosInfinity || (r.Finite? && r.r >= 1.0)
    ensures n.Finite? && n.r >= 1.0 ==> r == n
  {
    match n
    case Finite(x) => Finite(if x >= 1.0 then x else 1.0)
    case PosInfinity => PosInfinity
    case _ => Finite(1.0)
  }

  /** `Math.min(100, Math.max(10, n))`. */
  function PageSizeOf(n: Num): (r: real)
    ensures 10.0 <= r <= 100.0
    ensures n.Finite? && 10.0 <= n.r <= 100.0 ==> r == n.r
  {
    match n
    case Finite(x) => if x < 10.0 then 10.0 else if x > 100.0 then 100.0 else x
    case PosInfinity => 100.0
    case _ => 10.0
  }

  /**
   * `parsePartyDetailsFilter`: choices default to "ALL", `q` is trimmed and
   * defaults to "", page is at least 1 (1 when missing, unreadable or 0), and
   * the page size lies in [10, 100] (20 when missing, unreadable or 0).
   */
  function ParseFilter(from: Date, to: Date, entryType: Param, purpose: Param, billing: Param,
                       q: Param, page: Param, pageSize: Param, toNumber: string -> Num): (r: Filter)
    ensures r.from == from && r.to == to
    ensures r.entryType == ChoiceParam(entryType) && r.purpose == ChoiceParam(purpose)
    ensures r.billing == ChoiceParam(billing)
    ensures r.q == (if q.One? then Trim(q.value) else "")
    ensures r.page == PosInfinity || (r.page.Finite? && r.page.r >= 1.0)
    ensures !page.One? ==> r.page == Finite(1.0)
    ensures page.One? ==> var n := toNumber(page.value);
      && (n.Finite? && n.r >= 1.0 ==> r.page == n)
      && (n == PosInfinity ==> r.page == PosInfinity)
      && (n == NaN || n == NegInfinity || (n.Finite? && n.r < 1.0) ==> r.page == Finite(1.0))
    ensures 10.0 <= r.pageSize <= 100.0
    ensures !pageSize.One? ==> r.pageSize == 20.0
    ensures pageSize.One? ==> var n := toNumber(pageSize.value);
      && (n.Finite? && 10.0 <= n.r <= 100.0 ==> r.pageSize == n.r)
      && (n == NaN || n == Finite(0.0) ==> r.pageSize == 20.0)
      && (n == PosInfinity || (n.Finite? && n.r > 100.0) ==> r.pageSize == 100.0)
      && (n == NegInfinity || (n.Finite? && n.r != 0.0 && n.r < 10.0) ==> r.pageSize == 10.0)
  {
    Filter(from, to, ChoiceParam(entryType), ChoiceParam(purpose), ChoiceParam(billing),
           if q.One? then Trim(q.value) else "",
           AtLeastOne(NumberOr(page, toNumber, 1.0)),
           PageSizeOf(NumberOr(pageSize, toNumber, 20.0)))
  }

  /** A page or size read as a number that is 0 or unreadable falls back to the default. */
  lemma FallbackOnZero(toNumber: string -> Num, p: string, s: string)
    requires toNumber(p) == NaN || toNumber(p) == Finite(0.0)
    requires toNumber(s) == NaN || toNumber(s) == Finite(0.0)
    ensures AtLeastOne(NumberOr(One(p), toNumber, 1.0)) == Finite(1.0)
    ensures PageSizeOf(NumberOr(One(s), toNumber, 20.0)) == 20.0
  {
  }

  // ---- the where clause --------------------------------------------------------------

  /** One element of the `AND` array. */
  datatype Condition =
    | BusinessIs(businessId: Id)
    | PartyIs(partyId: Id)
    | DateWithin(from: Date, to: Date)
    | TypeIs(entryType: string)
    | PurposeIs(purpose: string)
    | BillingIs(billing: string)
    | TextContains(q: string)

  function TypeName(t: EntryType): string
  {
    match t
    case INWARD => "INWARD"
    case OUTWARD => "OUTWARD"
  }

  function StatusName(s: BillingStatus): string
  {
    match s
    case UNBILLED => "UNBILLED"
    case BILLED => "BILLED"
  }

  /**
   * What one condition demands of an entry; the case-insensitive text search over
   * material name, challan number and vehicle number is `contains`.
   */
  predicate Holds(c: Condition, ch: Challan, contains: (Challan, string) -> bool)
  {
    match c
    case BusinessIs(b) => ch.businessId == b
    case PartyIs(p) => ch.partyId == p
    case DateWithin(from, to) => DateLe(from, ch.date) && DateLe(ch.date, to)
    case TypeIs(t) => TypeName(ch.entryType) == t
    case PurposeIs(p) => PurposeName(ch.purpose) == p
    case BillingIs(s) => StatusName(ch.billingStatus) == s
    case TextContains(q) => contains(ch, q)
  }

  predicate AllHold(conds: seq<Condition>, ch: Challan, contains: (Challan, string) -> bool)
  {
    forall i :: 0 <= i < |conds| ==> Holds(conds[i], ch, contains)
  }

  predicate WindowOk(ch: Challan, businessId: Id, partyId: Id, f: Filter)
  {
    ch.businessId == businessId && ch.partyId == partyId && DateLe(f.from, ch.date) && DateLe(ch.date, f.to)
  }

  predicate TypeOk(ch: Challan, f: Filter) { f.entryType == "ALL" || TypeName(ch.entryType) == f.entryType }
  predicate PurposeOk(ch: Challan, f: Filter) { f.purpose == "ALL" || PurposeName(ch.purpose) == f.purpose }
  predicate BillingOk(ch: Challan, f: Filter) { f.billing == "ALL" || StatusName(ch.billingStatus) == f.billing }
  predicate TextOk(ch: Challan, f: Filter, contains: (Challan, string) -> bool) { f.q == "" || contains(ch, f.q) }

  /** The entries the party page lists, stated field by field. */
  predicate Listed(ch: Challan, businessId: Id, partyId: Id, f: Filter, contains: (Challan, string) -> bool)
  {
    && WindowOk(ch, businessId, partyId, f)
    && TypeOk(ch, f) && PurposeOk(ch, f) && BillingOk(ch, f)
    && TextOk(ch, f, contains)
  }

  lemma AllHoldAppend(conds: seq<Condition>, c: Condition, ch: Challan, contains: (Challan, string) -> bool)
    ensures AllHold(conds + [c], ch, contains) <==> AllHold(conds, ch, contains) && Holds(c, ch, contains)
  {
    var all := conds + [c];
    if AllHold(conds, ch, contains) && Holds(c, ch, contains) {
      forall i | 0 <= i < |all| ensures Holds(all[i], ch, contains) {
        if i < |conds| {
          assert all[i] == conds[i];
        }
      }
    }
    if AllHold(all, ch, contains) {
      forall i | 0 <= i < |conds| ensures Holds(conds[i], ch, contains) {
        assert all[i] == conds[i];
      }
      assert all[|conds|] == c;
    }
  }

  /**
   * `buildEntriesWhere`: business, party and date window first, then one
   * condition per filter that is not "ALL", then the text search when `q` is
   * non-empty.  An entry satisfies every condition exactly when it is listed.
   */
  method BuildEntriesWhere(businessId: Id, partyId: Id, f: Filter, ghost contains: (Challan, string) -> bool)
    returns (and: seq<Condition>)
    ensures |and| == 3 + Count(f.entryType != "ALL") + Count(f.purpose != "ALL")
                       + Count(f.billing != "ALL") + Count(f.q != "")
    ensures and[..3] == [BusinessIs(businessId), PartyIs(partyId), DateWithin(f.from, f.to)]
    ensures forall ch :: AllHold(and, ch, contains) <==> Listed(ch, businessId, partyId, f, contains)
  {
    and := [BusinessIs(businessId), PartyIs(partyId), DateWithin(f.from, f.to)];
    forall ch ensures AllHold(and, ch, contains) <==> WindowOk(ch, businessId, partyId, f) {
      assert Holds(and[0], ch, contains) && Holds(and[1], ch, contains) && Holds(and[2], ch, contains)
        <==> WindowOk(ch, businessId, partyId, f);
    }
    if f.entryType != "ALL" {
      forall ch { AllHoldAppend(and, TypeIs(f.entryType), ch, contains); }
      and := and + [TypeIs(f.entryType)];
    }
    assert forall ch :: AllHold(and, ch, contains) <==> Passes(ch, businessId, partyId, f, 1, contains);
    if f.purpose != "ALL" {
      forall ch { AllHoldAppend(and, PurposeIs(f.purpose), ch, contains); }
      and := and + [PurposeIs(f.purpose)];
    }
    assert forall ch :: AllHold(and, ch, contains) <==> Passes(ch, businessId, partyId, f, 2, contains);
    if f.billing != "ALL" {
      forall ch { AllHoldAppend(and, BillingIs(f.billing), ch, contains); }
      and := and + [BillingIs(f.billing)];
    }
    assert forall ch :: AllHold(and, ch, contains) <==> Passes(ch, businessId, partyId, f, 3, contains);
    if f.q != "" {
      forall ch { AllHoldAppend(and, TextContains(f.q), ch, contains); }
      and := and + [TextContains(f.q)];
    }
  }

  /** An entry passes the window and the first `stage` optional filters. */
  predicate Passes(ch: Challan, businessId: Id, partyId: Id, f: Filter, stage: nat,
                   contains: (Challan, string) -> bool)
  {
    && WindowOk(ch, businessId, partyId, f)
    && (stage >= 1 ==> TypeOk(ch, f))
    && (stage >= 2 ==> PurposeOk(ch, f))
    && (stage >= 3 ==> BillingOk(ch, f))
    && (stage >= 4 ==> TextOk(ch, f, contains))
  }

  /** 1 for a condition that is added, 0 otherwise. */
  function Count(b: bool): nat { if b then 1 else 0 }

  // ---- pagination ----------------------------------------------------------------------

  /** The least integer not below `x`. */
  function Ceil(x: real): (r: int)
    ensures r as real - 1.0 < x <= r as real
  {
    if x == x.Floor as real then x.Floor else x.Floor + 1
  }

  /** `skip = (page - 1) * pageSize`. */
  function Skip(page: real, pageSize: real): (r: real)
    requires page >= 1.0 && pageSize >= 10.0
    ensures r >= 0.0
  {
    (page - 1.0) * pageSize
  }

  /** `Math.max(1, Math.ceil(total / pageSize))`. */
  function TotalPages(total: nat, pageSize: real): (r: int)
    requires 10.0 <= pageSize <= 100.0
    ensures r >= 1
    ensures total == 0 ==> r == 1
    ensures total as real <= r as real * pageSize
    ensures total > 0 ==> (r - 1) as real * pageSize < total as real
  {
    var t := total as real;
    var x := t / pageSize;
    var c := Ceil(x);
    Scale(x, c as real, pageSize, t, c as real * pageSize);
    Scale(c as real - 1.0, x, pageSize, (c - 1) as real * pageSize, t);
    if c >= 1 then c else 1
  }

  /** The last page starts inside the list, and every later page starts past its end. */
  lemma PagesCoverEntries(total: nat, pageSize: real, page: int)
    requires 10.0 <= pageSize <= 100.0 && page >= 1
    ensures total > 0 && page == TotalPages(total, pageSize) ==> Skip(page as real, pageSize) < total as real
    ensures page > TotalPages(total, pageSize) ==> Skip(page as real, pageSize) >= total as real
  {
    var n := TotalPages(total, pageSize);
    if page > n {
      Scale(n as real, (page - 1) as real, pageSize, n as real * pageSize, Skip(page as real, pageSize));
    }
  }

  /** Scaling by a positive factor keeps the order, strict or not. */
  lemma Scale(a: real, b: real, k: real, ak: real, bk: real)
    requires a <= b && k > 0.0 && ak == a * k && bk == b * k
    ensures ak <= bk
    ensures a < b ==> ak < bk
  {
    assert bk - ak == (b - a) * k;
  }
}
