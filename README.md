# hisab: challan-to-bill bookkeeping, modelled in Dafny

hisab is a register for small businesses. A business records delivery
challans for its parties: which materials went out, in what quantity, at
what rate and discount. Later it gathers a party's unbilled challans into
one bill. This project models the server side of that work:

- **Financial-year numbering.**
  - Every business keeps one counter per document type (CHALLAN, BILL) and
    per financial year, keyed like `FY25-26`.
  - A challan gets its number from an upsert that increments the counter.
  - A bill reads the counter first and increments it in a separate write.
  - Numbers are shown padded to four digits.
- **Challans.** Validating the challan form, computing line nets and
  totals, creating a challan in one transaction together with its number
  and items, and editing an unbilled sale or job-work challan.
- **Bill finalisation.**
  - The bill form is validated and checked against the session's business.
  - The transaction re-checks that the selected challans are still
    unbilled and belong to the business and the party.
  - It draws the bill number and writes the bill header.
  - It rewrites each item from its bill line: rate clamped at 0, discount
    clamped to [0, 100], amount recomputed.
  - It marks each challan billed with its total and stores the subtotal.
- **Master data.** Creating a business (at most one per owner).
  Creating, editing, soft-deleting, restoring and toggling parties.
  Creating, editing and toggling materials. The schemas of all these
  forms, and the mapping of database errors to results.
- **Queries and sharing.**
  - The unbilled-challan list and the party picker of the bill form.
  - The party page's filter and pagination.
  - The WhatsApp and e-mail texts for a shared challan, including HTML
    escaping.
  - The share action's decision chain.

The tables form one class, `Store.Db`. Its fields are maps for counters,
challans, items, bills, parties, materials and businesses. Each server
action is a method on it. `Db.Valid()` is the invariant every action
keeps:

- every CHALLAN counter belongs to an existing business that has entries;
- a challan is billed exactly when it names a bill, and that bill exists.

Transactions run on a value copy of the four tables they touch
(`Store.Tables`). They commit all four together or leave them as they
were. The master-data actions are stated case by case as functions
(`PartyActions.SoftDelete`, `MaterialActions.Update`, …). The matching
`Db` methods are proved to have exactly those effects.

Money and quantities are `real`. A thrown database error is a `fault`
parameter. Ids and clock readings are parameters as well.

Where the code and the design intent differ, the model follows the code
and proves the intended behaviour beside it. One case is the design's
all-or-nothing finalisation: a missing bill line *returns* an error value
inside the transaction callback, so the database commits the partial
writes. See "## Findings".

Creating and editing a challan apply discounts differently, and the model
keeps both as written. Creation stacks the line discount and the header
discount. Editing ignores the line discounts whenever a header discount
is given (`ChallanTotals.StackingVersusZeroing`).

## Model

| member | source | states |
|---|---|---|
| FinancialYear.FiscalStartWindow | src/lib/helpers/getFinancialYear.ts:5 | The financial year starting in year s runs from April of s to March of s + 1. April to December belong to the calendar year; January to March belong to the year before. |
| FinancialYear.ShortIsTwoDigits | src/lib/helpers/getFinancialYear.ts:8 | From 10 on, `String(y).slice(-2)` is the year modulo 100 written as two digits. |
| FinancialYear.KeyShape | src/lib/helpers/getFinancialYear.ts:8-9 | For years from 10 on, the key is 7 characters: "FY", the start year's two digits, '-', then the two digits of the year after. |
| FinancialYear.SameKeyIff | src/lib/helpers/getFinancialYear.ts:5-9 | Two dates share a key exactly when their fiscal start years agree modulo 100. Within a century the key identifies the financial year, in both directions. |
| FinancialYear.SameKeyOnlyIf | src/lib/helpers/getFinancialYear.ts:5-9 | Equal keys imply start years that agree modulo 100. |
| FinancialYear.SameKeyIf | src/lib/helpers/getFinancialYear.ts:5-9 | Start years that agree modulo 100 give equal keys. |
| FinancialYear.BoundaryExamples | src/lib/helpers/getFinancialYear.ts:2-9 | 31 March 2025 is in FY24-25; 1 April 2025 and 15 January 2026 are in FY25-26. |
| FinancialYear.Pad | src/lib/helpers/getFinancialYear.ts:12-13 | The padded text is at least `size` characters long. It is a run of zeros followed by the decimal rendering. |
| FinancialYear.PadNoTruncation | src/lib/helpers/getFinancialYear.ts:13 | A number with at least `size` digits is rendered unchanged, never truncated. |
| FinancialYear.PadStripRoundTrip | src/lib/helpers/getFinancialYear.ts:13 | Stripping the leading zeros of a padded positive number gives back its decimal rendering. |
| FinancialYear.PadParseRoundTrip | src/lib/helpers/getFinancialYear.ts:12-13 | Reading a padded number as decimal gives the number back, at any width. |
| FinancialYear.PadDefaultExample | src/lib/helpers/getFinancialYear.ts:12 | With the default width, 7 is rendered "0007". |
| Text.DecimalRoundTrip | src/lib/helpers/getFinancialYear.ts:13 | Reading back `String(n)` gives n. |
| Text.DecimalInjective | src/lib/helpers/getFinancialYear.ts:13 | Distinct numbers render differently. |
| Numbering.ChallanUpsert | src/lib/actions/helperActions/allocateChallanNumber.ts:14-32 | The upsert adds the key when it is missing, leaves a positive value under it, and keeps every other key's value; `AllocationStep` gives the value exactly. |
| Numbering.AllocationStep | src/lib/actions/helperActions/allocateChallanNumber.ts:14-34 | The first allocation on a key issues 1. A later one issues the value stored before it. Either way, the stored value afterwards is the issued number plus one. |
| Numbering.IssueRunConsecutive | src/lib/actions/helperActions/allocateChallanNumber.ts:14-34 | n allocations in a row issue n consecutive numbers, starting from the first the key would issue. The counter ends one past the last number. No other key changes. |
| Numbering.IssueRunDistinct | src/lib/actions/helperActions/allocateChallanNumber.ts:14-34 | A run of allocations on one key never issues a number twice. |
| Numbering.ChallanNumber | src/lib/actions/helperActions/allocateChallanNumber.ts:36 | The challan number is the year key, '/', and the issued number padded to four digits. |
| Numbering.ChallanNumberInjective | src/lib/actions/helperActions/allocateChallanNumber.ts:36 | Within one year key, two challan numbers are equal only when the issued numbers are. |
| Numbering.BillAdvance | src/lib/actions/bills/finalizeBillAction.ts:80-103 | The read-then-increment adds the BILL key when it is missing and keeps every other key's value; `BillNumbering` gives the value under the key. |
| Numbering.BillNumber | src/lib/actions/bills/finalizeBillAction.ts:98 | The bill number is the year key, '-', and the number read, padded to four digits. |
| Numbering.BillNumbering | src/lib/actions/bills/finalizeBillAction.ts:80-103 | The stored value after a bill is the value read plus one; an existing counter rises by exactly one. The first bill of a key is number 0001. |
| Numbering.BillNumbersDistinct | src/lib/actions/bills/finalizeBillAction.ts:80-103 | Two bills drawn one after the other on the same key get different numbers. |
| Store.AllocateChallanNumber | src/lib/actions/helperActions/allocateChallanNumber.ts:7-39 | Returns the year key of the date and the counters after the CHALLAN upsert. The number issued is the one the key would issue next. The challan number is built from both. |
| Store.Db.NextChallanNumber | src/lib/actions/helperActions/getNextChallanNumber.ts:6-50 | In a store whose counters are backed by entries, the number shown on a new challan form is exactly the number the next allocation for today's date will issue. |
| Store.DrawBillNumber | src/lib/actions/bills/finalizeBillAction.ts:80-103 | Returns the bill number built from the value read, and the counters after the read and the increment. |
| Billing.ZodFieldErrors | src/lib/actions/bills/finalizeBillAction.ts:20-28 | The loop over the issues gives the grouping `Group(issues, "root")`. Each message is filed under its first path segment, or "root". |
| Billing.RootCatchesAll | src/lib/actions/bills/finalizeBillAction.ts:23 | Every issue lands under some key, so a failed parse reports at least one field. |
| Validation.GroupSpec | src/lib/utils.ts:66-71 | Grouping issues per field: a field has an entry exactly when some issue is filed under it. The entry lists exactly those messages, in order. |
| Billing.BuildOverrides | src/lib/actions/bills/finalizeBillAction.ts:121-131 | The loop over the lines builds the override map `OverridesOf(lines)`. |
| Billing.OverridesLastWins | src/lib/actions/bills/finalizeBillAction.ts:121-131 | An item has an override exactly when some line names it. A repeated item takes the rate and discount of its last line. |
| Billing.LineAmountBounds | src/lib/actions/bills/finalizeBillAction.ts:151-158 | The stored rate is at least 0 and the discount lies in [0, 100]. For a non-negative quantity the amount lies between 0 and rate × quantity. |
| Billing.DiscountClampExamples | src/lib/actions/bills/finalizeBillAction.ts:153-158 | A discount of 100 or more makes the line free. A negative discount counts as none. |
| Billing.SetSumRemove | src/lib/actions/bills/finalizeBillAction.ts:133-172 | Any element may be taken out of a sum first. Totals summed in the database's arbitrary row order do not depend on that order. |
| Billing.SubtotalNonNegative | src/lib/actions/bills/finalizeBillAction.ts:133-172 | A challan total, and the bill subtotal, are never negative. |
| BillSelection.Found | src/lib/actions/bills/finalizeBillAction.ts:56-68 | The challans the query finds are exactly the selected ids that are challans of the business and party, unbilled and without a bill. |
| BillSelection.FoundCountIff | src/lib/actions/bills/finalizeBillAction.ts:70-77 | The count check passes exactly for selectable selections, which then find every selected challan. A selection with a repeated id always fails it. |
| BillSelection.BillHeader | src/lib/actions/bills/finalizeBillAction.ts:106-117 | The bill as first written carries the form's business, party, number, dates and notes (an absent note stored as null) and a subtotal of 0. |
| BillSelection.BillFailed | src/lib/actions/bills/finalizeBillAction.ts:193-195 | A thrown error is answered with its message, or "Failed to create bill." when it has none. No code and no field errors are returned. |
| BillSelection.ChallanTotalStored | src/lib/actions/bills/finalizeBillAction.ts:160-182 | After finalisation, each selected challan's stored total is the sum of its items' stored amounts. |
| BillSelection.FinalisedConsistent | src/lib/actions/bills/finalizeBillAction.ts:133-189 | After finalisation, every selected challan is billed to the new bill and its total matches its items. The bill's subtotal is the sum of the challan totals. |
| BillSelection.BilledOnce | src/lib/actions/bills/finalizeBillAction.ts:56-77 | After a finalisation, a new submission that selects any of the billed challans is a stale selection. A challan is billed at most once. |
| BillSelection.MismatchLeavesBill | src/lib/actions/bills/finalizeBillAction.ts:142-149 | A run stopped at a missing line has still raised the BILL counter by one. It has also left a bill row with subtotal 0. |
| BillSelection.MismatchFrame | src/lib/actions/bills/finalizeBillAction.ts:133-170 | A run stopped at a missing line leaves every item of an unselected challan and every unselected challan as they were, and at least one selected challan unbilled. |
| BillSelection.MissingLineReachable | src/lib/actions/bills/finalizeBillAction.ts:142-149 | A concrete valid form passes the re-check but lacks a line for an item, so the LINES_MISMATCH return is reachable. |
| BillValidator.ParseBill | src/lib/validators/bill/createBillValidator.ts:9-52 | A bill request is accepted exactly when every rule holds. The rules cover business, party, at least one selected id, at least one line, line quantity, rate and discount ranges, note length and period order. An accepted request passes through unchanged. |
| BillValidator.BackwardsPeriodReported | src/lib/validators/bill/createBillValidator.ts:46-52 | A period that ends before it starts is refused, with the refine message, under `periodEnd`. |
| Store.BillItems | src/lib/actions/bills/finalizeBillAction.ts:136-170 | The inner loop stops early exactly when some item of the challan has no line. Otherwise every item of the challan is rewritten from its line, and the running total equals `ChallanTotal`. When it stops, exactly the items rewritten before it and a walked part of this challan's items are rewritten; every other item is as it was. |
| Store.BillChallan | src/lib/actions/bills/finalizeBillAction.ts:135-183 | One pass of the outer loop. It bills the challan's items, then marks the challan billed with its total. A missing line leaves the marks untouched. It also leaves the items of the challans already billed rewritten, plus a walked part of this challan's items, and nothing else. |
| Store.BillSelected | src/lib/actions/bills/finalizeBillAction.ts:133-183 | Visiting the found challans in any order, the loop reports a mismatch exactly when the lines do not cover their items. Otherwise every item is rewritten, every challan marked billed, and the subtotal is the sum of challan totals. On a mismatch the writes so far stay: a proper subset of the challans is marked billed with its items rewritten, plus a walked part of the other selected challans' items. Items of unselected challans are untouched. |
| Store.WriteBill | src/lib/actions/bills/finalizeBillAction.ts:79-191 | Once the selection passes the re-check, the writes keep the store invariant. When the lines cover the selection, the result is `Finalised`. Otherwise it is a LINES_MISMATCH error with the tables in the `PartlyFinalised` state: the counter raised, the bill row at subtotal 0, a proper subset of the challans billed with their items, a walked part of the rest's items rewritten, and nothing outside the selection touched. |
| Store.BillTransaction | src/lib/actions/bills/finalizeBillAction.ts:52-192 | A stale selection returns STALE_SELECTION and leaves the tables alone. A covered selection finalises the bill. An uncovered one returns LINES_MISMATCH with the exact partial writes of `PartlyFinalised`. The store invariant is kept in every case. |
| Store.AtomicBillTransaction | src/lib/actions/bills/finalizeBillAction.ts:52-192 | The same transaction with LINES_MISMATCH aborting it: every error leaves the tables as they were. |
| Store.FinalizeAsWritten | src/lib/actions/bills/finalizeBillAction.ts:30-196 | The whole action on the tables, in the order the code runs. Failed validation gives the grouped field errors; a foreign business gives "Business mismatch."; then the transaction runs; a thrown error gives `BillFailed`. A missing line commits the exact partial state `PartlyFinalised`. Stated as `AsWrittenOutcome`. |
| Store.FinalizeAtomically | src/lib/actions/bills/finalizeBillAction.ts:30-196 | The same action with an atomic transaction. It has the same outcomes, except that every failure leaves the tables as they were (`AtomicOutcome`). |
| Store.Db.FinalizeBillAsWritten | src/lib/actions/bills/finalizeBillAction.ts:30-196 | On the store, the change from the old tables to the new satisfies `AsWrittenOutcome`, including the exact partial state of a missing line, and `Valid()` is kept. |
| Store.Db.FinalizeBill | src/lib/actions/bills/finalizeBillAction.ts:30-196 | On the store, the change satisfies `AtomicOutcome`, and `Valid()` is kept. |
| Store.MarkedValid | src/lib/actions/bills/finalizeBillAction.ts:175-182 | Marking challans billed to an existing bill, all of them or a prefix of the walk, keeps the store invariant. |
| Store.FinalisedValid | src/lib/actions/bills/finalizeBillAction.ts:52-192 | A finalisation, complete or stopped at a missing line, keeps the store invariant. |
| ChallanValidator.ParseChallan | src/lib/validators/challan/challanValidator.ts:19-37 | A challan form is accepted exactly when every rule holds. The accepted data keeps the ids, date and discount, trims the text fields, defaults the purpose to SALE and parses each item. |
| ChallanValidator.PurposeRoundTrip | src/lib/validators/challan/challanValidator.ts:30-32 | Every purpose is read back from its name. |
| ChallanValidator.DiscountUnbounded | src/lib/validators/challan/challanValidator.ts:13 | A line discount has no upper bound: 150 is accepted. |
| ChallanValidator.FreeTextNeedsNameAndUnit | src/lib/validators/challan/challanValidator.ts:15-17 | A line without a material id is accepted only with a name and a unit, both non-blank after trimming. |
| ChallanTotals.SubtotalsNonNegative | src/lib/actions/challans/createChallanAction.tsx:30-51 | The subtotals that creation and editing compute are sums of non-negative nets. |
| ChallanTotals.NoHeaderSameTotals | src/lib/actions/challans/updateChallanAction.tsx:12-40 | Without a header discount, creating and editing compute the same subtotal. |
| ChallanTotals.HeaderOverridesLines | src/lib/actions/challans/updateChallanAction.tsx:20 | With a header discount, editing ignores every line discount. |
| ChallanTotals.StackingVersusZeroing | src/lib/actions/challans/updateChallanAction.tsx:20-23 | One line at rate 100, quantity 1 and discount 10, under a 10% header discount. Creation stores 81 (both discounts); editing stores 90 (the header only). |
| ChallanTotals.CreatedItem | src/lib/actions/challans/createChallanAction.tsx:80-89 | An item row written by creation carries the material id, and a name only when there is no material id. Under the rule as written its unit is `CreatedUnitAsWritten`; under the intended rule it is `CreatedUnit`. Missing rate and discount are stored as 0, and the amount is the line net. |
| ChallanTotals.UpdatedItem | src/lib/actions/challans/updateChallanAction.tsx:105-116 | An item row written by an edit keeps the submitted unit, rate and discount. Its amount is the net under the edit's discount rule. |
| ChallanTotals.CreatedUnitDropped | src/lib/actions/challans/createChallanAction.tsx:83 | As written, a free-text line with unit "PCS" is stored with no unit. |
| ChallanTotals.CreatedUnitAsWritten | src/lib/actions/challans/createChallanAction.tsx:83 | As written, a non-empty unit is stored as null; no non-empty unit is ever stored. |
| ChallanTotals.CreatedUnitAlwaysDropped | src/lib/actions/challans/createChallanAction.tsx:83 | As written, every accepted free-text line is stored with no unit, although the schema required it to have one. |
| ChallanTotals.CreatedUnitKept | src/lib/actions/challans/createChallanAction.tsx:83 | With the corrected unit rule, every accepted free-text line keeps a non-empty unit. |
| ChallanActions.NewChallanShape | src/lib/actions/challans/createChallanAction.tsx:61-76 | A created challan is an unbilled outward challan of the session's business. Its stored number reads back as the issued number. A sale or job-work challan is listed among the unbilled candidates. |
| ChallanActions.CreatedRows | src/lib/actions/challans/createChallanAction.tsx:78-90 | Creation inserts one item row per validated line, in order, each tied to the new challan, under the given unit rule. |
| ChallanActions.CreatedRowsDropUnits | src/lib/actions/challans/createChallanAction.tsx:78-90 | As written, no created row has a non-empty unit, and every free-text line's row has none. |
| ChallanActions.CreatedRowsKeepUnits | src/lib/actions/challans/createChallanAction.tsx:78-90 | Under the intended rule, every free-text line's row keeps the trimmed, non-empty unit it was validated with. |
| ChallanActions.CreateCaught | src/lib/actions/challans/createChallanAction.tsx:106-120 | A unique violation is reported as a duplicate challan number. Any other error gets the generic message. |
| Store.InsertChallanKeepsValid | src/lib/actions/challans/createChallanAction.tsx:54-99 | Inserting an unbilled challan together with its business's counter keeps the store invariant. |
| Store.Db.InsertChallan | src/lib/actions/challans/createChallanAction.tsx:54-99 | The transaction's writes. The counter of the business and financial year is allocated, the header is inserted under the new id with the issued number, and the lines are inserted as the new items under the given unit rule. Nothing else changes and `Valid()` is kept. |
| Store.Db.CreateChallan | src/lib/actions/challans/createChallanAction.tsx:13-121 | The action as written. An invalid form returns its issues and writes nothing. A database error rolls every write back. Otherwise the result is Ok and the writes are those of `InsertChallan` with the as-written unit rule. |
| Store.Db.CreateChallanIntended | src/lib/actions/challans/createChallanAction.tsx:13-121 | The corrected action: the same outcomes as `CreateChallan`, with the items written under the intended unit rule. |
| ChallanActions.EditedHeader | src/lib/actions/challans/updateChallanAction.tsx:84-96 | An edit replaces the party, date, purpose and totals. An optional field overwrites the stored value only when it is given. |
| ChallanActions.EditKeepsIdentity | src/lib/actions/challans/updateChallanAction.tsx:61-96 | An edit keeps the number, the business, the billing fields and the creation time. The challan stays editable exactly when the new purpose is sale or job work. |
| ChallanActions.UpdatedRows | src/lib/actions/challans/updateChallanAction.tsx:103-118 | An edit inserts one item row per submitted line, in order, priced under the header discount. |
| ChallanActions.UpdateCaught | src/lib/actions/challans/updateChallanAction.tsx:126-150 | NOT_FOUND, LOCKED_BILLED and a unique violation each get their own message. Anything else gets the generic one. |
| ChallanActions.ForeignChallanEditable | src/lib/actions/challans/updateChallanAction.tsx:61-73 | A lookup scoped by the form's business id finds a challan of business "b2" when the form names "b2". A session of business "b1" can therefore reach it. |
| Rows.InsertSpec | src/lib/actions/challans/updateChallanAction.tsx:103-118 | Inserting rows under distinct fresh ids adds exactly those ids, each holding its row. Every other row is left as it was. |
| Rows.ReplaceItems | src/lib/actions/challans/updateChallanAction.tsx:97-118 | Deleting a challan's items and inserting new rows for it leaves the challan with exactly the new rows. Every other challan's items stay as they were. |
| Rows.DropItems | src/lib/actions/challans/updateChallanAction.tsx:97-101 | `deleteMany` removes exactly the items of the challan. |
| Rows.IdSetCard | src/lib/actions/bills/finalizeBillAction.ts:70 | A list of ids has at most as many distinct ids as entries, and exactly as many when none repeats. |
| Store.EditedItems | src/lib/actions/challans/updateChallanAction.tsx:97-118 | After an edit, the challan has exactly the new items, each priced from its line. Every other challan keeps the same item ids, and each of its rows is unchanged. |
| Store.EditKeepsValid | src/lib/actions/challans/updateChallanAction.tsx:84-96 | Replacing a header by one with the same business and billing fields keeps the store invariant. |
| Store.Db.EditChallan | src/lib/actions/challans/updateChallanAction.tsx:60-121 | A challan outside the lookup gives "Challan not found."; a billed one gives the locked message; a database error rolls back. In all three cases nothing changes. Otherwise the header and the items are replaced and `Valid()` is kept. |
| Store.Db.UpdateChallanAsWritten | src/lib/actions/challans/updateChallanAction.tsx:42-151 | As written, the lookup is scoped by the business id in the form, whatever the session's business. A challan outside it gives "Challan not found." and a billed one the locked message, with nothing changed. On success the header is rewritten and the challan's items are replaced by the submitted rows, and no other row changes. |
| Store.Db.UpdateChallan | src/lib/actions/challans/updateChallanAction.tsx:42-151 | Scoped by the session's business, a challan of another business gives "Challan not found." and a billed one the locked message, with nothing changed. On success the header is rewritten, the challan has exactly the submitted rows, and every other challan's rows are unchanged. |
| UnbilledQuery.UnbilledChallans | src/lib/actions/bills/getUnbilledChallansForPartyAction.ts:31-92 | An empty party id is refused and a query error reports its message. Otherwise every candidate appears exactly once, in date-then-creation order, each with its own row of items. |
| UnbilledQuery.CandidateIsBillable | src/lib/actions/bills/getUnbilledChallansForPartyAction.ts:40-51 | Every candidate of the list query passes the finalisation re-check. |
| UnbilledQuery.ListedChallansAreBillable | src/lib/actions/bills/getUnbilledChallansForPartyAction.ts:40-51 | Every challan the action lists passes the finalisation re-check. |
| UnbilledQuery.RowsInOrder | src/lib/actions/bills/getUnbilledChallansForPartyAction.ts:52 | Rows built from ids sorted by challan order carry those ids, in that order. |
| UnbilledQuery.ItemRowsInOrder | src/lib/actions/bills/getUnbilledChallansForPartyAction.ts:61 | A challan's item rows carry its items, oldest first. |
| Ordering.SortSet | src/lib/actions/bills/getUnbilledChallansForPartyAction.ts:52 | `orderBy` on a finite set lists every element exactly once, in ascending order of the preorder. |
| Ordering.LeastExists | src/lib/actions/bills/getUnbilledChallansForPartyAction.ts:52 | Every non-empty finite set has a least element under a total preorder. |
| PartySelect.PartiesForSelect | src/components/dashboard/bills/getPartiesForSelect.ts:28-59 | A query error reports its message. Otherwise exactly the selected parties are listed: live, of the business, active unless inactive ones are asked for, of the kinds asked for. Each appears once, with its name and kind, sorted by name. |
| PartySelect.IncludeInactiveWidens | src/components/dashboard/bills/getPartiesForSelect.ts:38 | Asking for inactive parties too only adds to the list. |
| PartySelect.EmptyKindsFilterNothing | src/components/dashboard/bills/getPartiesForSelect.ts:39 | An empty kind list filters nothing, the same as an absent one. |
| PartyDetails.ParseFilter | src/lib/actions/party/getPartyDetails.ts:153-198 | Choices default to "ALL" and `q` is trimmed. A page that reads as a number of at least 1, or as infinity, is kept; a missing, unreadable, 0 or smaller page gives 1. A page size in [10, 100] is kept; a missing, unreadable or 0 size gives 20, and other sizes are clamped to 10 or 100. |
| PartyDetails.FallbackOnZero | src/lib/actions/party/getPartyDetails.ts:183-195 | A page or page size that reads as 0 or NaN falls back to its default. |
| PartyDetails.BuildEntriesWhere | src/lib/actions/party/getPartyDetails.ts:200-230 | The conditions hold business, party and date window first. One condition follows per filter other than "ALL", then the text search when `q` is non-empty. An entry passes exactly when it meets every condition. |
| PartyDetails.TotalPages | src/lib/actions/party/getPartyDetails.ts:137 | The page count is 1 when there are no entries; otherwise it is the least count whose pages hold every entry. |
| PartyDetails.PagesCoverEntries | src/lib/actions/party/getPartyDetails.ts:75-76 | The last page starts inside the list, and every later page starts past its end. |
| PartyValidator.ParseParty | src/lib/validators/party/PartyValidator.ts:4-42 | A party form is accepted exactly when the name has at least two characters and each contact field meets its rule. The kind defaults to CUSTOMER, and the checked fields are trimmed. |
| PartyValidator.KindRoundTrip | src/lib/validators/party/PartyValidator.ts:7 | Every kind is read back from its name. |
| Validation.ParsedContactShape | src/lib/validators/party/PartyValidator.ts:9-40 | After a pass, phone is 10 digits, pincode 6 digits, PAN and GSTIN match their patterns, all trimmed, or they are blank or absent. |
| Validation.GstinHoldsPan | src/lib/utils.ts:21-32 | Characters 3 to 12 of every accepted GSTIN form an accepted PAN. |
| Validation.PatternsRejectLowerCase | src/lib/validators/party/PartyValidator.ts:15-32 | The PAN and GSTIN patterns accept no lower-case letter. |
| PartyActions.SoftDelete | src/lib/actions/party/deleteParty.ts:9-48 | A live party of the business is marked deleted by the owner at `now` and made inactive. One already deleted is Ok with nothing changed. Any other id is NOT_FOUND. A database error goes through `PrismaError` and nothing changes. |
| PartyActions.SoftDeleteIdempotent | src/lib/actions/party/deleteParty.ts:26-44 | Deleting twice leaves the table as deleting once did, and gives the same answer. |
| PartyActions.Restore | src/lib/actions/party/restoreParty.ts:8-43 | A deleted party of the business gets its deletion fields cleared and becomes active. A live one is Ok with nothing changed. Any other id is NOT_FOUND. |
| PartyActions.DeleteThenRestore | src/lib/actions/party/restoreParty.ts:18-22 | After a delete and a restore the party is live and active, whatever its earlier `isActive`. Its name, kind and contact are as before. |
| PartyActions.Toggle | src/lib/actions/party/togglePartyActive.ts:9-55 | A live party of the business has `isActive` negated. A deleted one is refused with DELETED. Any other id is NOT_FOUND. |
| PartyActions.ToggleTwice | src/lib/actions/party/togglePartyActive.ts:33-40 | Toggling twice gives back the table, and the deletion fields are never touched. |
| PartyActions.Update | src/lib/actions/party/updateParty.ts:14-81 | The form must parse and carry an id. A live party of the business gets its name (trimmed), kind and contact replaced. A deleted one is refused with DELETED; any other id is NOT_FOUND. |
| PartyActions.CreateValid | src/lib/actions/party/createParty.ts:26-83 | An owner without a business gets BUSINESS_NOT_FOUND. Otherwise the party is inserted, active, and the business is then marked onboarded. A failing second write leaves the party inserted; a failing first write changes nothing. |
| PartyActions.Create | src/lib/actions/party/createParty.ts:12-84 | Validation comes first; a failure reports the grouped field errors with VALIDATION_ERROR. Then come the writes of `CreateValid`. |
| Store.Db.SoftDeleteParty | src/lib/actions/party/deleteParty.ts:9-48 | The guarded update and the lookup have exactly the effect and result of `PartyActions.SoftDelete`. |
| Store.Db.RestoreParty | src/lib/actions/party/restoreParty.ts:8-43 | Exactly `PartyActions.Restore`. |
| Store.Db.TogglePartyActive | src/lib/actions/party/togglePartyActive.ts:9-55 | Exactly `PartyActions.Toggle`. |
| Store.Db.UpdateParty | src/lib/actions/party/updateParty.ts:14-81 | Exactly `PartyActions.Update`. |
| Store.Db.CreateParty | src/lib/actions/party/createParty.ts:12-84 | Exactly `PartyActions.Create`, on parties and businesses, keeping `Valid()`. |
| Store.Db.InsertParty | src/lib/actions/party/createParty.ts:26-83 | Exactly `PartyActions.CreateValid`, keeping `Valid()`. |
| Store.BusinessesKeepValid | src/lib/actions/party/createParty.ts:62-68 | Changing a business without changing its id keeps the counters backed. |
| MaterialValidator.ParseMaterial | src/lib/validators/material/MaterialValidator.ts:4-20 | A material form is accepted exactly when the untrimmed name has 2 to 80 characters, the unit is listed, the trimmed HSN code is empty or 4 to 20 characters, and the rate is a whole number from 0 to 28 or NaN. The name and code are passed on trimmed. |
| MaterialValidator.UnitRoundTrip | src/lib/validators/material/MaterialValidator.ts:3 | Every unit option is read back from its name. |
| MaterialValidator.BlankHsnRejected | src/lib/validators/material/MaterialValidator.ts:12-18 | An HSN code of spaces only is refused. |
| MaterialValidator.NameCheckedBeforeTrim | src/lib/validators/material/MaterialValidator.ts:6-10 | The length rule sees the untrimmed name: " a" is accepted and stored as "a". |
| MaterialActions.ParseGstRate | src/lib/actions/material/createMaterial.ts:23-27 | No rate gives 18, a finite rate is kept, and NaN or an infinity is stored as null. |
| MaterialActions.CreatedRateInRange | src/lib/actions/material/createMaterial.ts:50 | Every rate stored on creation is null or a whole percentage from 0 to 28. |
| MaterialActions.StoredHsnShape | src/lib/actions/material/createMaterial.ts:51 | A stored HSN code is 4 to 20 characters with no surrounding spaces. |
| MaterialActions.Create | src/lib/actions/material/createMaterial.ts:28-75 | A failed parse gives VALIDATION_ERROR and changes nothing. A database error gives DUPLICATE or SERVER_ERROR and changes nothing. Otherwise exactly one row is added, with the new id. |
| MaterialActions.Update | src/lib/actions/material/updateMaterial.ts:19-86 | The form must parse and carry an id. A material of the business is edited; any other id is NOT_FOUND. An absent rate keeps the stored one. |
| MaterialActions.ResubmitKeepsRow | src/lib/actions/material/updateMaterial.ts:57-65 | Saving a just-created material again with the same form changes nothing, except when the rate is NaN. Creation stores null for NaN; editing stores NaN itself. |
| MaterialActions.Toggle | src/lib/actions/material/toggleMaterialActive.ts:8-31 | A material of the business has `isActive` negated. Any other id is NOT_FOUND. |
| MaterialActions.ToggleTwice | src/lib/actions/material/toggleMaterialActive.ts:21-24 | Toggling twice gives back the table. |
| Store.Db.CreateMaterial | src/lib/actions/material/createMaterial.ts:28-75 | Exactly `MaterialActions.Create`. |
| Store.Db.UpdateMaterial | src/lib/actions/material/updateMaterial.ts:19-86 | Exactly `MaterialActions.Update`. |
| Store.Db.ToggleMaterialActive | src/lib/actions/material/toggleMaterialActive.ts:8-31 | Exactly `MaterialActions.Toggle`. |
| BusinessValidator.ParseBusiness | src/lib/validators/business/BusinessValidator.ts:3-37 | A business form is accepted exactly when the name has at least two characters and each contact field meets its rule. |
| BusinessActions.Create | src/lib/actions/business/createBusiness.ts:22-96 | An owner without a business gets one, starting at the party step. An owner with one is refused. A unique violation is reported as already existing. |
| BusinessActions.SecondCreateRefused | src/lib/actions/business/createBusiness.ts:38-50 | A second creation for the same owner is refused and changes nothing, whatever form it submits. |
| Store.Db.CreateBusiness | src/lib/actions/business/createBusiness.ts:22-96 | Exactly `BusinessActions.Create`, keeping `Valid()`. |
| Errors.PrismaError | src/lib/actions/error.ts:6-28 | The result is always a failure. P2002 maps to CONFLICT and P2025 to NOT_FOUND, in both directions; anything else maps to FAILED. Each code has its fixed message. |
| Errors.ValidationError | src/lib/utils.ts:65-73 | The result is a VALIDATION_ERROR failure with the issues grouped per field. |
| Utils.ExtractPanFromGstin | src/lib/utils.ts:18-33 | A PAN comes back exactly when the trimmed, upper-cased input is a well-formed GSTIN. It is characters 3 to 12 of that GSTIN, and an accepted PAN. |
| Utils.ExtractIgnoresNormalization | src/lib/utils.ts:21 | Extraction depends only on the normalised input: it ignores case and surrounding spaces. |
| Utils.ExtractEmpty | src/lib/utils.ts:19 | The empty input gives no PAN. |
| Utils.NormalizeEmptyStrings | src/lib/utils.ts:35-48 | The loop over the entries builds `NormalizedObject`: every key kept, strings trimmed and blank ones made `undefined`. |
| Utils.NormalizedObjectIdempotent | src/lib/utils.ts:35-48 | Normalising twice is normalising once. |
| Utils.NormalizedStringsTrimmed | src/lib/utils.ts:40-42 | No string left behind is blank or padded with spaces. |
| Utils.CollapseSpaces | src/lib/utils.ts:13 | After collapsing, every white-space character is a plain space and no two spaces are adjacent. |
| Utils.CollapseSpacesFrom | src/lib/utils.ts:13 | Collapsing introduces no character other than the plain space. |
| Utils.NormalizeNameShape | src/lib/utils.ts:10-16 | A normalised name holds only ASCII letters, spaces, apostrophes and hyphens. Every letter that starts a word is upper-case. |
| Text.TrimShape | src/lib/utils.ts:41 | `trim` gives a slice of the input that starts and ends with a non-space. |
| Text.TrimIdempotent | src/lib/utils.ts:41 | Trimming twice is trimming once. |
| Text.TrimEmptyIff | src/lib/utils.ts:42 | `trim()` gives the empty string exactly for input that is all white space. |
| Text.TrimUpperCommute | src/lib/utils.ts:21 | Upper-casing and trimming commute. |
| ChallanEmail.EscapeHtmlIsPerChar | src/lib/email/challanEmailTemplate.ts:250-257 | Because the ampersand is replaced first, the five replacements act character by character. No entity is escaped twice. |
| ChallanEmail.EscapeSingle | src/lib/email/challanEmailTemplate.ts:250-257 | On one character, the chain gives that character's entity, or the character itself. |
| ChallanEmail.EscapeHtmlSafe | src/lib/email/challanEmailTemplate.ts:250-257 | The escaped text holds none of < > " '. |
| ChallanEmail.EscapeRoundTrip | src/lib/email/challanEmailTemplate.ts:250-257 | Decoding the five entities gives back the original text. |
| ChallanEmail.EscapeFixedPoint | src/lib/email/challanEmailTemplate.ts:250-257 | Text without any of the five special characters is left as it is. |
| ChallanEmail.NoteHtml | src/lib/email/challanEmailTemplate.ts:143-148 | The note is escaped and each line break becomes `<br/>`. |
| ChallanEmail.Address | src/lib/email/challanEmailTemplate.ts:29-35 | The address line joins the non-empty parts among line 1, line 2 and "city - pincode" with ", ". It is empty exactly when all four fields are. |
| ChallanEmail.AddressExample | src/lib/email/challanEmailTemplate.ts:29-35 | Line 1 "Plot 4", an empty line 2, city "Surat" and pincode "395003" give "Plot 4, Surat - 395003". |
| ChallanEmail.MetaLeft | src/lib/email/challanEmailTemplate.ts:37-43 | One entry per given field among number, date and party, the number first and the party last; no entry has an empty value. |
| ChallanEmail.MetaRight | src/lib/email/challanEmailTemplate.ts:45-47 | The total when given, otherwise the status "Shared". |
| ChallanEmail.CompanyLine | src/lib/email/challanEmailTemplate.ts:49-55 | The company line is empty exactly when none of phone, e-mail and website is given. |
| ChallanEmail.LegalLine | src/lib/email/challanEmailTemplate.ts:57-59 | "GSTIN: " and the GSTIN when one is given, otherwise empty. |
| ChallanEmail.Title | src/lib/email/challanEmailTemplate.ts:127-131 | The title starts with "Challan " and is longer exactly when there is a challan number. |
| ChallanEmail.AddressBlock | src/lib/email/challanEmailTemplate.ts:101-105 | The address when there is one, otherwise "Challan shared from" and the company name. |
| ChallanEmail.MetaValueHtml | src/lib/email/challanEmailTemplate.ts:158-169 | A meta value is placed escaped: decoding the placed text gives back the value. |
| ChallanEmail.HeaderOf | src/lib/email/challanEmailTemplate.ts:29-118 | The header shows the company name and a non-empty address block. It has a company line exactly when a phone, e-mail or website is given, and the GSTIN line exactly when a GSTIN is given. |
| ChallanEmail.EmailBodyOf | src/lib/email/challanEmailTemplate.ts:21-247 | The body carries the header, a title "Challan " that is longer exactly when there is a number, the escaped note exactly when one is given (without raw line breaks), the meta columns, the link, and the footer's company name, with a phone exactly when one is given. |
| WhatsAppText.BuildMeta | src/lib/email/challanWhatsappTemplate.ts:25-31 | Pushing the meta lines one by one gives `MetaLines`: number, date, party and total, each only when given. |
| WhatsAppText.BuildCompanyLine | src/lib/email/challanWhatsappTemplate.ts:33-39 | The given contact parts joined by "  \|  ", or empty when there are none. |
| WhatsAppText.BuildSenderLines | src/lib/email/challanWhatsappTemplate.ts:43-46 | The header, then the company and GSTIN lines, each only when not empty. |
| WhatsAppText.BuildText | src/lib/email/challanWhatsappTemplate.ts:16-64 | The blocks are, in order: the sender lines, a spacer, the heading, the meta lines, a spacer, the optional note, the link label, the link, a spacer and the signature. They are joined with line breaks. |
| WhatsAppText.BlocksFrame | src/lib/email/challanWhatsappTemplate.ts:43-61 | The first block is the company name between asterisks. The last four are the link label, the link, an empty line and the signature. |
| WhatsAppText.NoteBeforeLink | src/lib/email/challanWhatsappTemplate.ts:52-58 | A non-blank note is placed, trimmed, just before the link label, followed by an empty line. |
| WhatsAppText.TextFrame | src/lib/email/challanWhatsappTemplate.ts:43-63 | The message text begins with the header line. It ends with a line break and the closing lines. |
| ShareValidator.ParseShare | src/lib/validators/challan/sendChallanValidator.ts:5-24 | A share form is accepted exactly when the challan id is non-empty, the phone is blank or 10 to 15 digits once spaces are removed, and the message has at most 500 characters. Phone, e-mail and message are passed on trimmed. |
| ShareAction.WhatsAppUrlRecipient | src/lib/actions/challans/shareChallanAction.ts:28-34 | With a non-empty phone, the link is "https://wa.me/" followed by the phone with no white space in it. |
| ShareAction.Subject | src/lib/actions/challans/shareChallanAction.ts:99-105 | The subject is "Challan", followed by the number part only when the challan has a number. |
| ShareAction.SubjectOfIssuedNumber | src/lib/actions/challans/shareChallanAction.ts:99-105 | A challan numbered n at creation is mailed as "Challan", the year key, "-", and n on four digits. |
| ShareAction.ShareChallan | src/lib/actions/challans/shareChallanAction.ts:36-171 | In order: a failed parse and a challan outside the owner's business are refused; a missing application URL throws. A mail is sent only in the e-mail modes, to the given address, from a configured sender. Its subject is `Subject`, its text the note and the link, and its body `EmailBodyOf` the business (`CompanyOf`) and the challan. A missing sender address gives its own message with nothing sent, and a rejected mail gives "Failed to send email. Please try again.". Success returns a WhatsApp link exactly in the WhatsApp modes, to the given phone, carrying the `Blocks` text of the business, the challan, its public page and the note. |
| ShareAction.EmailModesNeedAddress | src/lib/actions/challans/shareChallanAction.ts:84-91 | The e-mail and both modes refuse a request without an address before anything is sent. |
| ShareAction.CompanyOf | src/lib/actions/challans/shareChallanAction.ts:109-118 | The e-mail's company block takes the business's name and contact fields, with no website and no logo. |
| ShareAction.SharedMailBody | src/lib/actions/challans/shareChallanAction.ts:106-136 | A mail handed to the mailer is sent in the business's name. It shows the GSTIN line exactly when the business has a GSTIN, and the contact line exactly when it has a phone or an e-mail address. It links to the challan's public page and carries the note exactly when the user wrote one. |

## Left out

- Authentication and the session (`requireAuth`, `requireBusiness`): the owner id or the session's business id is a parameter of each action.
- Ids generated by the database, and `new Date()`: they are parameters (`newId`, `itemIds`, `now`, `today`). Fresh ids are a precondition.
- Database errors: a thrown error is a `fault` parameter. Each action fails at the point where the code would catch the error.
- Concurrency: each action runs alone. Interleavings of concurrent requests and the row locking of the counter upsert are not modelled.
- Floating point: money, quantities and rates are `real`, with no rounding. NaN is modelled only where the code handles it: the material GST rate and the page parameters.
- Dates are modelled as (year, month, position in month) in one time zone. `getFullYear`/`getMonth` in local time, `toISOString` in the unbilled list and `toLocaleDateString` in the share texts are not modelled. So is the 90-day default window of the party page: the window is a parameter.
- `encodeURIComponent`, zod's e-mail and uuid checks, `Number(...)` on query strings, and `formatINRCompact` are opaque function parameters.
- The HTML markup and styles of the e-mail: only the text-bearing parts are modelled, as the `EmailBody` record the mail carries (escaping, address, meta columns, company and legal lines, title, note, link, footer). The logo initial and the fixed prose of the template are left out.
- Sending the e-mail: the mailer's answer is the `sendFails` parameter, and the mail is returned as a value.
- getPartyDetailsAction's queries (the party lookup, the page of entries, the count, the monthly-sales SQL) and `notFound()` are not modelled. The filter parsing, the `where` clause and the pagination arithmetic are.
- `revalidatePath`, `console.log`/`console.error` and `cn`: no effect on the modelled state.
- `updatedAt` timestamps and the onboarding states other than the two the actions write (PARTIES_PENDING, COMPLETED).
- Nested `items.create` and `createMany` are modelled as one bulk insert (`Rows.Insert`), not row by row. The creation order of the new items follows the order of `itemIds`.
- Validation.DefaultMessage: where a schema gives no message of its own, every validator reports this one string. This covers the bill, challan, material, party and share schemas (`BillValidator.ParseBill`, `ChallanValidator.ParseChallan`, `MaterialValidator.ParseMaterial`, `PartyValidator.ParseParty`, `ShareValidator.ParseShare`). zod's own wording depends on the issue kind, for example "String must contain at least 1 character(s)", "Invalid uuid" or "Number must be less than or equal to 100". The models therefore state which fields fail and in what order, but not the library's exact text in `fieldErrors`. The number of messages under a field can differ too: zod files one message per failing check, so a `gstRate` of 30.5 gets one for `.int()` and one for `.max(28)`, while the models file one message per failing field rule (one for `gstRate` here).
- Text.ToUpper: `toUpperCase` is modelled on ASCII letters only. JavaScript's full Unicode case mapping is left out, so a non-ASCII letter that upper-cases to an ASCII one (ſ to S) is kept as is, as in `Utils.ExtractPanFromGstin`.
- String lengths: a Dafny string is a sequence of Unicode code points, while zod's `.min`/`.max` count UTF-16 code units. A character outside the Basic Multilingual Plane, such as an emoji, counts once here and twice there.
- PartySelect.PartiesForSelect: names are ordered by code point (`Text.StrLe`). The database collation behind `orderBy: { name: "asc" }` is not modelled.
- Store.Db.NextChallanNumber: the agreement with the next allocation is stated for a store whose counters are backed by entries. `Valid()` guarantees this, but the function does not require `Valid()`.

## Findings

| source | as written | input that shows it | evidently intended | confidence | as-written member | corrected member |
|---|---|---|---|---|---|---|
| src/lib/actions/bills/finalizeBillAction.ts:142-149 | A missing bill line is answered by *returning* a LINES_MISMATCH value from the transaction callback. The transaction commits the raised BILL counter, the bill row with subtotal 0, and the items and challans already billed. | A selection of challan "c" with item "i", submitted with a single line for item "j" (`BillSelection.MissingLineReachable`) | The mismatch aborts the transaction: no counter change, no bill row, no challan billed | not executed | Store.FinalizeAsWritten | Store.FinalizeAtomically |
| src/lib/actions/challans/createChallanAction.tsx:83 | `unit: it.unit ? null : (it.unit ?? null)` stores null for every non-empty unit, so every accepted free-text line loses its unit (`ChallanActions.CreatedRowsDropUnits`). | A free-text line "Bolt" with unit "PCS" is stored with no unit (`ChallanTotals.CreatedUnitDropped`) | The unit is kept unless a material id is given, mirroring the material name on line 82 (`ChallanActions.CreatedRowsKeepUnits`) | not executed | Store.Db.CreateChallan | Store.Db.CreateChallanIntended |
| src/lib/actions/challans/updateChallanAction.tsx:61-73 | The editable-challan lookup is scoped by `data.businessId`, a field of the submitted form, not by the session's business. | A session of business "b1" submits a form naming business "b2" and challan "c" of "b2"; the lookup finds it (`ChallanActions.ForeignChallanEditable`) | The lookup uses the session's business id, so another business's challan is not found | not executed | Store.Db.UpdateChallanAsWritten | Store.Db.UpdateChallan |
