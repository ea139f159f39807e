# Manual invoices and purchase orders — a Dafny model

This project models the server side of an accounts-payable application's
manual-invoice workflow. A user of an organisation:

- enters an invoice by hand, optionally against an APPROVED purchase order
  (PO) of their organisation;
- may then edit it, mark it paid, or delete it;
- can list the POs still waiting for an invoice, their manual invoices
  (optionally only the PAID or PENDING ones), one invoice in detail, and
  their 50 most recent invoices.

Every operation first checks that a user is signed in and, for the
organisation-scoped ones, that the user belongs to an organisation.

## Modules

- **Types**: the store's records (invoice, line item, PO, notification),
  the errors with their HTTP status, and `Db`, the whole store as one
  value. `ValidDb` states the store's integrity: ids lie below the id
  counters, every line item belongs to an existing invoice, and a PO links
  only to an invoice id already handed out.
- **Permissions**: stand-ins for the `checkAuth` / `checkOrganization`
  guards.
- **Query**: the store's `findMany`. It keeps the rows a predicate
  selects, each once, ordered by a key, largest first.
- **LineItems**: numbering the caller's line items 1..n, the subtotal
  fold, and reading an invoice's line items back in `lineNumber` order.
- **Views**: what the read operations return, and `ListsInvoices` /
  `ListsPurchaseOrders`, which say that a listing is exactly a filter,
  each row once, newest first.
- **PoInvoiceSpec**: every operation as a function from the store before
  the call to a `Step`, which holds the result and the store after it.
- **PoInvoiceOperations**: class `Store`, whose fields are the tables.
  Its methods make the writes of `createManualInvoice`,
  `updateManualInvoice`, `markInvoicePaid` and `deleteManualInvoice` one
  at a time, in the source's order. Each method is proved to return
  exactly the result, and leave exactly the store, that the matching
  `PoInvoiceSpec` function gives, and to keep `Valid()`.
- **PoInvoiceProperties**: what the workflow promises, as lemmas about
  the `PoInvoiceSpec` functions, and through the methods' contracts
  about the methods too.
- **GetInvoices**: `getUserInvoices`.

## Behaviour of the code that the model keeps as written

- The duplicate-number check only looks at the caller's own invoices, not
  at the organisation's. The source's comment speaks of the organisation.
- Update does not check a new invoice number for duplicates.
- `totalAmount` is stored as given and is never reconciled with the
  subtotal and tax.
- Create writes the link on the PO only (its `linkedInvoiceId`). The new
  invoice's own `purchaseOrderId` stays empty.
  - `getInvoiceById` reads the link back from the PO side, so it shows the
    PO under `linkedPurchaseOrder` and nothing under `purchaseOrder`
    (`CreatedInvoiceDetail`).
  - Delete loads the invoice with its line items only, so the record it
    tests carries no linked-PO reference. Deleting an invoice created
    against a PO therefore does not release the PO: the PO stays INVOICED
    (`CreateThenDeleteLeavesPoInvoiced`). The PO is sent back to APPROVED
    only for a record that carries the reference itself.
- Mark-paid does not check that the invoice was entered by hand.
- `getInvoiceById` checks authentication only, not the organisation.
- `getUserInvoices` makes its own "signed in" test: 401, no organisation
  check.

## Model

| member | source | states |
|---|---|---|
| Permissions.CheckAuth | app/src/invoice/operations/poInvoiceOperations.ts:502 | admits exactly the signed-in callers, as themselves; otherwise fails with 401 |
| Permissions.CheckOrganization | app/src/invoice/operations/poInvoiceOperations.ts:32 | admits exactly the users that belong to an organisation; otherwise fails with 403 |
| Permissions.Authorize | app/src/invoice/operations/poInvoiceOperations.ts:31-32 | admits exactly a signed-in user with an organisation; no user gives Unauthorized first |
| Query.FindManyDesc | app/src/invoice/operations/poInvoiceOperations.ts:468-485 | the result holds exactly the ids of the rows the filter keeps, each once, with non-increasing key |
| Views.FindInvoices | app/src/invoice/operations/poInvoiceOperations.ts:468-485 | returns exactly the invoices the filter keeps, each once with its stored row and line items, newest first |
| Views.FindPurchaseOrders | app/src/invoice/operations/poInvoiceOperations.ts:423-446 | returns exactly the POs the filter keeps, each once with its stored row, newest first |
| LineItems.NumberLinesEntries | app/src/invoice/operations/poInvoiceOperations.ts:113-121 | one row per entry, in input order: line number i+1, entry's description, quantity and unit price, amount = quantity × unit price, no category |
| LineItems.Subtotal | app/src/invoice/operations/poInvoiceOperations.ts:84-88 | the subtotal is never negative when no quantity or unit price is |
| LineItems.SubtotalConcat | app/src/invoice/operations/poInvoiceOperations.ts:255-258 | the subtotal of two lists put together is the sum of their subtotals, so the order the entries are added in does not change it |
| LineItems.NumberedAmountsSumToSubtotal | app/src/invoice/operations/poInvoiceOperations.ts:84-121 | the amounts of the created rows add up to the subtotal the `reduce` computes |
| LineItems.WithoutLinesOf | app/src/invoice/operations/poInvoiceOperations.ts:233-235 | removes exactly the invoice's line items and keeps every other row unchanged |
| LineItems.LineIdsOf | app/src/invoice/operations/getInvoices.ts:10-14 | the ids of exactly the invoice's line items, each once, in ascending line number |
| LineItems.LinesOf | app/src/invoice/operations/getInvoices.ts:10-14 | only rows of the invoice, every stored row of the invoice among them, in ascending line number |
| LineItems.LinesOfListsStoredRows | app/src/invoice/operations/getInvoices.ts:10-14 | row i is the stored row under the i-th id of `LineIdsOf`: each of the invoice's line items once and nothing else |
| LineItems.LinesOfFreshlyStored | app/src/invoice/operations/poInvoiceOperations.ts:113-126 | after rows are created for an invoice that had none, reading them back gives exactly the numbered input list |
| PoInvoiceSpec.CheckPurchaseOrder | app/src/invoice/operations/poInvoiceOperations.ts:60-82 | passes exactly when the PO exists, is the caller's organisation's, is APPROVED and has no invoice |
| PoInvoiceSpec.CreateGuard | app/src/invoice/operations/poInvoiceOperations.ts:31-82 | create may proceed exactly when the caller is authorised, owns no invoice with that number, and any named PO may be invoiced |
| PoInvoiceSpec.LinkPurchaseOrder | app/src/invoice/operations/poInvoiceOperations.ts:129-151 | linking a PO writes no invoice, no line item and no id counter |
| PoInvoiceSpec.Create | app/src/invoice/operations/poInvoiceOperations.ts:27-154 | a failed create leaves the store unchanged; create keeps the store's integrity |
| PoInvoiceSpec.InsertInvoiceKeepsValid | app/src/invoice/operations/poInvoiceOperations.ts:91-127 | the new invoice is stored under the fresh id, and its nested line items keep every line item owned by an existing invoice |
| PoInvoiceSpec.EditGuard | app/src/invoice/operations/poInvoiceOperations.ts:183-209 | update/delete may proceed exactly when the caller is authorised and the invoice exists, is theirs, is manual and is not paid |
| PoInvoiceSpec.Update | app/src/invoice/operations/poInvoiceOperations.ts:179-275 | a failed update leaves the store unchanged; update keeps the store's integrity |
| PoInvoiceSpec.ReplaceLinesKeepsValid | app/src/invoice/operations/poInvoiceOperations.ts:230-252 | deleting and re-creating an invoice's line items keeps the store's integrity |
| PoInvoiceSpec.MarkPaidGuard | app/src/invoice/operations/poInvoiceOperations.ts:292-313 | mark-paid may proceed exactly when the caller is authorised and the invoice exists, is theirs and is not paid (its kind is not checked) |
| PoInvoiceSpec.MarkPaid | app/src/invoice/operations/poInvoiceOperations.ts:288-340 | a failed mark-paid leaves the store unchanged; mark-paid keeps the store's integrity |
| PoInvoiceSpec.Delete | app/src/invoice/operations/poInvoiceOperations.ts:350-405 | a failed delete leaves the store unchanged; delete keeps the store's integrity |
| PoInvoiceSpec.GetApprovedPOsWithoutInvoices | app/src/invoice/operations/poInvoiceOperations.ts:415-449 | fails exactly when the guards fail; otherwise lists exactly the organisation's APPROVED POs with no invoice, newest first |
| PoInvoiceSpec.GetManualInvoices | app/src/invoice/operations/poInvoiceOperations.ts:459-488 | fails exactly when the guards fail; otherwise lists exactly the caller's manual invoices matching the payment filter, newest first, line items ascending |
| PoInvoiceSpec.PurchaseOrderOf | app/src/invoice/operations/poInvoiceOperations.ts:530-543 | a PO is returned exactly when the invoice's `purchaseOrderId` names one that exists, and it is that PO |
| PoInvoiceSpec.GetInvoiceById | app/src/invoice/operations/poInvoiceOperations.ts:498-549 | succeeds exactly for a signed-in owner of an existing invoice; otherwise 401, then 404, then 403; returns the stored invoice, its line items, the PO whose `linkedInvoiceId` names it, and the PO its own `purchaseOrderId` names |
| PoInvoiceSpec.LinkedPurchaseOrderOf | app/src/invoice/operations/poInvoiceOperations.ts:510-518 | a PO exactly when some PO's `linkedInvoiceId` names the invoice; then a stored PO that does, the lowest such id |
| PoInvoiceOperations.ScalarUpdates | app/src/invoice/operations/poInvoiceOperations.ts:212-217 | the row's scalar fields after the update: supplied non-empty strings and a defined total replace the old values |
| PoInvoiceOperations.SuppliedEntries | app/src/invoice/operations/poInvoiceOperations.ts:219-228 | the bag after the supplied due date, description and tax amount are spread over it |
| PoInvoiceOperations.Store.InsertLineItems | app/src/invoice/operations/poInvoiceOperations.ts:237-252 | the store afterwards holds the numbered rows under consecutive fresh ids, and nothing else changed |
| PoInvoiceOperations.Store.CheckCreatable | app/src/invoice/operations/poInvoiceOperations.ts:31-82 | decides create's guards as `CreateGuard` on the current tables, without writing |
| PoInvoiceOperations.Store.CreateManualInvoice | app/src/invoice/operations/poInvoiceOperations.ts:27-154 | returns and leaves exactly what `Create` gives, and keeps the store valid |
| PoInvoiceOperations.Store.CheckEditable | app/src/invoice/operations/poInvoiceOperations.ts:183-209 | decides the edit guards as `EditGuard` on the current tables, without writing |
| PoInvoiceOperations.Store.UpdateManualInvoice | app/src/invoice/operations/poInvoiceOperations.ts:179-275 | returns and leaves exactly what `Update` gives, and keeps the store valid |
| PoInvoiceOperations.Store.MarkInvoicePaid | app/src/invoice/operations/poInvoiceOperations.ts:288-340 | returns and leaves exactly what `MarkPaid` gives, and keeps the store valid |
| PoInvoiceOperations.Store.DeleteManualInvoice | app/src/invoice/operations/poInvoiceOperations.ts:350-405 | returns and leaves exactly what `Delete` gives, and keeps the store valid |
| PoInvoiceProperties.CreateFollowsGuard | app/src/invoice/operations/poInvoiceOperations.ts:31-82 | create succeeds exactly when its guard passes; otherwise it fails with the guard's error and writes nothing; a caller refused by the sign-in or organisation check gets that check's error |
| PoInvoiceProperties.CreateRejections | app/src/invoice/operations/poInvoiceOperations.ts:46-82 | create fails with the store untouched: duplicate number (400), then missing PO (404), other organisation (403), not APPROVED (400), already invoiced (400) |
| PoInvoiceProperties.DuplicateCheckIsPerUser | app/src/invoice/operations/poInvoiceOperations.ts:46-56 | another user's invoice with the same number does not stop a create |
| PoInvoiceProperties.CreateWrites | app/src/invoice/operations/poInvoiceOperations.ts:91-153 | a successful create returns the new invoice as stored, with its line items; the PO step writes no invoice or line item |
| PoInvoiceProperties.CreateStoresManualInvoice | app/src/invoice/operations/poInvoiceOperations.ts:90-127 | a fresh id holding exactly the row `ManualInvoiceFields` describes, a COMPLETED manual invoice of the caller with no file, USD, the total as given, no PO reference, subtotal and tax in `structuredData`, no payment status; no other invoice changes |
| PoInvoiceProperties.ManualInvoiceFields | app/src/invoice/operations/poInvoiceOperations.ts:91-111 | every field of the row a create writes: owner, number, date, vendor, total, USD, COMPLETED, the manual file name and type, no file, no PO reference, the creation time, and a bag holding exactly the due date, description, subtotal and tax |
| PoInvoiceProperties.CreateNumbersLineItems | app/src/invoice/operations/poInvoiceOperations.ts:84-127 | the created invoice's line items read back as the input numbered 1..n, and their amounts add up to the stored subtotal |
| PoInvoiceProperties.CreateLinksPurchaseOrder | app/src/invoice/operations/poInvoiceOperations.ts:129-151 | the named PO goes APPROVED → INVOICED and points at the new invoice, whose own PO field stays empty; the PO's creator gets one INVOICE_CREATED notice exactly when they are not the caller; no other PO changes |
| PoInvoiceProperties.CreateWithoutPurchaseOrder | app/src/invoice/operations/poInvoiceOperations.ts:129-151 | without a PO no PO and no notification changes |
| PoInvoiceProperties.UpdateFollowsGuard | app/src/invoice/operations/poInvoiceOperations.ts:183-209 | update succeeds exactly when the edit guard passes; otherwise it fails with the guard's error and writes nothing; a refused caller gets the sign-in or organisation check's error |
| PoInvoiceProperties.DeleteFollowsGuard | app/src/invoice/operations/poInvoiceOperations.ts:354-392 | delete succeeds exactly when the edit guard passes and any linked-PO reference names a stored PO; a failed guard gives its error, the only other failure is the store's refusal; nothing is written on failure |
| PoInvoiceProperties.EditRejections | app/src/invoice/operations/poInvoiceOperations.ts:192-209 | update and delete fail with the store untouched: missing (404), then not the owner (403), then not manual (400), then paid (400) |
| PoInvoiceProperties.PaidInvoicesAreFrozen | app/src/invoice/operations/poInvoiceOperations.ts:205-209 | a paid invoice can be neither updated nor deleted, and the store stays as it was |
| PoInvoiceProperties.UpdateDoesNotRecheckNumber | app/src/invoice/operations/poInvoiceOperations.ts:214 | an editable invoice takes any new non-empty number, without a duplicate check |
| PoInvoiceProperties.UpdateEffects | app/src/invoice/operations/poInvoiceOperations.ts:211-274 | returns the updated invoice as stored, with its line items; number, date and vendor change only when supplied and non-empty, the total whenever defined; the row is otherwise unchanged field for field, and every other invoice, the POs and the notifications stay; `structuredData` gains the supplied entries and keeps all others |
| PoInvoiceProperties.EditedBagEntries | app/src/invoice/operations/poInvoiceOperations.ts:219-262 | the bag holds the supplied due date, description and tax, the new subtotal when line items are given, every other old entry, and no other new key |
| PoInvoiceProperties.UpdateReplacesLineItems | app/src/invoice/operations/poInvoiceOperations.ts:230-263 | with line items, all old ones of the invoice are gone, the new list reads back numbered 1..n, other invoices' rows stay and none is added; without them no line item changes |
| PoInvoiceProperties.ReplacedLinesAreOwn | app/src/invoice/operations/poInvoiceOperations.ts:233-252 | every line item the replacement adds belongs to the edited invoice |
| PoInvoiceProperties.MarkPaidFollowsGuard | app/src/invoice/operations/poInvoiceOperations.ts:292-313 | mark-paid succeeds exactly when its guard passes; otherwise it fails with the guard's error and writes nothing; a refused caller gets the sign-in or organisation check's error |
| PoInvoiceProperties.MarkPaidRejections | app/src/invoice/operations/poInvoiceOperations.ts:297-313 | mark-paid fails with the store untouched: missing (404), then not the owner (403), then already paid (400); it succeeds in every other case |
| PoInvoiceProperties.MarkPaidEffects | app/src/invoice/operations/poInvoiceOperations.ts:315-339 | the bag gets PAID, the paid date and the given method and reference (an absent one is dropped), keeps every other entry; one unread INVOICE_PAID notice goes to the owner; nothing else changes |
| PoInvoiceProperties.MarkPaidTwiceFails | app/src/invoice/operations/poInvoiceOperations.ts:309-313 | a second mark-paid of the same invoice fails with 400 and changes nothing |
| PoInvoiceProperties.MarkPaidIgnoresMimeType | app/src/invoice/operations/poInvoiceOperations.ts:297-313 | whether mark-paid succeeds does not depend on how the invoice was entered |
| PoInvoiceProperties.PaidInvoiceCannotBeEdited | app/src/invoice/operations/poInvoiceOperations.ts:205-209 | after a mark-paid the invoice can be neither updated nor deleted |
| PoInvoiceProperties.DeleteEffects | app/src/invoice/operations/poInvoiceOperations.ts:383-404 | removes the invoice and all its line items and nothing else; only a linked-PO reference on the record sends that PO back to APPROVED with no invoice |
| PoInvoiceProperties.CreateThenDeleteLeavesPoInvoiced | app/src/invoice/operations/poInvoiceOperations.ts:383-392 | deleting an invoice created against a PO leaves that PO INVOICED; over the modelled store its link still names the deleted id |
| PoInvoiceProperties.ApprovedPOsAreExact | app/src/invoice/operations/poInvoiceOperations.ts:423-446 | a PO is listed exactly when it is the organisation's, APPROVED and without an invoice |
| PoInvoiceProperties.ManualInvoicesAreExact | app/src/invoice/operations/poInvoiceOperations.ts:468-485 | an invoice is listed exactly when it is the caller's, manual and, under a filter, has exactly that stored payment status |
| PoInvoiceProperties.CreatedInvoiceHasNoPaymentStatus | app/src/invoice/operations/poInvoiceOperations.ts:106-111 | a new invoice is listed without a filter and under neither PAID nor PENDING |
| PoInvoiceProperties.PaidInvoiceListedAsPaid | app/src/invoice/operations/poInvoiceOperations.ts:318-324 | a manual invoice marked paid is listed under the PAID filter |
| PoInvoiceProperties.GetInvoiceByIdNeedsNoOrganization | app/src/invoice/operations/poInvoiceOperations.ts:502-528 | an owner without an organisation can read an invoice that the organisation-scoped operations refuse them |
| PoInvoiceProperties.CreatedInvoiceDetail | app/src/invoice/operations/poInvoiceOperations.ts:505-548 | reading back a new invoice returns what create returned; `linkedPurchaseOrder` is the PO it was created against (none without one); `purchaseOrder` is empty |
| GetInvoices.AllUserInvoices | app/src/invoice/operations/getInvoices.ts:8-15 | exactly the caller's invoices, each once with its line items, newest first |
| GetInvoices.GetUserInvoices | app/src/invoice/operations/getInvoices.ts:3-20 | 401 exactly when no user; otherwise at most 50 of the caller's invoices as stored, distinct, newest first |
| GetInvoices.UserInvoicesAreMostRecent | app/src/invoice/operations/getInvoices.ts:15-16 | a caller's invoice missing from the page means the page is full and every invoice on it is at least as new |
| GetInvoices.UserInvoiceLinesAscending | app/src/invoice/operations/getInvoices.ts:10-14 | every returned invoice lists its own line items in ascending line number |

## Left out

- The store and the ORM. The `include` / `select` projections are left out:
  the PO's creator, expense type and line items, and the PO fields picked
  for `getInvoiceById`. A `PoView` carries the whole PO row. The store's
  uniqueness of a PO's `linkedInvoiceId` is not part of the model, so
  `LinkedPurchaseOrderOf` takes the lowest id when several POs name one
  invoice. The JSON-path
  filter is a plain predicate on the stored bag.
- PoInvoiceOperations.Store.CreateManualInvoice, UpdateManualInvoice: the
  result lists the invoice's line items in ascending line number. The
  source's `include: { lineItems: true }` leaves their order to the store.
- PoInvoiceProperties.DeleteEffects, PoInvoiceProperties.CreateThenDeleteLeavesPoInvoiced:
  the store's own action on a PO's `linkedInvoiceId` when the invoice it
  names is deleted (clear it, or refuse the delete) is not modelled. The
  schema that declares it is not part of this model. Delete writes only
  what the operation writes, so in the model a PO's `linkedInvoiceId` may
  keep naming a deleted invoice. The claim that the PO stays INVOICED does
  not depend on this.
- Ties on `createdAt` are listed in ascending id order. The store leaves
  their order unspecified.
- Amounts are exact integers. JavaScript's floating-point arithmetic is
  not modelled.
- Dates are kept as the strings the caller sent. `new Date(...)` parsing is
  not modelled, and the creation time is a parameter (`now`).
- Concurrency is left out: two callers racing on the duplicate check, or
  `Promise.all` creating line items in parallel. The line items are written
  one at a time; their order does not matter because the line number comes
  from the position.
- A failure of the store part-way through an operation is not modelled.
  Create and update are not transactional in the source. The one
  store refusal that is modelled is an update of a PO that does not exist,
  on delete: `StoreRejected`, with nothing written.
- `checkAuth` / `checkOrganization`: app/src/server/auth/permissions is not
  part of this model. They are stand-ins: no user fails with 401, a user
  without an organisation fails with 403, and neither touches the store.
- A `structuredData` that is null is modelled as the empty bag.
- Ids are natural numbers allocated by counters. The source's string ids,
  where an empty `purchaseOrderId` counts as "no PO", are not modelled.
- The per-line `propertyId`, `glAccountId` and `taxAmount` arguments are
  carried in `LineInput` but never stored, as in the source.
- The pages (`InvoicesPage`, `ManualInvoicesPage`) and the landing page are
  client-side rendering and are not modelled.
