/** What the manual-invoice workflow guarantees, stated over the step
    functions of `PoInvoiceSpec` (and so, through their contracts, over the
    methods of `PoInvoiceOperations.Store`). */
module PoInvoiceProperties {
  import opened Types
  import opened Permissions
  import opened LineItems
  import opened Views
  import opened PoInvoiceSpec

  // ---------------------------------------------------------------- create

  /** Create rejects, in this order and with the store untouched: a duplicate
      number among the caller's own invoices (400), then a named purchase
      order that is missing (404), of another organisation (403), not
      approved (400) or already invoiced (400). */
  lemma CreateRejections(db: Db, caller: Option<User>, input: CreateInput, now: int)
    requires Authorize(caller).Ok?
    ensures var r := Create(db, caller, input, now);
            var user := caller.value;
            var p := input.purchaseOrderId;
            var pos := db.purchaseOrders;
            && (r.result.Err? ==> r.db == db)
            && (HasInvoiceNumber(db.invoices, user.id, input.invoiceNumber) ==>
                  r.result == Err(DuplicateInvoiceNumber) && r.result.error.Status() == 400)
            && (!HasInvoiceNumber(db.invoices, user.id, input.invoiceNumber) && p.Some? ==>
                  && (p.value !in pos ==> r.result == Err(PurchaseOrderNotFound))
                  && (p.value in pos && Some(pos[p.value].organizationId) != user.organizationId ==>
                        r.result == Err(AccessDenied))
                  && ((p.value in pos && Some(pos[p.value].organizationId) == user.organizationId
                       && pos[p.value].status != ApprovedStatus) ==> r.result == Err(PoNotApproved))
                  && ((p.value in pos && Some(pos[p.value].organizationId) == user.organizationId
                       && pos[p.value].status == ApprovedStatus && pos[p.value].linkedInvoiceId.Some?) ==>
                        r.result == Err(PoAlreadyInvoiced)))
  {
  }

  /** Create's outcome is decided by its guard: it succeeds exactly when the
      guard passes, and otherwise fails with the guard's error and writes
      nothing; a caller the sign-in or organisation check refuses gets that
      check's error. */
  lemma CreateFollowsGuard(db: Db, caller: Option<User>, input: CreateInput, now: int)
    ensures var r := Create(db, caller, input, now);
            var g := CreateGuard(db, caller, input);
            && (r.result.Ok? <==> g.Ok?)
            && (g.Err? ==> r.result == Err(g.error) && r.db == db)
            && (Authorize(caller).Err? ==> r.result == Err(Authorize(caller).error))
  {
  }

  /** The duplicate check looks only at the caller's own invoices: another
      user's invoice with the same number does not stop a create. */
  lemma DuplicateCheckIsPerUser(db: Db, caller: Option<User>, input: CreateInput, now: int)
    requires Authorize(caller).Ok?
    requires input.purchaseOrderId.None?
    requires forall id :: id in db.invoices && db.invoices[id].invoiceNumber == input.invoiceNumber ==>
               db.invoices[id].userId != caller.value.id
    ensures Create(db, caller, input, now).result.Ok?
  {
    assert !HasInvoiceNumber(db.invoices, caller.value.id, input.invoiceNumber);
  }

  /** What a successful create returns and writes, in terms of `InsertInvoice`. */
  lemma CreateWrites(db: Db, caller: Option<User>, input: CreateInput, now: int)
    requires Create(db, caller, input, now).result.Ok?
    ensures var r := Create(db, caller, input, now);
            var stored := InsertInvoice(db, caller.value.id, input, now);
            && r.result == Ok(ViewOf(stored, db.nextInvoiceId))
            && r.db.invoices == stored.invoices
            && r.db.lineItems == stored.lineItems
  {
  }

  /** A successful create stores, under a fresh id, a COMPLETED manual invoice
      of the caller with no file, currency USD, the caller's total as given,
      no purchase-order reference, no payment status, and the subtotal of
      the line items; no other invoice changes. */
  lemma CreateStoresManualInvoice(db: Db, caller: Option<User>, input: CreateInput, now: int)
    requires ValidDb(db)
    requires Create(db, caller, input, now).result.Ok?
    ensures var r := Create(db, caller, input, now);
            var id := db.nextInvoiceId;
            var inv := r.result.value.invoice;
            && id !in db.invoices
            && r.result.value.id == id
            && r.db.invoices == db.invoices[id := inv]
            && inv == NewManualInvoice(caller.value.id, input, now)
            && inv.userId == caller.value.id
            && inv.invoiceNumber == input.invoiceNumber
            && inv.status == CompletedStatus
            && inv.mimeType == ManualMimeType
            && inv.fileSize == 0 && inv.fileUrl == ""
            && inv.currency == Usd
            && inv.totalAmount == input.totalAmount
            && inv.purchaseOrderId.None?
            && inv.linkedPurchaseOrder.None?
            && inv.structuredData["subtotal"] == JNum(Subtotal(input.lineItems))
            && inv.structuredData["taxAmount"] == JNum(input.taxAmount)
            && "paymentStatus" !in inv.structuredData
  {
    var id := db.nextInvoiceId;
    CreateWrites(db, caller, input, now);
    var stored := InsertInvoice(db, caller.value.id, input, now);
    assert stored.invoices[id] == NewManualInvoice(caller.value.id, input, now);
    ManualInvoiceFields(caller.value.id, input, now);
  }

  /** The row a create writes, field by field. */
  lemma ManualInvoiceFields(userId: UserId, input: CreateInput, now: int)
    ensures var inv := NewManualInvoice(userId, input, now);
            && inv.userId == userId
            && inv.invoiceNumber == input.invoiceNumber
            && inv.invoiceDate == input.invoiceDate
            && inv.vendorName == input.vendor
            && inv.fileName == "Manual Invoice " + input.invoiceNumber
            && inv.createdAt == now
            && inv.status == CompletedStatus
            && inv.mimeType == ManualMimeType
            && inv.fileSize == 0 && inv.fileUrl == ""
            && inv.currency == Usd
            && inv.totalAmount == input.totalAmount
            && inv.purchaseOrderId.None?
            && inv.linkedPurchaseOrder.None?
            && inv.structuredData.Keys == {"dueDate", "description", "subtotal", "taxAmount"}
            && inv.structuredData["dueDate"] == JStr(input.dueDate)
            && inv.structuredData["description"] == JStr(input.description)
            && inv.structuredData["subtotal"] == JNum(Subtotal(input.lineItems))
            && inv.structuredData["taxAmount"] == JNum(input.taxAmount)
            && "paymentStatus" !in inv.structuredData
  {
  }

  /** The line items of a successful create read back as the input list
      numbered 1..n (see `LineItems.NumberLinesEntries` for what each row
      holds), and add up to the subtotal stored with the invoice. */
  lemma CreateNumbersLineItems(db: Db, caller: Option<User>, input: CreateInput, now: int)
    requires ValidDb(db)
    requires Create(db, caller, input, now).result.Ok?
    ensures var r := Create(db, caller, input, now);
            var id := db.nextInvoiceId;
            var lines := r.result.value.lineItems;
            && lines == LinesOf(r.db.lineItems, id)
            && lines == NumberLines(id, input.lineItems)
            && SumAmounts(lines) == Subtotal(input.lineItems)
  {
    var id := db.nextInvoiceId;
    CreateWrites(db, caller, input, now);
    assert forall k :: k in db.lineItems ==> db.lineItems[k].invoiceId != id;
    LinesOfFreshlyStored(db.lineItems, id, input.lineItems, db.nextLineItemId);
    NumberedAmountsSumToSubtotal(id, input.lineItems);
  }

  /** A create that names a purchase order moves it from APPROVED to INVOICED
      and points it at the new invoice; the new invoice itself carries no
      reference back. Its creator gets exactly one INVOICE_CREATED
      notification, unless the creator is the caller; no other purchase
      order changes. */
  lemma CreateLinksPurchaseOrder(db: Db, caller: Option<User>, input: CreateInput, now: int)
    requires Create(db, caller, input, now).result.Ok?
    requires input.purchaseOrderId.Some?
    ensures var r := Create(db, caller, input, now);
            var p := input.purchaseOrderId.value;
            var id := db.nextInvoiceId;
            && p in db.purchaseOrders && p in r.db.purchaseOrders
            && db.purchaseOrders[p].status == ApprovedStatus
            && db.purchaseOrders[p].linkedInvoiceId.None?
            && r.db.purchaseOrders[p].status == InvoicedStatus
            && r.db.purchaseOrders[p].linkedInvoiceId == Some(id)
            && r.db.invoices[id].purchaseOrderId.None?
            && (forall q :: q in db.purchaseOrders && q != p ==> q in r.db.purchaseOrders && r.db.purchaseOrders[q] == db.purchaseOrders[q])
            && r.db.purchaseOrders.Keys == db.purchaseOrders.Keys
            && r.db.notifications ==
                 db.notifications +
                 (if db.purchaseOrders[p].createdById != caller.value.id
                  then [InvoiceCreatedNotice(db.purchaseOrders[p], input.invoiceNumber)]
                  else [])
  {
  }

  /** A create without a purchase order touches no purchase order and sends no notification. */
  lemma CreateWithoutPurchaseOrder(db: Db, caller: Option<User>, input: CreateInput, now: int)
    requires input.purchaseOrderId.None?
    ensures var r := Create(db, caller, input, now);
            r.db.purchaseOrders == db.purchaseOrders && r.db.notifications == db.notifications
  {
  }

  // ---------------------------------------------------------------- edit guards

  /** Update and delete reject, in this order and with the store untouched: a
      missing invoice (404), another user's invoice (403), an invoice that
      was not entered by hand (400), a paid invoice (400). */
  lemma EditRejections(db: Db, caller: Option<User>, input: UpdateInput)
    requires Authorize(caller).Ok?
    ensures var u := Update(db, caller, input);
            var d := Delete(db, caller, input.id);
            var id := input.id;
            var user := caller.value;
            && (u.result.Err? ==> u.db == db)
            && (d.result.Err? ==> d.db == db)
            && (id !in db.invoices ==>
                  u.result == Err(InvoiceNotFound) && d.result == Err(InvoiceNotFound))
            && (id in db.invoices && db.invoices[id].userId != user.id ==>
                  u.result == Err(AccessDenied) && d.result == Err(AccessDenied))
            && ((id in db.invoices && db.invoices[id].userId == user.id
                 && db.invoices[id].mimeType != ManualMimeType) ==>
                  u.result == Err(NotManual) && d.result == Err(NotManual))
            && ((id in db.invoices && db.invoices[id].userId == user.id
                 && db.invoices[id].mimeType == ManualMimeType
                 && IsPaid(db.invoices[id].structuredData)) ==>
                  u.result == Err(AlreadyPaid) && d.result == Err(AlreadyPaid))
  {
  }

  /** Update's outcome is decided by the edit guard: it succeeds exactly when
      the guard passes, and otherwise fails with the guard's error and writes
      nothing; a caller the sign-in or organisation check refuses gets that
      check's error. */
  lemma UpdateFollowsGuard(db: Db, caller: Option<User>, input: UpdateInput)
    ensures var r := Update(db, caller, input);
            var g := EditGuard(db, caller, input.id);
            && (r.result.Ok? <==> g.Ok?)
            && (g.Err? ==> r.result == Err(g.error) && r.db == db)
            && (Authorize(caller).Err? ==> r.result == Err(Authorize(caller).error))
  {
  }

  /** Delete's outcome is decided by the edit guard, with one more failure
      once the guard has passed: a linked-PO reference naming a purchase
      order the store does not hold, which the store refuses. A refused
      caller gets the sign-in or organisation check's error. */
  lemma DeleteFollowsGuard(db: Db, caller: Option<User>, id: InvoiceId)
    ensures var r := Delete(db, caller, id);
            var g := EditGuard(db, caller, id);
            && (r.result.Ok? <==>
                  g.Ok? && (db.invoices[id].linkedPurchaseOrder.Some? ==>
                              db.invoices[id].linkedPurchaseOrder.value in db.purchaseOrders))
            && (g.Err? ==> r.result == Err(g.error) && r.db == db)
            && (g.Ok? && r.result.Err? ==> r.result == Err(StoreRejected) && r.db == db)
            && (Authorize(caller).Err? ==> r.result == Err(Authorize(caller).error))
  {
  }

  /** A paid invoice can be neither edited nor deleted, by anyone. */
  lemma PaidInvoicesAreFrozen(db: Db, caller: Option<User>, input: UpdateInput)
    requires input.id in db.invoices && IsPaid(db.invoices[input.id].structuredData)
    ensures Update(db, caller, input).result.Err? && Update(db, caller, input).db == db
    ensures Delete(db, caller, input.id).result.Err? && Delete(db, caller, input.id).db == db
  {
  }

  // ---------------------------------------------------------------- update

  /** Update checks nothing beyond the edit guard: in particular a new
      `invoiceNumber` is not checked against the caller's other invoices. */
  lemma UpdateDoesNotRecheckNumber(db: Db, caller: Option<User>, input: UpdateInput)
    requires Authorize(caller).Ok? && Editable(db, caller.value, input.id)
    requires Truthy(input.invoiceNumber)
    ensures var r := Update(db, caller, input);
            && r.result.Ok?
            && r.db.invoices[input.id].invoiceNumber == input.invoiceNumber.value
  {
  }

  /** What an update changes in the invoice row: the scalar fields only when
      supplied (strings only when non-empty), the `structuredData` entries
      it names and nothing else, and none of the other rows. */
  lemma UpdateEffects(db: Db, caller: Option<User>, input: UpdateInput)
    requires Update(db, caller, input).result.Ok?
    ensures var r := Update(db, caller, input);
            var id := input.id;
            var before := db.invoices[id];
            var after := r.db.invoices[id];
            && id in db.invoices && id in r.db.invoices
            && r.result.value == ViewOf(r.db, id)
            && r.db.invoices.Keys == db.invoices.Keys
            && (forall j :: j in db.invoices && j != id ==> r.db.invoices[j] == db.invoices[j])
            && (Truthy(input.invoiceNumber) ==> after.invoiceNumber == input.invoiceNumber.value)
            && (!Truthy(input.invoiceNumber) ==> after.invoiceNumber == before.invoiceNumber)
            && (Truthy(input.vendor) ==> after.vendorName == input.vendor.value)
            && (!Truthy(input.vendor) ==> after.vendorName == before.vendorName)
            && (Truthy(input.invoiceDate) ==> after.invoiceDate == input.invoiceDate.value)
            && (!Truthy(input.invoiceDate) ==> after.invoiceDate == before.invoiceDate)
            && (input.totalAmount.Some? ==> after.totalAmount == input.totalAmount.value)
            && (input.totalAmount.None? ==> after.totalAmount == before.totalAmount)
            && after == before.(invoiceNumber := after.invoiceNumber, invoiceDate := after.invoiceDate,
                                vendorName := after.vendorName, totalAmount := after.totalAmount,
                                structuredData := after.structuredData)
            && (Truthy(input.dueDate) ==> after.structuredData["dueDate"] == JStr(input.dueDate.value))
            && (Truthy(input.description) ==> after.structuredData["description"] == JStr(input.description.value))
            && (input.taxAmount.Some? ==> after.structuredData["taxAmount"] == JNum(input.taxAmount.value))
            && (input.lineItems.Some? ==> after.structuredData["subtotal"] == JNum(Subtotal(input.lineItems.value)))
            && (forall key :: key in before.structuredData && key !in UpdatedKeys(input) ==>
                  key in after.structuredData && after.structuredData[key] == before.structuredData[key])
            && (forall key :: key in after.structuredData ==> key in before.structuredData || key in UpdatedKeys(input))
            && r.db.purchaseOrders == db.purchaseOrders
            && r.db.notifications == db.notifications
  {
    EditedBagEntries(db.invoices[input.id].structuredData, input);
  }

  /** The entries an update writes into `structuredData`, and that it keeps
      every other entry and adds none. */
  lemma EditedBagEntries(bag: Bag, input: UpdateInput)
    ensures var after := EditedBag(bag, input);
            && (Truthy(input.dueDate) ==> after["dueDate"] == JStr(input.dueDate.value))
            && (Truthy(input.description) ==> after["description"] == JStr(input.description.value))
            && (input.taxAmount.Some? ==> after["taxAmount"] == JNum(input.taxAmount.value))
            && (input.lineItems.Some? ==> after["subtotal"] == JNum(Subtotal(input.lineItems.value)))
            && (forall key :: key in bag && key !in UpdatedKeys(input) ==> key in after && after[key] == bag[key])
            && (forall key :: key in after ==> key in bag || key in UpdatedKeys(input))
  {
  }

  /** The `structuredData` keys an update writes. */
  function UpdatedKeys(input: UpdateInput): (keys: set<string>)
    ensures keys <= {"dueDate", "description", "taxAmount", "subtotal"}
    ensures "subtotal" in keys <==> input.lineItems.Some?
  {
    (if Truthy(input.dueDate) then {"dueDate"} else {})
    + (if Truthy(input.description) then {"description"} else {})
    + (if input.taxAmount.Some? then {"taxAmount"} else {})
    + (if input.lineItems.Some? then {"subtotal"} else {})
  }

  /** An update that supplies line items removes all of the invoice's old
      ones and reads back exactly the new list numbered 1..n; the line items
      of every other invoice stay as they were. Without line items the line
      items are untouched. */
  lemma UpdateReplacesLineItems(db: Db, caller: Option<User>, input: UpdateInput)
    requires ValidDb(db)
    requires Update(db, caller, input).result.Ok?
    ensures var r := Update(db, caller, input);
            var id := input.id;
            && (input.lineItems.Some? ==>
                  && r.result.value.lineItems == NumberLines(id, input.lineItems.value)
                  && LinesOf(r.db.lineItems, id) == NumberLines(id, input.lineItems.value)
                  && (forall k :: k in db.lineItems && db.lineItems[k].invoiceId == id ==> k !in r.db.lineItems)
                  && (forall k :: k in db.lineItems && db.lineItems[k].invoiceId != id ==>
                        k in r.db.lineItems && r.db.lineItems[k] == db.lineItems[k])
                  && (forall k :: k in r.db.lineItems && r.db.lineItems[k].invoiceId != id ==>
                        k in db.lineItems))
            && (input.lineItems.None? ==> r.db.lineItems == db.lineItems)
  {
    if input.lineItems.Some? {
      var id := input.id;
      var kept := WithoutLinesOf(db.lineItems, id);
      var items := input.lineItems.value;
      LinesOfFreshlyStored(kept, id, items, db.nextLineItemId);
      forall k | k in db.lineItems && db.lineItems[k].invoiceId == id ensures k !in Update(db, caller, input).db.lineItems {
        assert k < db.nextLineItemId;
      }
      assert Update(db, caller, input).db.lineItems == ReplaceLines(db, id, items).lineItems;
      ReplacedLinesAreOwn(db, id, items);
    }
  }

  /** Replacing an invoice's line items adds rows of that invoice only. */
  lemma ReplacedLinesAreOwn(db: Db, id: InvoiceId, items: seq<LineInput>)
    ensures var after := ReplaceLines(db, id, items).lineItems;
            forall k :: k in after && after[k].invoiceId != id ==> k in db.lineItems
  {
    var kept := WithoutLinesOf(db.lineItems, id);
    var after := ReplaceLines(db, id, items).lineItems;
    forall k | k in after && k !in kept ensures after[k].invoiceId == id {
      PlacedAt(kept, NumberLines(id, items), db.nextLineItemId, k - db.nextLineItemId);
    }
  }

  // ---------------------------------------------------------------- mark paid

  /** Mark-paid rejects, in this order and with the store untouched: a
      missing invoice (404), another user's invoice (403), an invoice already
      paid (400). It does not look at how the invoice was entered. */
  lemma MarkPaidRejections(db: Db, caller: Option<User>, input: MarkPaidInput)
    requires Authorize(caller).Ok?
    ensures var r := MarkPaid(db, caller, input);
            var id := input.id;
            && (r.result.Err? ==> r.db == db)
            && (id !in db.invoices ==> r.result == Err(InvoiceNotFound))
            && (id in db.invoices && db.invoices[id].userId != caller.value.id ==> r.result == Err(AccessDenied))
            && ((id in db.invoices && db.invoices[id].userId == caller.value.id
                 && IsPaid(db.invoices[id].structuredData)) ==> r.result == Err(AlreadyPaid))
            && ((id in db.invoices && db.invoices[id].userId == caller.value.id
                 && !IsPaid(db.invoices[id].structuredData)) ==> r.result.Ok?)
  {
  }

  /** Mark-paid's outcome is decided by its guard: it succeeds exactly when
      the guard passes, and otherwise fails with the guard's error and writes
      nothing; a caller the sign-in or organisation check refuses gets that
      check's error. */
  lemma MarkPaidFollowsGuard(db: Db, caller: Option<User>, input: MarkPaidInput)
    ensures var r := MarkPaid(db, caller, input);
            var g := MarkPaidGuard(db, caller, input.id);
            && (r.result.Ok? <==> g.Ok?)
            && (g.Err? ==> r.result == Err(g.error) && r.db == db)
            && (Authorize(caller).Err? ==> r.result == Err(Authorize(caller).error))
  {
  }

  /** A successful mark-paid records the payment in `structuredData` and keeps
      every other entry, changes nothing else in the store, and appends one
      INVOICE_PAID notification addressed to the invoice's owner. */
  lemma MarkPaidEffects(db: Db, caller: Option<User>, input: MarkPaidInput)
    requires MarkPaid(db, caller, input).result.Ok?
    ensures var r := MarkPaid(db, caller, input);
            var id := input.id;
            var before := db.invoices[id];
            var bag := r.result.value.structuredData;
            && id in db.invoices
            && r.db.invoices == db.invoices[id := r.result.value]
            && r.result.value == before.(structuredData := bag)
            && IsPaid(bag)
            && bag["paidDate"] == JStr(input.paidDate)
            && ("paymentMethod" in bag <==> input.paymentMethod.Some?)
            && (input.paymentMethod.Some? ==> bag["paymentMethod"] == JStr(input.paymentMethod.value))
            && ("paymentReference" in bag <==> input.paymentReference.Some?)
            && (input.paymentReference.Some? ==> bag["paymentReference"] == JStr(input.paymentReference.value))
            && (forall key :: key in before.structuredData && key !in PaymentKeys ==>
                  key in bag && bag[key] == before.structuredData[key])
            && (forall key :: key in bag ==> key in before.structuredData || key in PaymentKeys)
            && r.db.lineItems == db.lineItems
            && r.db.purchaseOrders == db.purchaseOrders
            && |r.db.notifications| == |db.notifications| + 1
            && r.db.notifications[..|db.notifications|] == db.notifications
            && r.db.notifications[|db.notifications|].userId == before.userId
            && r.db.notifications[|db.notifications|].kind == "INVOICE_PAID"
            && !r.db.notifications[|db.notifications|].read
  {
    var r := MarkPaid(db, caller, input);
    assert r.db.notifications[..|db.notifications|] == db.notifications;
  }

  /** The `structuredData` keys a mark-paid writes or drops. */
  const PaymentKeys: set<string> := {"paymentStatus", "paidDate", "paymentMethod", "paymentReference"}

  /** Marking an invoice paid a second time always fails, whatever the
      arguments, and leaves the store as the first call left it. */
  lemma MarkPaidTwiceFails(db: Db, caller: Option<User>, first: MarkPaidInput, second: MarkPaidInput)
    requires MarkPaid(db, caller, first).result.Ok?
    requires second.id == first.id
    ensures var after := MarkPaid(db, caller, first).db;
            MarkPaid(after, caller, second) == Step(Err(AlreadyPaid), after)
  {
  }

  /** Mark-paid accepts invoices that were not entered by hand. */
  lemma MarkPaidIgnoresMimeType(db: Db, caller: Option<User>, input: MarkPaidInput, mimeType: string)
    requires input.id in db.invoices
    ensures var other := db.(invoices := db.invoices[input.id := db.invoices[input.id].(mimeType := mimeType)]);
            MarkPaid(db, caller, input).result.Ok? <==> MarkPaid(other, caller, input).result.Ok?
  {
  }

  /** Once marked paid, a manual invoice can no longer be updated or deleted. */
  lemma PaidInvoiceCannotBeEdited(db: Db, caller: Option<User>, input: MarkPaidInput, edit: UpdateInput)
    requires MarkPaid(db, caller, input).result.Ok?
    requires edit.id == input.id
    ensures var after := MarkPaid(db, caller, input).db;
            && Update(after, caller, edit).result.Err?
            && Delete(after, caller, input.id).result.Err?
  {
    var after := MarkPaid(db, caller, input).db;
    PaidInvoicesAreFrozen(after, caller, edit);
  }

  // ---------------------------------------------------------------- delete

  /** A successful delete removes the invoice and all of its line items and
      nothing else; only when the stored record carries a linked-PO
      reference is that purchase order returned to APPROVED with no invoice. */
  lemma DeleteEffects(db: Db, caller: Option<User>, id: InvoiceId)
    requires Delete(db, caller, id).result.Ok?
    ensures var r := Delete(db, caller, id);
            var link := db.invoices[id].linkedPurchaseOrder;
            && id in db.invoices
            && r.result == Ok(true)
            && r.db.invoices == db.invoices - {id}
            && (forall k :: k in r.db.lineItems ==> r.db.lineItems[k].invoiceId != id)
            && (forall k :: k in db.lineItems && db.lineItems[k].invoiceId != id ==>
                  k in r.db.lineItems && r.db.lineItems[k] == db.lineItems[k])
            && r.db.lineItems.Keys <= db.lineItems.Keys
            && LinesOf(r.db.lineItems, id) == []
            && (link.None? ==> r.db.purchaseOrders == db.purchaseOrders)
            && (link.Some? ==>
                  && link.value in db.purchaseOrders
                  && r.db.purchaseOrders == db.purchaseOrders[link.value :=
                       db.purchaseOrders[link.value].(status := ApprovedStatus, linkedInvoiceId := None)])
            && r.db.notifications == db.notifications
  {
  }

  /** Create never fills in the invoice's linked-PO reference, so deleting an
      invoice that was created against a purchase order leaves that order
      INVOICED and pointing at an invoice that no longer exists. */
  lemma CreateThenDeleteLeavesPoInvoiced(db: Db, caller: Option<User>, input: CreateInput, now: int)
    requires ValidDb(db)
    requires Create(db, caller, input, now).result.Ok?
    requires input.purchaseOrderId.Some?
    ensures var created := Create(db, caller, input, now);
            var id := db.nextInvoiceId;
            var deleted := Delete(created.db, caller, id);
            var p := input.purchaseOrderId.value;
            && deleted.result == Ok(true)
            && id !in deleted.db.invoices
            && p in deleted.db.purchaseOrders
            && deleted.db.purchaseOrders[p].status == InvoicedStatus
            && deleted.db.purchaseOrders[p].linkedInvoiceId == Some(id)
  {
    CreateStoresManualInvoice(db, caller, input, now);
    CreateLinksPurchaseOrder(db, caller, input, now);
  }

  // ---------------------------------------------------------------- queries

  /** The approved-PO list holds exactly the caller's organisation's approved
      purchase orders that have no invoice yet. */
  lemma ApprovedPOsAreExact(db: Db, caller: Option<User>, p: PoId)
    requires GetApprovedPOsWithoutInvoices(db, caller).Ok?
    ensures var list := GetApprovedPOsWithoutInvoices(db, caller).value;
            var org := caller.value.organizationId.value;
            (exists i :: 0 <= i < |list| && list[i].id == p) <==>
              p in db.purchaseOrders
              && db.purchaseOrders[p].organizationId == org
              && db.purchaseOrders[p].status == ApprovedStatus
              && db.purchaseOrders[p].linkedInvoiceId.None?
  {
    var list := GetApprovedPOsWithoutInvoices(db, caller).value;
    var org := caller.value.organizationId.value;
    if exists i :: 0 <= i < |list| && list[i].id == p {
      var i :| 0 <= i < |list| && list[i].id == p;
      assert IsAvailablePo(org)(list[i].purchaseOrder);
    } else {
      assert !(p in db.purchaseOrders && IsAvailablePo(org)(db.purchaseOrders[p]));
    }
  }

  /** The manual-invoice list holds exactly the caller's manual invoices
      (with the given payment status, when one is given). */
  lemma ManualInvoicesAreExact(db: Db, caller: Option<User>, filter: Option<PaymentFilter>, id: InvoiceId)
    requires GetManualInvoices(db, caller, filter).Ok?
    ensures var list := GetManualInvoices(db, caller, filter).value;
            (exists i :: 0 <= i < |list| && list[i].id == id) <==>
              id in db.invoices && ListedAsManual(db.invoices[id], caller.value.id, filter)
  {
    var list := GetManualInvoices(db, caller, filter).value;
    var keep := IsListedAsManual(caller.value.id, filter);
    if exists i :: 0 <= i < |list| && list[i].id == id {
      var i :| 0 <= i < |list| && list[i].id == id;
      assert keep(list[i].invoice);
    } else {
      assert !(id in db.invoices && keep(db.invoices[id]));
    }
  }

  /** A freshly created invoice has no `paymentStatus`, so it is listed when
      no filter is given but under neither the PAID nor the PENDING filter. */
  lemma CreatedInvoiceHasNoPaymentStatus(db: Db, caller: Option<User>, input: CreateInput, now: int)
    requires Create(db, caller, input, now).result.Ok?
    ensures var r := Create(db, caller, input, now);
            var inv := r.db.invoices[db.nextInvoiceId];
            && ListedAsManual(inv, caller.value.id, None)
            && !ListedAsManual(inv, caller.value.id, Some(Paid))
            && !ListedAsManual(inv, caller.value.id, Some(Pending))
  {
    CreateWrites(db, caller, input, now);
  }

  /** A manual invoice marked paid is listed under the PAID filter. */
  lemma PaidInvoiceListedAsPaid(db: Db, caller: Option<User>, input: MarkPaidInput)
    requires MarkPaid(db, caller, input).result.Ok?
    requires db.invoices[input.id].mimeType == ManualMimeType
    ensures var after := MarkPaid(db, caller, input).db;
            ListedAsManual(after.invoices[input.id], caller.value.id, Some(Paid))
  {
  }

  /** Reading one invoice needs authentication and ownership but no
      organisation, and its `purchaseOrder` is the order named by the
      invoice's own `purchaseOrderId`. */
  lemma GetInvoiceByIdNeedsNoOrganization(db: Db, user: User, id: InvoiceId)
    requires user.organizationId.None?
    requires id in db.invoices && db.invoices[id].userId == user.id
    ensures GetInvoiceById(db, Some(user), id).Ok?
    ensures Authorize(Some(user)) == Err(NoOrganization)
  {
  }

  /** Reading back an invoice just created: the stored view create returned;
      under `linkedPurchaseOrder` the purchase order it was created against
      (the link lives on the purchase order), and none without one; and
      under `purchaseOrder` nothing, since create does not fill in the
      invoice's own `purchaseOrderId`. */
  lemma CreatedInvoiceDetail(db: Db, caller: Option<User>, input: CreateInput, now: int)
    requires ValidDb(db)
    requires Create(db, caller, input, now).result.Ok?
    ensures var r := Create(db, caller, input, now);
            var detail := GetInvoiceById(r.db, caller, db.nextInvoiceId);
            var p := input.purchaseOrderId;
            && detail.Ok?
            && detail.value.invoice == r.result.value
            && detail.value.purchaseOrder.None?
            && (p.Some? ==> p.value in r.db.purchaseOrders
                            && detail.value.linkedPurchaseOrder == Some(PoView(p.value, r.db.purchaseOrders[p.value])))
            && (p.None? ==> detail.value.linkedPurchaseOrder.None?)
  {
    var id := db.nextInvoiceId;
    var r := Create(db, caller, input, now);
    CreateStoresManualInvoice(db, caller, input, now);
    if input.purchaseOrderId.Some? {
      CreateLinksPurchaseOrder(db, caller, input, now);
      var p := input.purchaseOrderId.value;
      assert r.db.purchaseOrders[p].linkedInvoiceId == Some(id);
      forall q | q in r.db.purchaseOrders && r.db.purchaseOrders[q].linkedInvoiceId == Some(id) ensures q == p {
      }
    } else {
      CreateWithoutPurchaseOrder(db, caller, input, now);
      forall q | q in r.db.purchaseOrders ensures r.db.purchaseOrders[q].linkedInvoiceId != Some(id) {
        assert r.db.purchaseOrders[q] == db.purchaseOrders[q];
      }
    }
  }
}
