/** The store-mutating server operations of the manual-invoice workflow. The
    store is one object whose tables the operations rewrite in the order the
    source writes them; each method is proved to leave exactly the store, and
    return exactly the result, that `PoInvoiceSpec` describes. */
module PoInvoiceOperations {
  import opened Types
  import opened Permissions
  import opened LineItems
  import opened Views
  import opened PoInvoiceSpec

  /** Writing the next numbered row under the next id extends the placed rows by one. */
  lemma StorePlaced(before: map<LineItemId, LineItem>, lines: seq<LineItem>, base: nat, i: nat)
    requires i < |lines|
    ensures (before + Placed(lines[..i], base))[base + i := lines[i]] == before + Placed(lines[..i + 1], base)
  {
    PlacedExtend(lines, base, i);
    var placed := Placed(lines[..i], base);
    assert (before + placed)[base + i := lines[i]] == before + placed[base + i := lines[i]];
  }

  /** The scalar fields of `updatedData`: each supplied string that is not
      empty, and the total whenever it is defined. */
  method ScalarUpdates(invoice: Invoice, input: UpdateInput) returns (updated: Invoice)
    ensures updated == EditedInvoice(invoice, input).(structuredData := invoice.structuredData)
  {
    updated := invoice;
    if Truthy(input.invoiceNumber) {
      updated := updated.(invoiceNumber := input.invoiceNumber.value);
    }
    if Truthy(input.invoiceDate) {
      updated := updated.(invoiceDate := input.invoiceDate.value);
    }
    if Truthy(input.vendor) {
      updated := updated.(vendorName := input.vendor.value);
    }
    if input.totalAmount.Some? {
      updated := updated.(totalAmount := input.totalAmount.value);
    }
  }

  /** The first stage of the new `structuredData`: the current bag with the
      supplied due date, description and tax amount spread over it. */
  method SuppliedEntries(bag: Bag, input: UpdateInput) returns (result: Bag)
    ensures result == EditedBag(bag, input.(lineItems := None))
  {
    result := bag;
    if Truthy(input.dueDate) || Truthy(input.description) || input.taxAmount.Some? {
      if Truthy(input.dueDate) {
        result := result["dueDate" := JStr(input.dueDate.value)];
      }
      if Truthy(input.description) {
        result := result["description" := JStr(input.description.value)];
      }
      if input.taxAmount.Some? {
        result := result["taxAmount" := JNum(input.taxAmount.value)];
      }
    }
  }

  class Store {
    var invoices: map<InvoiceId, Invoice>
    var lineItems: map<LineItemId, LineItem>
    var purchaseOrders: map<PoId, PurchaseOrder>
    var notifications: seq<Notification>
    var nextInvoiceId: InvoiceId
    var nextLineItemId: LineItemId

    /** The tables as one value. */
    function Snapshot(): Db
      reads this
    {
      Db(invoices, lineItems, purchaseOrders, notifications, nextInvoiceId, nextLineItemId)
    }

    predicate Valid()
      reads this
    {
      ValidDb(Snapshot())
    }

    constructor (db: Db)
      requires ValidDb(db)
      ensures Snapshot() == db && Valid()
    {
      invoices := db.invoices;
      lineItems := db.lineItems;
      purchaseOrders := db.purchaseOrders;
      notifications := db.notifications;
      nextInvoiceId := db.nextInvoiceId;
      nextLineItemId := db.nextLineItemId;
    }

    /** Creates one line item per entry of `items`, numbered from 1, each
        under the next free line-item id. */
    method InsertLineItems(invoiceId: InvoiceId, items: seq<LineInput>)
      modifies this
      ensures Snapshot() == AddLines(old(Snapshot()), invoiceId, items)
    {
      var lines := NumberLines(invoiceId, items);
      var base := nextLineItemId;
      var i := 0;
      while i < |items|
        invariant 0 <= i <= |items|
        invariant nextLineItemId == base + i
        invariant lineItems == old(lineItems) + Placed(lines[..i], base)
        invariant invoices == old(invoices) && purchaseOrders == old(purchaseOrders)
        invariant notifications == old(notifications) && nextInvoiceId == old(nextInvoiceId)
      {
        StorePlaced(old(lineItems), lines, base, i);
        lineItems := lineItems[nextLineItemId := lines[i]];
        assert lineItems == old(lineItems) + Placed(lines[..i + 1], base);
        nextLineItemId := nextLineItemId + 1;
        i := i + 1;
      }
      assert lines[..i] == lines;
      assert lineItems == old(lineItems) + Placed(lines, base);
    }

    /** The guards of `createManualInvoice`, read off the current tables. */
    method CheckCreatable(caller: Option<User>, input: CreateInput) returns (r: Result<User>)
      ensures r == CreateGuard(Snapshot(), caller, input)
    {
      var auth := Authorize(caller);
      if auth.Err? {
        return Err(auth.error);
      }
      var user := auth.value;
      if HasInvoiceNumber(invoices, user.id, input.invoiceNumber) {
        return Err(DuplicateInvoiceNumber);
      }
      if input.purchaseOrderId.Some? {
        var p := input.purchaseOrderId.value;
        if p !in purchaseOrders {
          return Err(PurchaseOrderNotFound);
        }
        var po := purchaseOrders[p];
        if Some(po.organizationId) != user.organizationId {
          return Err(AccessDenied);
        }
        if po.status != ApprovedStatus {
          return Err(PoNotApproved);
        }
        if po.linkedInvoiceId.Some? {
          return Err(PoAlreadyInvoiced);
        }
      }
      return Ok(user);
    }

    /** `createManualInvoice` */
    method CreateManualInvoice(caller: Option<User>, input: CreateInput, now: int) returns (r: Result<InvoiceView>)
      modifies this
      ensures r == Create(old(Snapshot()), caller, input, now).result
      ensures Snapshot() == Create(old(Snapshot()), caller, input, now).db
      ensures old(Valid()) ==> Valid()
    {
      ghost var before := Snapshot();
      var guard := CheckCreatable(caller, input);
      if guard.Err? {
        return Err(guard.error);
      }
      var user := guard.value;
      var id := nextInvoiceId;
      invoices := invoices[id := NewManualInvoice(user.id, input, now)];
      nextInvoiceId := id + 1;
      InsertLineItems(id, input.lineItems);
      ghost var stored := Snapshot();
      assert stored == InsertInvoice(before, user.id, input, now);
      r := Ok(ViewOf(Snapshot(), id));
      if input.purchaseOrderId.Some? {
        var p := input.purchaseOrderId.value;
        var po := purchaseOrders[p];
        purchaseOrders := purchaseOrders[p := po.(status := InvoicedStatus, linkedInvoiceId := Some(id))];
        if po.createdById != user.id {
          notifications := notifications + [InvoiceCreatedNotice(po, input.invoiceNumber)];
        }
      }
    }

    /** The guards shared by update and delete, read off the current tables. */
    method CheckEditable(caller: Option<User>, id: InvoiceId) returns (r: Result<User>)
      ensures r == EditGuard(Snapshot(), caller, id)
    {
      var auth := Authorize(caller);
      if auth.Err? {
        return Err(auth.error);
      }
      var user := auth.value;
      if id !in invoices {
        return Err(InvoiceNotFound);
      }
      var invoice := invoices[id];
      if invoice.userId != user.id {
        return Err(AccessDenied);
      }
      if invoice.mimeType != ManualMimeType {
        return Err(NotManual);
      }
      if IsPaid(invoice.structuredData) {
        return Err(AlreadyPaid);
      }
      return Ok(user);
    }

    /** `updateManualInvoice`: the scalar fields first, then `structuredData`
        in two stages (the supplied entries, then the subtotal once the line
        items have been replaced), then one write of the invoice row. */
    method UpdateManualInvoice(caller: Option<User>, input: UpdateInput) returns (r: Result<InvoiceView>)
      modifies this
      ensures r == Update(old(Snapshot()), caller, input).result
      ensures Snapshot() == Update(old(Snapshot()), caller, input).db
      ensures old(Valid()) ==> Valid()
    {
      ghost var before := Snapshot();
      var guard := CheckEditable(caller, input.id);
      if guard.Err? {
        return Err(guard.error);
      }
      var invoice := invoices[input.id];
      var updated := ScalarUpdates(invoice, input);
      var bag := SuppliedEntries(invoice.structuredData, input);
      if input.lineItems.Some? {
        lineItems := WithoutLinesOf(lineItems, input.id);
        InsertLineItems(input.id, input.lineItems.value);
        bag := bag["subtotal" := JNum(Subtotal(input.lineItems.value))];
      }
      assert updated.(structuredData := bag) == EditedInvoice(invoice, input);
      assert Snapshot() == if input.lineItems.Some? then ReplaceLines(before, input.id, input.lineItems.value) else before;
      invoices := invoices[input.id := updated.(structuredData := bag)];
      r := Ok(ViewOf(Snapshot(), input.id));
    }

    /** `markInvoicePaid` */
    method MarkInvoicePaid(caller: Option<User>, input: MarkPaidInput) returns (r: Result<Invoice>)
      modifies this
      ensures r == MarkPaid(old(Snapshot()), caller, input).result
      ensures Snapshot() == MarkPaid(old(Snapshot()), caller, input).db
      ensures old(Valid()) ==> Valid()
    {
      var auth := Authorize(caller);
      if auth.Err? {
        return Err(auth.error);
      }
      var user := auth.value;
      if input.id !in invoices {
        return Err(InvoiceNotFound);
      }
      var invoice := invoices[input.id];
      if invoice.userId != user.id {
        return Err(AccessDenied);
      }
      if IsPaid(invoice.structuredData) {
        return Err(AlreadyPaid);
      }
      var paid := invoice.(structuredData := PaidBag(invoice.structuredData, input));
      invoices := invoices[input.id := paid];
      notifications := notifications + [InvoicePaidNotice(invoice)];
      return Ok(paid);
    }

    /** `deleteManualInvoice` */
    method DeleteManualInvoice(caller: Option<User>, id: InvoiceId) returns (r: Result<bool>)
      modifies this
      ensures r == Delete(old(Snapshot()), caller, id).result
      ensures Snapshot() == Delete(old(Snapshot()), caller, id).db
      ensures old(Valid()) ==> Valid()
    {
      var guard := CheckEditable(caller, id);
      if guard.Err? {
        return Err(guard.error);
      }
      var link := invoices[id].linkedPurchaseOrder;
      if link.Some? {
        if link.value !in purchaseOrders {
          return Err(StoreRejected);
        }
        var po := purchaseOrders[link.value];
        purchaseOrders := purchaseOrders[link.value := po.(status := ApprovedStatus, linkedInvoiceId := None)];
      }
      lineItems := WithoutLinesOf(lineItems, id);
      invoices := invoices - {id};
      return Ok(true);
    }
  }
}
