/** The manual-invoice / purchase-order operations as functions from the store
    before the call to the result and the store after it. The methods of
    `PoInvoiceOperations` are proved to follow these step by step; the
    properties of the workflow are lemmas about them (`PoInvoiceProperties`). */
module PoInvoiceSpec {
  import opened Types
  import opened Permissions
  import opened LineItems
  import opened Views
  import Query

  /** The arguments of `createManualInvoice`. */
  datatype CreateInput = CreateInput(
    purchaseOrderId: Option<PoId>,
    invoiceNumber: string,
    invoiceDate: string,
    dueDate: string,
    vendor: string,
    description: string,
    totalAmount: int,
    taxAmount: int,
    lineItems: seq<LineInput>)

  /** The arguments of `updateManualInvoice`; `None` is an argument left undefined. */
  datatype UpdateInput = UpdateInput(
    id: InvoiceId,
    invoiceNumber: Option<string>,
    invoiceDate: Option<string>,
    dueDate: Option<string>,
    vendor: Option<string>,
    description: Option<string>,
    totalAmount: Option<int>,
    taxAmount: Option<int>,
    lineItems: Option<seq<LineInput>>)

  /** The arguments of `markInvoicePaid`. */
  datatype MarkPaidInput = MarkPaidInput(
    id: InvoiceId,
    paidDate: string,
    paymentMethod: Option<string>,
    paymentReference: Option<string>)

  /** What a call returns, and the store it leaves behind. */
  datatype Step<T> = Step(result: Result<T>, db: Db)

  // ---------------------------------------------------------------- create

  /** `Invoice.findFirst({ where: { userId, invoiceNumber } })` finds a row. */
  predicate HasInvoiceNumber(invoices: map<InvoiceId, Invoice>, userId: UserId, number: string) {
    exists id :: id in invoices && invoices[id].userId == userId && invoices[id].invoiceNumber == number
  }

  /** The purchase order may receive an invoice from `user`. */
  predicate Invoiceable(pos: map<PoId, PurchaseOrder>, p: PoId, user: User) {
    && p in pos
    && Some(pos[p].organizationId) == user.organizationId
    && pos[p].status == ApprovedStatus
    && pos[p].linkedInvoiceId.None?
  }

  /** The checks on the purchase order named by a create, in the order they are made. */
  function CheckPurchaseOrder(pos: map<PoId, PurchaseOrder>, p: PoId, user: User): (r: Option<Error>)
    ensures r.None? <==> Invoiceable(pos, p, user)
  {
    if p !in pos then Some(PurchaseOrderNotFound)
    else if Some(pos[p].organizationId) != user.organizationId then Some(AccessDenied)
    else if pos[p].status != ApprovedStatus then Some(PoNotApproved)
    else if pos[p].linkedInvoiceId.Some? then Some(PoAlreadyInvoiced)
    else None
  }

  /** Everything `createManualInvoice` checks before its first write. */
  function CreateGuard(db: Db, caller: Option<User>, input: CreateInput): (r: Result<User>)
    ensures r.Ok? <==>
      && Authorize(caller).Ok?
      && !HasInvoiceNumber(db.invoices, caller.value.id, input.invoiceNumber)
      && (input.purchaseOrderId.Some? ==> Invoiceable(db.purchaseOrders, input.purchaseOrderId.value, caller.value))
    ensures r.Ok? ==> r.value == caller.value
  {
    match Authorize(caller)
    case Err(e) => Err(e)
    case Ok(user) =>
      if HasInvoiceNumber(db.invoices, user.id, input.invoiceNumber) then Err(DuplicateInvoiceNumber)
      else if input.purchaseOrderId.None? then Ok(user)
      else
        match CheckPurchaseOrder(db.purchaseOrders, input.purchaseOrderId.value, user)
        case Some(e) => Err(e)
        case None => Ok(user)
  }

  /** The `structuredData` a create writes. */
  function CreatedBag(input: CreateInput): Bag {
    map["dueDate" := JStr(input.dueDate),
        "description" := JStr(input.description),
        "subtotal" := JNum(Subtotal(input.lineItems)),
        "taxAmount" := JNum(input.taxAmount)]
  }

  /** The invoice row a create writes: no `purchaseOrderId`, no linked PO. */
  function NewManualInvoice(userId: UserId, input: CreateInput, now: int): Invoice {
    Invoice(userId, input.invoiceNumber, input.invoiceDate, input.vendor, input.totalAmount,
            Usd, CompletedStatus, "Manual Invoice " + input.invoiceNumber, ManualMimeType, "", 0,
            CreatedBag(input), None, None, now)
  }

  /** Stores `items`, numbered from 1, as line items of `invoiceId` under fresh ids. */
  function AddLines(db: Db, invoiceId: InvoiceId, items: seq<LineInput>): Db {
    db.(lineItems := db.lineItems + Placed(NumberLines(invoiceId, items), db.nextLineItemId),
        nextLineItemId := db.nextLineItemId + |items|)
  }

  /** `Invoice.create` with its nested line items, under the next invoice id. */
  function InsertInvoice(db: Db, userId: UserId, input: CreateInput, now: int): Db {
    var id := db.nextInvoiceId;
    AddLines(db.(invoices := db.invoices[id := NewManualInvoice(userId, input, now)],
                 nextInvoiceId := id + 1),
             id, input.lineItems)
  }

  /** The notification sent to the creator of a purchase order that was invoiced. */
  function InvoiceCreatedNotice(po: PurchaseOrder, invoiceNumber: string): Notification {
    Notification(po.createdById, "INVOICE_CREATED", "Invoice Created",
                 "Invoice " + invoiceNumber + " created for PO #" + po.poNumber, false)
  }

  /** Marks purchase order `p` INVOICED by `invoiceId` and notifies its creator
      unless the creator is the caller. */
  function LinkPurchaseOrder(db: Db, p: PoId, invoiceId: InvoiceId, user: User, invoiceNumber: string): (r: Db)
    requires p in db.purchaseOrders
    ensures r.invoices == db.invoices && r.lineItems == db.lineItems
    ensures r.nextInvoiceId == db.nextInvoiceId && r.nextLineItemId == db.nextLineItemId
  {
    var po := db.purchaseOrders[p];
    var linked := db.(purchaseOrders := db.purchaseOrders[p := po.(status := InvoicedStatus, linkedInvoiceId := Some(invoiceId))]);
    if po.createdById != user.id then
      linked.(notifications := linked.notifications + [InvoiceCreatedNotice(po, invoiceNumber)])
    else linked
  }

  /** `createManualInvoice` */
  function Create(db: Db, caller: Option<User>, input: CreateInput, now: int): (r: Step<InvoiceView>)
    ensures r.result.Err? ==> r.db == db
    ensures ValidDb(db) ==> ValidDb(r.db)
  {
    match CreateGuard(db, caller, input)
    case Err(e) => Step(Err(e), db)
    case Ok(user) =>
      var id := db.nextInvoiceId;
      var stored := InsertInvoice(db, user.id, input, now);
      InsertInvoiceKeepsValid(db, user.id, input, now);
      var linked :=
        if input.purchaseOrderId.Some?
        then LinkPurchaseOrder(stored, input.purchaseOrderId.value, id, user, input.invoiceNumber)
        else stored;
      Step(Ok(ViewOf(stored, id)), linked)
  }

  lemma InsertInvoiceKeepsValid(db: Db, userId: UserId, input: CreateInput, now: int)
    ensures var after := InsertInvoice(db, userId, input, now);
            && db.nextInvoiceId in after.invoices
            && (ValidDb(db) ==> ValidDb(after))
  {
    var id := db.nextInvoiceId;
    var after := InsertInvoice(db, userId, input, now);
    var lines := NumberLines(id, input.lineItems);
    if ValidDb(db) {
      forall k | k in after.lineItems ensures k < after.nextLineItemId && after.lineItems[k].invoiceId in after.invoices {
        if k !in db.lineItems {
          PlacedAt(db.lineItems, lines, db.nextLineItemId, k - db.nextLineItemId);
        }
      }
    }
  }

  // ---------------------------------------------------------------- update

  /** The caller may edit or delete the invoice: it exists, is theirs, was
      entered by hand and is not paid. */
  predicate Editable(db: Db, user: User, id: InvoiceId) {
    && id in db.invoices
    && db.invoices[id].userId == user.id
    && db.invoices[id].mimeType == ManualMimeType
    && !IsPaid(db.invoices[id].structuredData)
  }

  /** The checks `updateManualInvoice` and `deleteManualInvoice` make before
      their first write, in the order they make them. */
  function EditGuard(db: Db, caller: Option<User>, id: InvoiceId): (r: Result<User>)
    ensures r.Ok? <==> Authorize(caller).Ok? && Editable(db, caller.value, id)
    ensures r.Ok? ==> r.value == caller.value
  {
    match Authorize(caller)
    case Err(e) => Err(e)
    case Ok(user) =>
      if id !in db.invoices then Err(InvoiceNotFound)
      else if db.invoices[id].userId != user.id then Err(AccessDenied)
      else if db.invoices[id].mimeType != ManualMimeType then Err(NotManual)
      else if IsPaid(db.invoices[id].structuredData) then Err(AlreadyPaid)
      else Ok(user)
  }

  /** The `structuredData` an update leaves: the old bag with the supplied
      entries overridden and, when line items are given, the new subtotal. */
  function EditedBag(bag: Bag, input: UpdateInput): Bag {
    var withDue := if Truthy(input.dueDate) then bag["dueDate" := JStr(input.dueDate.value)] else bag;
    var withDescription :=
      if Truthy(input.description) then withDue["description" := JStr(input.description.value)] else withDue;
    var withTax :=
      if input.taxAmount.Some? then withDescription["taxAmount" := JNum(input.taxAmount.value)] else withDescription;
    if input.lineItems.Some? then withTax["subtotal" := JNum(Subtotal(input.lineItems.value))] else withTax
  }

  /** The invoice row an update leaves. */
  function EditedInvoice(inv: Invoice, input: UpdateInput): Invoice {
    inv.(invoiceNumber := if Truthy(input.invoiceNumber) then input.invoiceNumber.value else inv.invoiceNumber,
         invoiceDate := if Truthy(input.invoiceDate) then input.invoiceDate.value else inv.invoiceDate,
         vendorName := if Truthy(input.vendor) then input.vendor.value else inv.vendorName,
         totalAmount := if input.totalAmount.Some? then input.totalAmount.value else inv.totalAmount,
         structuredData := EditedBag(inv.structuredData, input))
  }

  /** `deleteMany` of the invoice's line items followed by the creation of the new ones. */
  function ReplaceLines(db: Db, invoiceId: InvoiceId, items: seq<LineInput>): Db {
    AddLines(db.(lineItems := WithoutLinesOf(db.lineItems, invoiceId)), invoiceId, items)
  }

  /** `updateManualInvoice` */
  function Update(db: Db, caller: Option<User>, input: UpdateInput): (r: Step<InvoiceView>)
    ensures r.result.Err? ==> r.db == db
    ensures ValidDb(db) ==> ValidDb(r.db)
  {
    match EditGuard(db, caller, input.id)
    case Err(e) => Step(Err(e), db)
    case Ok(_) =>
      var relined := if input.lineItems.Some? then ReplaceLines(db, input.id, input.lineItems.value) else db;
      ReplaceLinesKeepsValid(db, input);
      var updated := relined.(invoices := relined.invoices[input.id := EditedInvoice(db.invoices[input.id], input)]);
      Step(Ok(ViewOf(updated, input.id)), updated)
  }

  lemma ReplaceLinesKeepsValid(db: Db, input: UpdateInput)
    requires input.id in db.invoices
    ensures input.lineItems.Some? && ValidDb(db) ==> ValidDb(ReplaceLines(db, input.id, input.lineItems.value))
  {
    if input.lineItems.Some? && ValidDb(db) {
      var after := ReplaceLines(db, input.id, input.lineItems.value);
      var lines := NumberLines(input.id, input.lineItems.value);
      var kept := WithoutLinesOf(db.lineItems, input.id);
      forall k | k in after.lineItems ensures k < after.nextLineItemId && after.lineItems[k].invoiceId in after.invoices {
        if k !in kept {
          PlacedAt(kept, lines, db.nextLineItemId, k - db.nextLineItemId);
        }
      }
    }
  }

  // ---------------------------------------------------------------- mark paid

  /** The checks `markInvoicePaid` makes: unlike edit and delete, no check
      that the invoice was entered by hand. */
  function MarkPaidGuard(db: Db, caller: Option<User>, id: InvoiceId): (r: Result<User>)
    ensures r.Ok? <==>
      && Authorize(caller).Ok?
      && id in db.invoices
      && db.invoices[id].userId == caller.value.id
      && !IsPaid(db.invoices[id].structuredData)
    ensures r.Ok? ==> r.value == caller.value
  {
    match Authorize(caller)
    case Err(e) => Err(e)
    case Ok(user) =>
      if id !in db.invoices then Err(InvoiceNotFound)
      else if db.invoices[id].userId != user.id then Err(AccessDenied)
      else if IsPaid(db.invoices[id].structuredData) then Err(AlreadyPaid)
      else Ok(user)
  }

  /** A spread entry whose value may be `undefined`: an undefined value is
      dropped when the bag is stored as JSON, so the key disappears. */
  function SetOrDrop(bag: Bag, key: string, value: Option<string>): Bag {
    if value.Some? then bag[key := JStr(value.value)] else bag - {key}
  }

  /** `{ ...structuredData, paymentStatus: 'PAID', paidDate, paymentMethod, paymentReference }` */
  function PaidBag(bag: Bag, input: MarkPaidInput): Bag {
    var paid := bag["paymentStatus" := JStr(PaidStatus)]["paidDate" := JStr(input.paidDate)];
    SetOrDrop(SetOrDrop(paid, "paymentMethod", input.paymentMethod), "paymentReference", input.paymentReference)
  }

  function InvoicePaidNotice(inv: Invoice): Notification {
    Notification(inv.userId, "INVOICE_PAID", "Invoice Paid",
                 "Invoice " + inv.invoiceNumber + " has been marked as paid", false)
  }

  /** `markInvoicePaid` */
  function MarkPaid(db: Db, caller: Option<User>, input: MarkPaidInput): (r: Step<Invoice>)
    ensures r.result.Err? ==> r.db == db
    ensures ValidDb(db) ==> ValidDb(r.db)
  {
    match MarkPaidGuard(db, caller, input.id)
    case Err(e) => Step(Err(e), db)
    case Ok(_) =>
      var inv := db.invoices[input.id];
      var paid := inv.(structuredData := PaidBag(inv.structuredData, input));
      Step(Ok(paid), db.(invoices := db.invoices[input.id := paid],
                         notifications := db.notifications + [InvoicePaidNotice(inv)]))
  }

  // ---------------------------------------------------------------- delete

  /** `PurchaseOrder.update({ data: { status: 'APPROVED', linkedInvoiceId: null } })` */
  function ReleasePurchaseOrder(db: Db, p: PoId): Db
    requires p in db.purchaseOrders
  {
    db.(purchaseOrders := db.purchaseOrders[p := db.purchaseOrders[p].(status := ApprovedStatus, linkedInvoiceId := None)])
  }

  /** `InvoiceLineItem.deleteMany` followed by `Invoice.delete`. */
  function RemoveInvoice(db: Db, id: InvoiceId): Db {
    db.(lineItems := WithoutLinesOf(db.lineItems, id), invoices := db.invoices - {id})
  }

  /** `deleteManualInvoice`. The purchase-order branch is taken only when the
      loaded record carries a linked-PO reference; updating a purchase order
      that does not exist is refused by the store before anything is deleted. */
  function Delete(db: Db, caller: Option<User>, id: InvoiceId): (r: Step<bool>)
    ensures r.result.Err? ==> r.db == db
    ensures ValidDb(db) ==> ValidDb(r.db)
  {
    match EditGuard(db, caller, id)
    case Err(e) => Step(Err(e), db)
    case Ok(_) =>
      var link := db.invoices[id].linkedPurchaseOrder;
      if link.Some? && link.value !in db.purchaseOrders then Step(Err(StoreRejected), db)
      else
        var released := if link.Some? then ReleasePurchaseOrder(db, link.value) else db;
        Step(Ok(true), RemoveInvoice(released, id))
  }

  // ---------------------------------------------------------------- queries

  /** A purchase order of organisation `org` that is approved and has no invoice yet. */
  predicate AvailablePo(po: PurchaseOrder, org: OrgId) {
    po.organizationId == org && po.status == ApprovedStatus && po.linkedInvoiceId.None?
  }

  function IsAvailablePo(org: OrgId): PurchaseOrder -> bool {
    (po: PurchaseOrder) => AvailablePo(po, org)
  }

  /** `getApprovedPOsWithoutInvoices` */
  function GetApprovedPOsWithoutInvoices(db: Db, caller: Option<User>): (r: Result<seq<PoView>>)
    ensures r.Err? <==> Authorize(caller).Err?
    ensures r.Err? ==> r.error == Authorize(caller).error
    ensures r.Ok? ==> ListsPurchaseOrders(db.purchaseOrders, r.value, IsAvailablePo(caller.value.organizationId.value))
  {
    match Authorize(caller)
    case Err(e) => Err(e)
    case Ok(user) => Ok(FindPurchaseOrders(db.purchaseOrders, IsAvailablePo(user.organizationId.value)))
  }

  /** The `paymentStatus` argument of `getManualInvoices`. */
  datatype PaymentFilter = Paid | Pending {
    function Name(): string {
      match this
      case Paid => PaidStatus
      case Pending => "PENDING"
    }
  }

  /** The `where` of `getManualInvoices`: the caller's manual invoices and,
      when a filter is given, only those whose stored `paymentStatus` equals it. */
  predicate ListedAsManual(inv: Invoice, userId: UserId, filter: Option<PaymentFilter>) {
    && inv.userId == userId
    && inv.mimeType == ManualMimeType
    && (filter.Some? ==>
          "paymentStatus" in inv.structuredData
          && inv.structuredData["paymentStatus"] == JStr(filter.value.Name()))
  }

  function IsListedAsManual(userId: UserId, filter: Option<PaymentFilter>): Invoice -> bool {
    (inv: Invoice) => ListedAsManual(inv, userId, filter)
  }

  /** `getManualInvoices` */
  function GetManualInvoices(db: Db, caller: Option<User>, filter: Option<PaymentFilter>): (r: Result<seq<InvoiceView>>)
    ensures r.Err? <==> Authorize(caller).Err?
    ensures r.Err? ==> r.error == Authorize(caller).error
    ensures r.Ok? ==> ListsInvoices(db, r.value, IsListedAsManual(caller.value.id, filter))
  {
    match Authorize(caller)
    case Err(e) => Err(e)
    case Ok(user) => Ok(FindInvoices(db, IsListedAsManual(user.id, filter)))
  }

  /** What `getInvoiceById` returns: the invoice with its line items, the
      purchase order linked to it from the purchase-order side
      (`include: { linkedPurchaseOrder }`), and the purchase order its own
      `purchaseOrderId` names, when there is one. */
  datatype InvoiceDetail = InvoiceDetail(
    invoice: InvoiceView,
    linkedPurchaseOrder: Option<PoView>,
    purchaseOrder: Option<PoView>)

  function LinksTo(id: InvoiceId): PurchaseOrder -> bool {
    (po: PurchaseOrder) => po.linkedInvoiceId == Some(id)
  }

  /** The purchase order whose `linkedInvoiceId` names invoice `id`: the
      back side of the one-to-one link, which the purchase order owns. The
      store keeps that column unique; should several orders name the
      invoice, the lowest id is taken. */
  function LinkedPurchaseOrderOf(pos: map<PoId, PurchaseOrder>, id: InvoiceId): (r: Option<PoView>)
    ensures r.Some? <==> exists p :: p in pos && pos[p].linkedInvoiceId == Some(id)
    ensures r.Some? ==> r.value.id in pos && r.value.purchaseOrder == pos[r.value.id]
                        && r.value.purchaseOrder.linkedInvoiceId == Some(id)
    ensures r.Some? ==> forall p :: p in pos && pos[p].linkedInvoiceId == Some(id) ==> r.value.id <= p
  {
    var linked := Query.Where(pos, LinksTo(id));
    if linked == {} then
      assert forall p :: p in pos ==> pos[p].linkedInvoiceId != Some(id) by {
        forall p | p in pos ensures pos[p].linkedInvoiceId != Some(id) {
          assert p !in linked;
        }
      }
      None
    else
      var p := Query.Least(linked);
      Some(PoView(p, pos[p]))
  }

  function PurchaseOrderOf(pos: map<PoId, PurchaseOrder>, p: Option<PoId>): (r: Option<PoView>)
    ensures r.Some? <==> p.Some? && p.value in pos
    ensures r.Some? ==> r.value == PoView(p.value, pos[p.value])
  {
    if p.Some? && p.value in pos then Some(PoView(p.value, pos[p.value])) else None
  }

  /** `getInvoiceById`: authentication only, no organisation check. */
  function GetInvoiceById(db: Db, caller: Option<User>, id: InvoiceId): (r: Result<InvoiceDetail>)
    ensures r.Ok? <==> caller.Some? && id in db.invoices && db.invoices[id].userId == caller.value.id
    ensures r.Err? ==> r.error == (if caller.None? then Unauthorized
                                   else if id !in db.invoices then InvoiceNotFound
                                   else AccessDenied)
    ensures r.Ok? ==> r.value.invoice == ViewOf(db, id)
    ensures r.Ok? ==> r.value.linkedPurchaseOrder == LinkedPurchaseOrderOf(db.purchaseOrders, id)
    ensures r.Ok? ==> r.value.purchaseOrder == PurchaseOrderOf(db.purchaseOrders, db.invoices[id].purchaseOrderId)
  {
    match CheckAuth(caller)
    case Err(e) => Err(e)
    case Ok(user) =>
      if id !in db.invoices then Err(InvoiceNotFound)
      else if db.invoices[id].userId != user.id then Err(AccessDenied)
      else Ok(InvoiceDetail(ViewOf(db, id), LinkedPurchaseOrderOf(db.purchaseOrders, id),
                            PurchaseOrderOf(db.purchaseOrders, db.invoices[id].purchaseOrderId)))
  }
}
