/** Entities of the invoice / purchase-order store, the errors the server
    operations raise, and the value-level snapshot of the store that the
    specification functions work on. */
module Types {

  type UserId = nat
  type OrgId = nat
  type InvoiceId = nat
  type LineItemId = nat
  type PoId = nat

  datatype Option<+T> = None | Some(value: T)

  /** The reasons an operation fails with, each with its HTTP status. */
  datatype Error =
    | Unauthorized            // no authenticated user
    | NoOrganization          // the organisation guard refused the caller
    | AccessDenied            // record belongs to another user or organisation
    | InvoiceNotFound
    | PurchaseOrderNotFound
    | DuplicateInvoiceNumber  // the caller already owns an invoice with this number
    | PoNotApproved
    | PoAlreadyInvoiced
    | NotManual               // only manually entered invoices may be edited or deleted
    | AlreadyPaid
    | StoreRejected           // the store refused an update of a missing record
  {
    function Status(): nat {
      match this
      case Unauthorized => 401
      case NoOrganization => 403
      case AccessDenied => 403
      case InvoiceNotFound => 404
      case PurchaseOrderNotFound => 404
      case StoreRejected => 500
      case _ => 400
    }
  }

  datatype Result<+T> = Ok(value: T) | Err(error: Error)

  /** A value of the loosely typed `structuredData` bag. */
  datatype Json = JStr(str: string) | JNum(num: int)

  type Bag = map<string, Json>

  /** The authenticated caller, as the session provider describes it. */
  datatype User = User(id: UserId, organizationId: Option<OrgId>)

  datatype Invoice = Invoice(
    userId: UserId,
    invoiceNumber: string,
    invoiceDate: string,
    vendorName: string,
    totalAmount: int,
    currency: string,
    status: string,
    fileName: string,
    mimeType: string,
    fileUrl: string,
    fileSize: nat,
    structuredData: Bag,
    purchaseOrderId: Option<PoId>,      // the invoice-side foreign key column
    // The linked-PO reference as delete's `findUnique` sees it. Delete loads
    // only the line items, so no operation fills it in. It is not what
    // `getInvoiceById` reports: that read looks the link up on the
    // purchase-order side (`PoInvoiceSpec.LinkedPurchaseOrderOf`).
    linkedPurchaseOrder: Option<PoId>,
    createdAt: int)

  datatype LineItem = LineItem(
    invoiceId: InvoiceId,
    lineNumber: nat,
    description: string,
    quantity: int,
    unitPrice: int,
    amount: int,
    category: Option<string>)

  datatype PurchaseOrder = PurchaseOrder(
    organizationId: OrgId,
    createdById: UserId,
    poNumber: string,
    status: string,
    linkedInvoiceId: Option<InvoiceId>,
    createdAt: int)

  datatype Notification = Notification(
    userId: UserId,
    kind: string,
    title: string,
    message: string,
    read: bool)

  /** The whole store at one instant, with the id counters the store
      allocates fresh invoice and line-item ids from. */
  datatype Db = Db(
    invoices: map<InvoiceId, Invoice>,
    lineItems: map<LineItemId, LineItem>,
    purchaseOrders: map<PoId, PurchaseOrder>,
    notifications: seq<Notification>,
    nextInvoiceId: InvoiceId,
    nextLineItemId: LineItemId)

  /** The store's own integrity: ids below the counters, every line item
      owned by an invoice that exists (the line items' foreign key), and a
      purchase order only ever linked to an invoice id already handed out. */
  predicate ValidDb(db: Db) {
    && (forall id :: id in db.invoices ==> id < db.nextInvoiceId)
    && (forall k :: k in db.lineItems ==> k < db.nextLineItemId)
    && (forall k :: k in db.lineItems ==> db.lineItems[k].invoiceId in db.invoices)
    && (forall p :: p in db.purchaseOrders && db.purchaseOrders[p].linkedInvoiceId.Some? ==>
          db.purchaseOrders[p].linkedInvoiceId.value < db.nextInvoiceId)
  }

  const ManualMimeType: string := "application/manual"
  const CompletedStatus: string := "COMPLETED"
  const ApprovedStatus: string := "APPROVED"
  const InvoicedStatus: string := "INVOICED"
  const PaidStatus: string := "PAID"
  const Usd: string := "USD"

  /** JavaScript truthiness of an optional string argument: present and non-empty. */
  predicate Truthy(s: Option<string>) {
    s.Some? && s.value != ""
  }

  /** `structuredData?.paymentStatus === 'PAID'` */
  predicate IsPaid(bag: Bag) {
    "paymentStatus" in bag && bag["paymentStatus"] == JStr(PaidStatus)
  }
}
