/** What the read operations hand back: an invoice with its line items in
    ascending `lineNumber` order, and a purchase order with its id. */
module Views {
  import opened Types
  import opened Query
  import opened LineItems

  datatype InvoiceView = InvoiceView(id: InvoiceId, invoice: Invoice, lineItems: seq<LineItem>)

  datatype PoView = PoView(id: PoId, purchaseOrder: PurchaseOrder)

  /** An invoice as stored, with `include: { lineItems: { orderBy: { lineNumber: 'asc' } } }`. */
  function ViewOf(db: Db, id: InvoiceId): InvoiceView
    requires id in db.invoices
  {
    InvoiceView(id, db.invoices[id], LinesOf(db.lineItems, id))
  }

  function InvoiceViews(db: Db, ids: seq<InvoiceId>): (r: seq<InvoiceView>)
    requires forall k :: k in ids ==> k in db.invoices
    ensures |r| == |ids| && forall i :: 0 <= i < |ids| ==> r[i] == ViewOf(db, ids[i])
  {
    seq(|ids|, i requires 0 <= i < |ids| => ViewOf(db, ids[i]))
  }

  function PoViews(pos: map<PoId, PurchaseOrder>, ids: seq<PoId>): (r: seq<PoView>)
    requires forall k :: k in ids ==> k in pos
    ensures |r| == |ids| && forall i :: 0 <= i < |ids| ==> r[i] == PoView(ids[i], pos[ids[i]])
  {
    seq(|ids|, i requires 0 <= i < |ids| => PoView(ids[i], pos[ids[i]]))
  }

  /** `orderBy: { createdAt: 'desc' }` on invoices and on purchase orders. */
  const InvoiceCreatedAt: Invoice -> int := (inv: Invoice) => inv.createdAt
  const PoCreatedAt: PurchaseOrder -> int := (po: PurchaseOrder) => po.createdAt

  /** `r` is exactly the invoices that satisfy `keep`, each once, with its
      line items, newest first. */
  predicate ListsInvoices(db: Db, r: seq<InvoiceView>, keep: Invoice -> bool) {
    && (forall i :: 0 <= i < |r| ==> r[i].id in db.invoices && r[i] == ViewOf(db, r[i].id) && keep(r[i].invoice))
    && (forall id :: id in db.invoices && keep(db.invoices[id]) ==> exists i :: 0 <= i < |r| && r[i].id == id)
    && (forall i, j :: 0 <= i < j < |r| ==> r[i].id != r[j].id)
    && (forall i, j :: 0 <= i < j < |r| ==> r[i].invoice.createdAt >= r[j].invoice.createdAt)
  }

  /** `r` is exactly the purchase orders that satisfy `keep`, each once, newest first. */
  predicate ListsPurchaseOrders(pos: map<PoId, PurchaseOrder>, r: seq<PoView>, keep: PurchaseOrder -> bool) {
    && (forall i :: 0 <= i < |r| ==> r[i].id in pos && r[i].purchaseOrder == pos[r[i].id] && keep(r[i].purchaseOrder))
    && (forall p :: p in pos && keep(pos[p]) ==> exists i :: 0 <= i < |r| && r[i].id == p)
    && (forall i, j :: 0 <= i < j < |r| ==> r[i].id != r[j].id)
    && (forall i, j :: 0 <= i < j < |r| ==> r[i].purchaseOrder.createdAt >= r[j].purchaseOrder.createdAt)
  }

  /** `Invoice.findMany({ where: keep, include: { lineItems: ... }, orderBy: { createdAt: 'desc' } })` */
  function FindInvoices(db: Db, keep: Invoice -> bool): (r: seq<InvoiceView>)
    ensures ListsInvoices(db, r, keep)
  {
    var ids := FindManyDesc(db.invoices, keep, InvoiceCreatedAt);
    InvoicesListed(db, keep, ids);
    InvoiceViews(db, ids)
  }

  lemma InvoicesListed(db: Db, keep: Invoice -> bool, ids: seq<InvoiceId>)
    requires forall k :: k in ids <==> k in db.invoices && keep(db.invoices[k])
    requires Distinct(ids)
    requires forall i, j :: 0 <= i < j < |ids| ==> InvoiceCreatedAt(db.invoices[ids[i]]) >= InvoiceCreatedAt(db.invoices[ids[j]])
    ensures ListsInvoices(db, InvoiceViews(db, ids), keep)
  {
    var r := InvoiceViews(db, ids);
    forall i | 0 <= i < |r| ensures r[i].id in db.invoices && r[i] == ViewOf(db, r[i].id) && keep(r[i].invoice) {
      assert ids[i] in ids;
    }
    forall id | id in db.invoices && keep(db.invoices[id]) ensures exists i :: 0 <= i < |r| && r[i].id == id {
      var i :| 0 <= i < |ids| && ids[i] == id;
      assert r[i].id == id;
    }
    forall i, j | 0 <= i < j < |r| ensures r[i].invoice.createdAt >= r[j].invoice.createdAt {
      assert InvoiceCreatedAt(db.invoices[ids[i]]) >= InvoiceCreatedAt(db.invoices[ids[j]]);
    }
  }

  /** `PurchaseOrder.findMany({ where: keep, orderBy: { createdAt: 'desc' } })` */
  function FindPurchaseOrders(pos: map<PoId, PurchaseOrder>, keep: PurchaseOrder -> bool): (r: seq<PoView>)
    ensures ListsPurchaseOrders(pos, r, keep)
  {
    var ids := FindManyDesc(pos, keep, PoCreatedAt);
    PurchaseOrdersListed(pos, keep, ids);
    PoViews(pos, ids)
  }

  lemma PurchaseOrdersListed(pos: map<PoId, PurchaseOrder>, keep: PurchaseOrder -> bool, ids: seq<PoId>)
    requires forall k :: k in ids <==> k in pos && keep(pos[k])
    requires Distinct(ids)
    requires forall i, j :: 0 <= i < j < |ids| ==> PoCreatedAt(pos[ids[i]]) >= PoCreatedAt(pos[ids[j]])
    ensures ListsPurchaseOrders(pos, PoViews(pos, ids), keep)
  {
    var r := PoViews(pos, ids);
    forall i | 0 <= i < |r| ensures r[i].id in pos && r[i].purchaseOrder == pos[r[i].id] && keep(r[i].purchaseOrder) {
      assert ids[i] in ids;
    }
    forall p | p in pos && keep(pos[p]) ensures exists i :: 0 <= i < |r| && r[i].id == p {
      var i :| 0 <= i < |ids| && ids[i] == p;
      assert r[i].id == p;
    }
    forall i, j | 0 <= i < j < |r| ensures r[i].purchaseOrder.createdAt >= r[j].purchaseOrder.createdAt {
      assert PoCreatedAt(pos[ids[i]]) >= PoCreatedAt(pos[ids[j]]);
    }
  }
}
