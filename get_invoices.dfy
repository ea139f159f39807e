/** `getUserInvoices`: the caller's invoices, newest first, at most one page. */
module GetInvoices {
  import opened Types
  import opened LineItems
  import opened Views

  /** `take: 50` */
  const PageSize: nat := 50

  function IsOwnedBy(userId: UserId): Invoice -> bool {
    (inv: Invoice) => inv.userId == userId
  }

  /** The full listing the page is cut from. */
  function AllUserInvoices(db: Db, userId: UserId): (r: seq<InvoiceView>)
    ensures ListsInvoices(db, r, IsOwnedBy(userId))
  {
    FindInvoices(db, IsOwnedBy(userId))
  }

  function Min(a: nat, b: nat): nat {
    if a <= b then a else b
  }

  /** `getUserInvoices`. It tests for a user itself (no organisation guard). */
  function GetUserInvoices(db: Db, caller: Option<User>): (r: Result<seq<InvoiceView>>)
    ensures r.Err? <==> caller.None?
    ensures r.Err? ==> r.error == Unauthorized && r.error.Status() == 401
    ensures r.Ok? ==> |r.value| <= PageSize
    ensures r.Ok? ==> forall i :: 0 <= i < |r.value| ==>
              && r.value[i].id in db.invoices
              && r.value[i] == ViewOf(db, r.value[i].id)
              && r.value[i].invoice.userId == caller.value.id
    ensures r.Ok? ==> forall i, j :: 0 <= i < j < |r.value| ==>
              && r.value[i].id != r.value[j].id
              && r.value[i].invoice.createdAt >= r.value[j].invoice.createdAt
  {
    if caller.None? then Err(Unauthorized)
    else
      var all := AllUserInvoices(db, caller.value.id);
      var page := all[..Min(PageSize, |all|)];
      assert forall i :: 0 <= i < |page| ==> page[i] == all[i];
      Ok(page)
  }

  /** The page holds the caller's most recent invoices: every invoice of the
      caller left off the page is no newer than any invoice on it, and when
      the page is not full nothing was left off. */
  lemma UserInvoicesAreMostRecent(db: Db, caller: Option<User>, id: InvoiceId)
    requires caller.Some?
    requires id in db.invoices && db.invoices[id].userId == caller.value.id
    ensures var page := GetUserInvoices(db, caller).value;
            && ((forall i :: 0 <= i < |page| ==> page[i].id != id) ==>
                  && |page| == PageSize
                  && forall i :: 0 <= i < |page| ==> db.invoices[id].createdAt <= page[i].invoice.createdAt)
  {
    var all := AllUserInvoices(db, caller.value.id);
    UserPage(db, caller);
    var k := OwnedInvoiceListed(db, caller.value.id, id);
    PageIsMostRecent(all, k);
  }

  /** The page is the first `PageSize` entries of the full listing. */
  lemma UserPage(db: Db, caller: Option<User>)
    requires caller.Some?
    ensures var all := AllUserInvoices(db, caller.value.id);
            GetUserInvoices(db, caller) == Ok(all[..Min(PageSize, |all|)])
  {
  }

  /** Where an invoice of the user stands in the full listing. */
  lemma OwnedInvoiceListed(db: Db, userId: UserId, id: InvoiceId) returns (k: nat)
    requires id in db.invoices && db.invoices[id].userId == userId
    ensures var all := AllUserInvoices(db, userId);
            && k < |all| && all[k].id == id && all[k].invoice == db.invoices[id]
            && forall i, j :: 0 <= i < j < |all| ==> all[i].invoice.createdAt >= all[j].invoice.createdAt
  {
    var all := AllUserInvoices(db, userId);
    assert IsOwnedBy(userId)(db.invoices[id]);
    k :| 0 <= k < |all| && all[k].id == id;
  }

  /** In a newest-first listing, an entry at position k that is missing
      from the first page lies after it, so the page is full and no entry on
      it is older. */
  lemma PageIsMostRecent(all: seq<InvoiceView>, k: nat)
    requires k < |all|
    requires forall i, j :: 0 <= i < j < |all| ==> all[i].invoice.createdAt >= all[j].invoice.createdAt
    ensures var page := all[..Min(PageSize, |all|)];
            && ((forall i :: 0 <= i < |page| ==> page[i].id != all[k].id) ==>
                  && |page| == PageSize
                  && forall i :: 0 <= i < |page| ==> all[k].invoice.createdAt <= page[i].invoice.createdAt)
  {
    var page := all[..Min(PageSize, |all|)];
    if forall i :: 0 <= i < |page| ==> page[i].id != all[k].id {
      forall i | 0 <= i < |page| ensures all[k].invoice.createdAt <= page[i].invoice.createdAt {
        assert page[i] == all[i];
      }
    }
  }

  /** Every invoice on the page lists its line items by ascending line number. */
  lemma UserInvoiceLinesAscending(db: Db, caller: Option<User>)
    requires caller.Some?
    ensures var page := GetUserInvoices(db, caller).value;
            forall i, a, b :: 0 <= i < |page| && 0 <= a < b < |page[i].lineItems| ==>
              page[i].lineItems[a].lineNumber <= page[i].lineItems[b].lineNumber
              && page[i].lineItems[a].invoiceId == page[i].id
  {
  }
}
