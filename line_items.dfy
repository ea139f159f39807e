/** Invoice line items: how the operations turn the caller's list into stored
    rows numbered from 1, the subtotal they compute from that list, and how
    an invoice's line items are read back (`include: { lineItems: { orderBy:
    { lineNumber: 'asc' } } }`). */
module LineItems {
  import opened Types
  import opened Query

  /** One entry of the `lineItems` argument of create and update. */
  datatype LineInput = LineInput(
    description: string,
    propertyId: string,
    glAccountId: string,
    quantity: int,
    unitPrice: int,
    taxAmount: int)

  function LineAmount(item: LineInput): int {
    item.quantity * item.unitPrice
  }

  /** `lineItems.reduce((sum, item) => sum + item.quantity * item.unitPrice, 0)`,
      a left fold. With no negative quantity or unit price it is never negative. */
  function Subtotal(items: seq<LineInput>): (s: int)
    ensures (forall i :: 0 <= i < |items| ==> items[i].quantity >= 0 && items[i].unitPrice >= 0) ==> s >= 0
  {
    if items == [] then 0
    else
      var n := |items|;
      assert forall i :: 0 <= i < n - 1 ==> items[..n - 1][i] == items[i];
      Subtotal(items[..n - 1]) + LineAmount(items[n - 1])
  }

  /** The fold splits over a concatenation: the subtotal of two lists is the
      sum of their subtotals, so the order the entries are added in does not
      matter. */
  lemma {:induction false} SubtotalConcat(a: seq<LineInput>, b: seq<LineInput>)
    ensures Subtotal(a + b) == Subtotal(a) + Subtotal(b)
    decreases |b|
  {
    if b != [] {
      var n := |b|;
      assert (a + b)[..|a + b| - 1] == a + b[..n - 1];
      SubtotalConcat(a, b[..n - 1]);
    } else {
      assert a + b == a;
    }
  }

  /** The row created for the entry at (1-based) position `lineNumber`. */
  function LineFor(invoiceId: InvoiceId, item: LineInput, lineNumber: nat): LineItem {
    LineItem(invoiceId, lineNumber, item.description, item.quantity, item.unitPrice,
             LineAmount(item), None)
  }

  /** `lineItems.map((item, index) => ({ ..., lineNumber: index + 1 }))` */
  function NumberLines(invoiceId: InvoiceId, items: seq<LineInput>): seq<LineItem> {
    seq(|items|, i requires 0 <= i < |items| => LineFor(invoiceId, items[i], i + 1))
  }

  /** Row i of the numbered list belongs to the invoice, has line number
      i + 1, copies the entry's quantity and unit price, and its amount is
      their product. */
  lemma NumberLinesEntries(invoiceId: InvoiceId, items: seq<LineInput>)
    ensures var lines := NumberLines(invoiceId, items);
            && |lines| == |items|
            && (forall i :: 0 <= i < |items| ==>
                  && lines[i].invoiceId == invoiceId
                  && lines[i].lineNumber == i + 1
                  && lines[i].description == items[i].description
                  && lines[i].quantity == items[i].quantity
                  && lines[i].unitPrice == items[i].unitPrice
                  && lines[i].amount == items[i].quantity * items[i].unitPrice
                  && lines[i].category.None?)
  {
  }

  function SumAmounts(lines: seq<LineItem>): int {
    if lines == [] then 0
    else SumAmounts(lines[..|lines| - 1]) + lines[|lines| - 1].amount
  }

  /** The stored line items add up to the subtotal written into the invoice's
      `structuredData`. */
  lemma {:induction false} NumberedAmountsSumToSubtotal(invoiceId: InvoiceId, items: seq<LineInput>)
    ensures SumAmounts(NumberLines(invoiceId, items)) == Subtotal(items)
  {
    if items != [] {
      var n := |items|;
      var lines := NumberLines(invoiceId, items);
      assert lines[..n - 1] == NumberLines(invoiceId, items[..n - 1]);
      NumberedAmountsSumToSubtotal(invoiceId, items[..n - 1]);
    }
  }

  /** The ids base, base + 1, ..., base + n - 1. */
  function Range(base: nat, n: nat): (r: seq<nat>)
    ensures |r| == n && forall i :: 0 <= i < n ==> r[i] == base + i
    decreases n
  {
    if n == 0 then [] else [base] + Range(base + 1, n - 1)
  }

  function RangeSet(base: nat, n: nat): (s: set<nat>)
    ensures forall k :: k in s <==> base <= k < base + n
  {
    var s := set k | k in Range(base, n);
    assert forall k :: base <= k < base + n ==> k in s by {
      forall k | base <= k < base + n ensures k in s {
        assert Range(base, n)[k - base] == k;
      }
    }
    s
  }

  lemma EnumerateRange(base: nat, n: nat)
    ensures Enumerate(RangeSet(base, n)) == Range(base, n)
  {
    IncreasingUnique(Enumerate(RangeSet(base, n)), Range(base, n));
  }

  /** The rows `lines` stored under consecutive fresh ids starting at `base`,
      one after the other. */
  function Placed(lines: seq<LineItem>, base: nat): (m: map<LineItemId, LineItem>)
    ensures forall k :: k in m <==> base <= k < base + |lines|
    decreases |lines|
  {
    if lines == [] then map[]
    else Placed(lines[..|lines| - 1], base)[base + |lines| - 1 := lines[|lines| - 1]]
  }

  /** Row i is stored under id base + i. */
  lemma {:induction false} PlacedValue(lines: seq<LineItem>, base: nat, i: nat)
    requires i < |lines|
    ensures base + i in Placed(lines, base) && Placed(lines, base)[base + i] == lines[i]
    decreases |lines|
  {
    var n := |lines|;
    if i < n - 1 {
      PlacedValue(lines[..n - 1], base, i);
    }
  }

  /** Storing one more row extends the placed rows by one id. */
  lemma PlacedExtend(lines: seq<LineItem>, base: nat, i: nat)
    requires i < |lines|
    ensures Placed(lines[..i + 1], base) == Placed(lines[..i], base)[base + i := lines[i]]
  {
    assert lines[..i + 1][..i] == lines[..i];
  }

  /** `InvoiceLineItem.deleteMany({ where: { invoiceId } })` */
  function WithoutLinesOf(lineItems: map<LineItemId, LineItem>, invoiceId: InvoiceId): (r: map<LineItemId, LineItem>)
    ensures forall k :: k in r <==> k in lineItems && lineItems[k].invoiceId != invoiceId
    ensures forall k :: k in r ==> r[k] == lineItems[k]
  {
    map k | k in lineItems && lineItems[k].invoiceId != invoiceId :: lineItems[k]
  }

  function IsLineOf(invoiceId: InvoiceId): LineItem -> bool {
    (li: LineItem) => li.invoiceId == invoiceId
  }

  /** Ascending `lineNumber`, as a key that `FindManyDesc` orders largest first. */
  const ByLineNumber: LineItem -> int := (li: LineItem) => -(li.lineNumber as int)

  /** The ids of one invoice's line items, in ascending `lineNumber` order:
      all of them, each once, and no other. */
  function LineIdsOf(lineItems: map<LineItemId, LineItem>, invoiceId: InvoiceId): (ids: seq<LineItemId>)
    ensures forall k :: k in ids <==> k in lineItems && lineItems[k].invoiceId == invoiceId
    ensures Distinct(ids)
    ensures forall i, j :: 0 <= i < j < |ids| ==> lineItems[ids[i]].lineNumber <= lineItems[ids[j]].lineNumber
  {
    var ids := FindManyDesc(lineItems, IsLineOf(invoiceId), ByLineNumber);
    assert forall i, j :: 0 <= i < j < |ids| ==> lineItems[ids[i]].lineNumber <= lineItems[ids[j]].lineNumber by {
      forall i, j | 0 <= i < j < |ids| ensures lineItems[ids[i]].lineNumber <= lineItems[ids[j]].lineNumber {
        assert ByLineNumber(lineItems[ids[i]]) >= ByLineNumber(lineItems[ids[j]]);
      }
    }
    ids
  }

  /** The line items of one invoice, in ascending `lineNumber` order. */
  function LinesOf(lineItems: map<LineItemId, LineItem>, invoiceId: InvoiceId): (r: seq<LineItem>)
    ensures forall i :: 0 <= i < |r| ==> r[i].invoiceId == invoiceId
    ensures forall k :: k in lineItems && lineItems[k].invoiceId == invoiceId ==> lineItems[k] in r
    ensures forall i, j :: 0 <= i < j < |r| ==> r[i].lineNumber <= r[j].lineNumber
  {
    var ids := FindManyDesc(lineItems, IsLineOf(invoiceId), ByLineNumber);
    assert forall k :: k in ids <==> k in lineItems && lineItems[k].invoiceId == invoiceId;
    assert forall i, j :: 0 <= i < j < |ids| ==> lineItems[ids[i]].lineNumber <= lineItems[ids[j]].lineNumber by {
      forall i, j | 0 <= i < j < |ids| ensures lineItems[ids[i]].lineNumber <= lineItems[ids[j]].lineNumber {
        assert ByLineNumber(lineItems[ids[i]]) >= ByLineNumber(lineItems[ids[j]]);
      }
    }
    RowsOfOneInvoice(lineItems, invoiceId, ids);
    Rows(lineItems, ids)
  }

  /** Row i of an invoice's line items is the stored row under the i-th id
      of `LineIdsOf`: every stored line item of the invoice appears exactly
      once, and nothing else does. */
  lemma LinesOfListsStoredRows(lineItems: map<LineItemId, LineItem>, invoiceId: InvoiceId)
    ensures var r := LinesOf(lineItems, invoiceId);
            var ids := LineIdsOf(lineItems, invoiceId);
            && |r| == |ids|
            && forall i :: 0 <= i < |r| ==> ids[i] in lineItems && r[i] == lineItems[ids[i]]
  {
  }

  lemma RowsOfOneInvoice(lineItems: map<LineItemId, LineItem>, invoiceId: InvoiceId, ids: seq<LineItemId>)
    requires forall k :: k in ids <==> k in lineItems && lineItems[k].invoiceId == invoiceId
    requires forall i, j :: 0 <= i < j < |ids| ==> lineItems[ids[i]].lineNumber <= lineItems[ids[j]].lineNumber
    ensures forall i :: 0 <= i < |Rows(lineItems, ids)| ==> Rows(lineItems, ids)[i].invoiceId == invoiceId
    ensures forall k :: k in lineItems && lineItems[k].invoiceId == invoiceId ==> lineItems[k] in Rows(lineItems, ids)
    ensures forall i, j :: 0 <= i < j < |ids| ==> Rows(lineItems, ids)[i].lineNumber <= Rows(lineItems, ids)[j].lineNumber
  {
    var r := Rows(lineItems, ids);
    forall i | 0 <= i < |r| ensures r[i].invoiceId == invoiceId {
      assert ids[i] in ids;
    }
    forall k | k in lineItems && lineItems[k].invoiceId == invoiceId ensures lineItems[k] in r {
      var i :| 0 <= i < |ids| && ids[i] == k;
      assert r[i] == lineItems[k];
    }
  }

  /** Reading back the line items of an invoice that had none, after `items`
      were stored for it from id `base` on, gives exactly `items` numbered
      1..n, in input order. */
  lemma LinesOfFreshlyStored(before: map<LineItemId, LineItem>, invoiceId: InvoiceId,
                             items: seq<LineInput>, base: nat)
    requires forall k :: k in before ==> before[k].invoiceId != invoiceId
    ensures LinesOf(before + Placed(NumberLines(invoiceId, items), base), invoiceId)
            == NumberLines(invoiceId, items)
  {
    FreshLinesFound(before, invoiceId, items, base);
    RowsOfPlaced(before, NumberLines(invoiceId, items), base);
  }

  /** Reading the placed ids back in order gives the rows in order. */
  lemma RowsOfPlaced(before: map<LineItemId, LineItem>, lines: seq<LineItem>, base: nat)
    ensures forall k :: k in Range(base, |lines|) ==> k in before + Placed(lines, base)
    ensures Rows(before + Placed(lines, base), Range(base, |lines|)) == lines
  {
    forall i | 0 <= i < |lines|
      ensures base + i in before + Placed(lines, base) && (before + Placed(lines, base))[base + i] == lines[i]
    {
      PlacedAt(before, lines, base, i);
    }
    RowsOfRange(before + Placed(lines, base), lines, base);
  }

  /** Rows stored under consecutive ids read back in id order. */
  lemma RowsOfRange(m: map<LineItemId, LineItem>, lines: seq<LineItem>, base: nat)
    requires forall i :: 0 <= i < |lines| ==> base + i in m && m[base + i] == lines[i]
    ensures forall k :: k in Range(base, |lines|) ==> k in m
    ensures Rows(m, Range(base, |lines|)) == lines
  {
    var ids := Range(base, |lines|);
    forall k | k in ids ensures k in m {
      var i :| 0 <= i < |ids| && ids[i] == k;
      assert 0 <= i < |lines| && k == base + i;
      var row := lines[i];
    }
    var r := Rows(m, ids);
    assert forall i :: 0 <= i < |lines| ==> r[i] == lines[i];
  }

  lemma PlacedAt(before: map<LineItemId, LineItem>, lines: seq<LineItem>, base: nat, i: nat)
    requires i < |lines|
    ensures base + i in before + Placed(lines, base)
    ensures (before + Placed(lines, base))[base + i] == lines[i]
  {
    PlacedValue(lines, base, i);
  }

  lemma FreshLinesSorted(before: map<LineItemId, LineItem>, invoiceId: InvoiceId,
                        items: seq<LineInput>, base: nat)
    ensures var m := before + Placed(NumberLines(invoiceId, items), base);
            SortedDesc(Range(base, |items|), KeyOf(m, ByLineNumber))
  {
    var lines := NumberLines(invoiceId, items);
    var m := before + Placed(lines, base);
    var n := |lines|;
    var ids := Range(base, n);
    var key := KeyOf(m, ByLineNumber);
    forall i | 0 <= i < n ensures key(ids[i]) == -(i + 1) {
      PlacedAt(before, lines, base, i);
    }
  }

  lemma FreshLinesFound(before: map<LineItemId, LineItem>, invoiceId: InvoiceId,
                        items: seq<LineInput>, base: nat)
    requires forall k :: k in before ==> before[k].invoiceId != invoiceId
    ensures var m := before + Placed(NumberLines(invoiceId, items), base);
            FindManyDesc(m, IsLineOf(invoiceId), ByLineNumber) == Range(base, |items|)
  {
    var m := before + Placed(NumberLines(invoiceId, items), base);
    FreshLinesSelected(before, invoiceId, items, base);
    FreshLinesSorted(before, invoiceId, items, base);
    SortDescOfSorted(Range(base, |items|), KeyOf(m, ByLineNumber));
  }

  lemma FreshLinesSelected(before: map<LineItemId, LineItem>, invoiceId: InvoiceId,
                           items: seq<LineInput>, base: nat)
    requires forall k :: k in before ==> before[k].invoiceId != invoiceId
    ensures var m := before + Placed(NumberLines(invoiceId, items), base);
            Select(m, IsLineOf(invoiceId)) == Range(base, |items|)
  {
    PlacedWhere(before, invoiceId, NumberLines(invoiceId, items), base);
    EnumerateRange(base, |items|);
  }

  /** Only the placed rows belong to an invoice that had none before. */
  lemma PlacedWhere(before: map<LineItemId, LineItem>, invoiceId: InvoiceId,
                    lines: seq<LineItem>, base: nat)
    requires forall k :: k in before ==> before[k].invoiceId != invoiceId
    requires forall i :: 0 <= i < |lines| ==> lines[i].invoiceId == invoiceId
    ensures Where(before + Placed(lines, base), IsLineOf(invoiceId)) == RangeSet(base, |lines|)
  {
    var m := before + Placed(lines, base);
    forall k ensures k in Where(m, IsLineOf(invoiceId)) <==> k in RangeSet(base, |lines|) {
      if base <= k < base + |lines| {
        PlacedAt(before, lines, base, k - base);
      }
    }
  }
}
