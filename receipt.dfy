/** `formatReceipt` of src/renderer/tools/receipt.ts (the sale screen in
    src/renderer/pages/Landing.tsx carries an identical copy): the order
    number, the item table and the totals handed to the receipt layout. */
module Receipt {
  import opened Text
  import opened Lists
  import opened Entities
  import opened Sorting

  /** One line of the item table: name, quantity, and the unit price in
      cents. */
  datatype Row = Row(item: string, qty: int, cost: real)

  /** What the receipt layout is given, apart from the fixed shop header,
      the date and the footer. */
  datatype ReceiptDoc = ReceiptDoc(orderNumber: string, rows: seq<Row>, subTotal: real, hstGst: real, total: real)

  const HstRate: real := 0.15

  function ItemQty(it: Item): int {
    it.qty
  }

  /** `id.toString().padStart(9, '0')` */
  function OrderNumber(id: nat): string {
    PadStart(NatString(id), 9, '0')
  }

  /** `items.Sum(item => item.product.costPrice * item.qty)` */
  function SubTotal(items: seq<Item>): real {
    Sum(items, (it: Item) => it.product.costPrice * it.qty as real)
  }

  function RowOf(it: Item): Row {
    Row(it.product.name, it.qty, it.product.costPrice * 100.0)
  }

  /** `items.map(item => ({ item: item.product.name, qty: item.qty, cost: item.product.costPrice * 100 }))` */
  function Rows(items: seq<Item>): seq<Row> {
    Map(items, RowOf)
  }

  /** The receipt for rows already in the order they are printed: a flat
      15% tax on the subtotal. */
  function ReceiptFor(items: seq<Item>, id: nat): ReceiptDoc {
    var sub := SubTotal(items);
    ReceiptDoc(OrderNumber(id), Rows(items), sub, sub * HstRate, sub + sub * HstRate)
  }

  /** `formatReceipt(items, id)`: sorts the caller's array in place by
      quantity, largest first, and builds the receipt from the sorted rows. */
  method FormatReceipt(items: array<Item>, id: nat) returns (doc: ReceiptDoc)
    modifies items
    ensures items[..] == SortByQty(old(items[..]), ItemQty)
    ensures doc == ReceiptFor(items[..], id)
  {
    SortInPlace(items, ItemQty);
    doc := ReceiptFor(items[..], id);
  }

  // ---------------------------------------------------------------------

  /** The order number is the id's digits, zero-padded on the left to nine
      characters; an id of nine or more digits is printed as it is. */
  lemma {:induction false} OrderNumberDigits(id: nat)
    ensures var s := OrderNumber(id);
      AllDigits(s) && DigitsValue(s) == id &&
      (id < Pow10(9) ==> |s| == 9) &&
      (id >= Pow10(8) ==> s == NatString(id))
  {
    NatStringValue(id);
    NatStringLength(id, 9);
    NatStringLength(id, 8);
    ZeroPadValue(NatString(id), 9);
  }

  /** Every row is costed at its unit price in cents, and the totals are the
      subtotal, 15% of it, and their sum. */
  lemma {:induction false} ReceiptTotals(items: seq<Item>, id: nat)
    ensures var doc := ReceiptFor(items, id);
      |doc.rows| == |items| &&
      (forall i :: 0 <= i < |items| ==> doc.rows[i].qty == items[i].qty &&
                                         doc.rows[i].cost == 100.0 * items[i].product.costPrice) &&
      doc.total == 1.15 * doc.subTotal && doc.hstGst == 0.15 * doc.subTotal
  {
  }

  /** Sorting the rows changes neither the subtotal nor the set of printed
      rows, and the printed table is the input table sorted the same way. */
  lemma {:induction false} SortKeepsTotals(items: seq<Item>, id: nat)
    ensures var sorted := SortByQty(items, ItemQty);
      ReceiptFor(sorted, id).subTotal == SubTotal(items) &&
      ReceiptFor(sorted, id).rows == SortByQty(Rows(items), RowQty) &&
      multiset(ReceiptFor(sorted, id).rows) == multiset(Rows(items))
  {
    var sorted := SortByQty(items, ItemQty);
    SortPermutation(items, ItemQty);
    SumPermutation(sorted, items, (it: Item) => it.product.costPrice * it.qty as real);
    RowsSort(items);
    SortPermutation(Rows(items), RowQty);
  }

  function RowQty(r: Row): int {
    r.qty
  }

  lemma {:induction false} RowsSort(s: seq<Item>)
    ensures Rows(SortByQty(s, ItemQty)) == SortByQty(Rows(s), RowQty)
  {
    SortMap(s, ItemQty, RowOf, RowQty);
  }
}
