/** The older sale screen of src/renderer/components/Landing.tsx. Its cart
    rows are flat records that copy the product's name, SKU and cost price
    when the row is made; the tax is a flat 15% of the subtotal, and the
    receipt carries a fixed order number. */
module LegacyScreen {
  import opened Wrappers
  import opened Lists
  import opened Entities
  import opened Sorting
  import opened Receipt

  /** A cart row: `{ name, qty, unitPrice, sku }`. */
  datatype LegacyItem = LegacyItem(name: string, qty: int, unitPrice: real, sku: string)

  /** The cart and the pending multiplier. */
  datatype LegacyCart = LegacyCart(items: seq<LegacyItem>, multiplier: Option<int>)

  /** Subtotal, HST/GST and total, as the totals panel and the receipt show
      them. */
  datatype Totals = Totals(subTotal: real, hstGst: real, total: real)

  /** The order number printed on every receipt of this screen. */
  const FixedOrderNumber: string := "0123456789"

  function LegacyQty(it: LegacyItem): int {
    it.qty
  }

  /** `items.findIndex(x => x.sku === sku)` */
  function IndexOfSku(items: seq<LegacyItem>, sku: string): Option<nat> {
    FirstIndex(items, (it: LegacyItem) => it.sku == sku)
  }

  /** The row made for a product: its name, SKU and cost price, and the
      multiplier (1 when none is pending) as quantity. */
  function RowFor(p: Product, multiplier: Option<int>): LegacyItem {
    LegacyItem(p.name, multiplier.GetOr(1), p.costPrice, p.sku)
  }

  /** `addProduct(sku)`: a SKU already in the cart raises the first such row
      by the multiplier or 1; otherwise the stored product is appended as a
      new row; an unknown SKU returns before the multiplier is cleared. */
  function AfterAdd(items: seq<LegacyItem>, multiplier: Option<int>, sku: string, catalog: seq<Product>): LegacyCart {
    match IndexOfSku(items, sku)
    case Some(i) => LegacyCart(items[i := items[i].(qty := items[i].qty + multiplier.GetOr(1))], None)
    case None =>
      match FindBySku(catalog, sku)
      case None => LegacyCart(items, multiplier)
      case Some(p) => LegacyCart(items + [RowFor(p, multiplier)], None)
  }

  /** `items.Sum(item => item.unitPrice * item.qty)` */
  function SubTotal(items: seq<LegacyItem>): real {
    Sum(items, (it: LegacyItem) => it.unitPrice * it.qty as real)
  }

  /** The totals: a flat 15% tax on the subtotal, and their sum. */
  function TotalsOf(items: seq<LegacyItem>): Totals {
    var sub := SubTotal(items);
    Totals(sub, sub * 0.15, sub + sub * 0.15)
  }

  /** A receipt table line: `{ item: name, qty, cost: unitPrice * 100 }`. */
  function ReceiptRow(it: LegacyItem): Row {
    Row(it.name, it.qty, it.unitPrice * 100.0)
  }

  /** The receipt for rows in the order they are printed. */
  function LegacyReceipt(items: seq<LegacyItem>): ReceiptDoc {
    var t := TotalsOf(items);
    ReceiptDoc(FixedOrderNumber, Map(items, ReceiptRow), t.subTotal, t.hstGst, t.total)
  }

  class LegacyScreen {
    var items: seq<LegacyItem>
    var multiplier: Option<int>
    var skuInput: string

    constructor()
      ensures items == [] && multiplier == None && skuInput == ""
    {
      items, multiplier, skuInput := [], None, "";
    }

    /** `addProduct(sku)` with the product store `catalog`. */
    method AddProduct(sku: string, catalog: seq<Product>)
      modifies this
      ensures LegacyCart(items, multiplier) == AfterAdd(old(items), old(multiplier), sku, catalog)
      ensures skuInput == old(skuInput)
    {
      var ind := IndexOfSku(items, sku);
      if ind.Some? {
        var i := ind.value;
        items := items[i := items[i].(qty := items[i].qty + multiplier.GetOr(1))];
      } else {
        var product := FindBySku(catalog, sku);
        if product.None? {
          return;
        }
        items := items + [RowFor(product.value, multiplier)];
      }
      multiplier := None;
    }

    /** `searchProduct` on the text `value`: an empty box does nothing; a
      product whose SKU or name is `value` is appended as a new row, even
      when its SKU is already in the cart, and the box and the multiplier
      are cleared; no match keeps the text in the box. */
    method SearchProduct(value: string, catalog: seq<Product>)
      modifies this
      ensures value == "" ==> items == old(items) && multiplier == old(multiplier) && skuInput == old(skuInput)
      ensures value != "" && FindBySkuOrName(catalog, value).Some? ==>
        items == old(items) + [RowFor(FindBySkuOrName(catalog, value).value, old(multiplier))] &&
        multiplier == None && skuInput == ""
      ensures value != "" && FindBySkuOrName(catalog, value).None? ==>
        items == old(items) && multiplier == old(multiplier) && skuInput == value
    {
      if value == "" {
        return;
      }
      var found := FindBySkuOrName(catalog, value);
      if found.Some? {
        items := items + [RowFor(found.value, multiplier)];
        skuInput, multiplier := "", None;
      } else {
        skuInput := value;
      }
    }

    /** Digit button `k` of the row of nine: the pending digit again clears
      the multiplier, any other digit replaces it. */
    method PressDigit(k: int)
      requires 1 <= k <= 9
      modifies this
      ensures multiplier == (if old(multiplier) == Some(k) then None else Some(k))
      ensures items == old(items) && skuInput == old(skuInput)
    {
      if multiplier == Some(k) {
        multiplier := None;
      } else {
        multiplier := Some(k);
      }
    }

    /** The delete button of row `i`: `items.splice(i, 1)`. */
    method RemoveRow(i: nat)
      modifies this
      ensures items == RemoveAt(old(items), i)
      ensures multiplier == old(multiplier) && skuInput == old(skuInput)
    {
      items := RemoveAt(items, i);
    }

    /** `formatReceipt()`: sorts the cart itself by quantity, largest first,
      and builds the receipt from it. */
    method FormatReceipt() returns (doc: ReceiptDoc)
      modifies this
      ensures items == SortByQty(old(items), LegacyQty) && doc == LegacyReceipt(items)
      ensures multiplier == old(multiplier) && skuInput == old(skuInput)
    {
      items := SortByQty(items, LegacyQty);
      doc := LegacyReceipt(items);
    }
  }

  // ---------------------------------------------------------------------

  /** Adding a SKU already in the cart raises exactly its first row, by the
      multiplier or 1, keeps every other row and the number of rows, and
      clears the multiplier. */
  lemma {:induction false} AddExisting(items: seq<LegacyItem>, multiplier: Option<int>, sku: string, catalog: seq<Product>, i: nat)
    requires i < |items| && items[i].sku == sku
    requires forall j :: 0 <= j < i ==> items[j].sku != sku
    ensures var c := AfterAdd(items, multiplier, sku, catalog);
      |c.items| == |items| && c.multiplier == None &&
      c.items[i] == items[i].(qty := items[i].qty + multiplier.GetOr(1)) &&
      forall j :: 0 <= j < |items| && j != i ==> c.items[j] == items[j]
  {
    FirstIndexAt(items, (it: LegacyItem) => it.sku == sku, i);
  }

  /** Adding a SKU not in the cart appends one row copied from the stored
      product and clears the multiplier; an unknown SKU changes neither the
      cart nor the multiplier. */
  lemma {:induction false} AddNew(items: seq<LegacyItem>, multiplier: Option<int>, sku: string, catalog: seq<Product>)
    requires forall j :: 0 <= j < |items| ==> items[j].sku != sku
    ensures var c := AfterAdd(items, multiplier, sku, catalog);
      (exists p :: p in catalog && p.sku == sku) ==>
        |c.items| == |items| + 1 && c.items[..|items|] == items && c.multiplier == None &&
        exists p :: p in catalog && p.sku == sku && c.items[|items|] == RowFor(p, multiplier)
    ensures (forall p :: p in catalog ==> p.sku != sku) ==>
      AfterAdd(items, multiplier, sku, catalog) == LegacyCart(items, multiplier)
  {
    var c := AfterAdd(items, multiplier, sku, catalog);
    if exists p :: p in catalog && p.sku == sku {
      assert c.items[..|items|] == items;
      var p := FindBySku(catalog, sku).value;
      assert c.items[|items|] == RowFor(p, multiplier);
    }
  }

  /** Rows keep distinct SKUs under adding: the merge raises a row in place
      and a new row is made only for a SKU not yet in the cart. */
  lemma {:induction false} AddKeepsSkusDistinct(items: seq<LegacyItem>, multiplier: Option<int>, sku: string, catalog: seq<Product>)
    requires forall i, j :: 0 <= i < j < |items| ==> items[i].sku != items[j].sku
    ensures var c := AfterAdd(items, multiplier, sku, catalog).items;
      forall i, j :: 0 <= i < j < |c| ==> c[i].sku != c[j].sku
  {
  }

  /** Every add that changes the cart raises the subtotal by the row's unit
      price times the multiplier or 1. */
  lemma {:induction false} AddRaisesSubTotal(items: seq<LegacyItem>, multiplier: Option<int>, sku: string, catalog: seq<Product>)
    ensures var c := AfterAdd(items, multiplier, sku, catalog);
      var price := match IndexOfSku(items, sku)
        case Some(i) => Some(items[i].unitPrice)
        case None => match FindBySku(catalog, sku)
          case None => None
          case Some(p) => Some(p.costPrice);
      (price.None? ==> c.items == items) &&
      (price.Some? ==> SubTotal(c.items) == SubTotal(items) + price.value * multiplier.GetOr(1) as real)
  {
    var m := multiplier.GetOr(1);
    match IndexOfSku(items, sku)
    case Some(i) =>
      MergeRaisesSubTotal(items, i, m);
      assert AfterAdd(items, multiplier, sku, catalog).items == items[i := items[i].(qty := items[i].qty + m)];
    case None =>
      match FindBySku(catalog, sku)
      case None =>
      case Some(p) => AppendRaisesSubTotal(items, RowFor(p, multiplier));
  }

  lemma {:induction false} MergeRaisesSubTotal(items: seq<LegacyItem>, i: nat, m: int)
    requires i < |items|
    ensures SubTotal(items[i := items[i].(qty := items[i].qty + m)]) ==
            SubTotal(items) + items[i].unitPrice * m as real
  {
    var f := (it: LegacyItem) => it.unitPrice * it.qty as real;
    var x := items[i].(qty := items[i].qty + m);
    SumUpdate(items, i, x, f);
    assert f(x) - f(items[i]) == items[i].unitPrice * m as real;
  }

  lemma {:induction false} AppendRaisesSubTotal(items: seq<LegacyItem>, x: LegacyItem)
    ensures SubTotal(items + [x]) == SubTotal(items) + x.unitPrice * x.qty as real
  {
    var f := (it: LegacyItem) => it.unitPrice * it.qty as real;
    SumAppend(items, [x], f);
    assert Sum([x], f) == f(x) by { assert [x][1..] == []; }
  }

  /** Deleting a row takes exactly that row's amount off the subtotal. */
  lemma {:induction false} RemoveLowersSubTotal(items: seq<LegacyItem>, i: nat)
    requires i < |items|
    ensures SubTotal(RemoveAt(items, i)) == SubTotal(items) - items[i].unitPrice * items[i].qty as real
  {
    SumRemoveAt(items, i, (it: LegacyItem) => it.unitPrice * it.qty as real);
  }

  /** The tax is 15% of the subtotal and the total 115% of it. */
  lemma {:induction false} TotalsShape(items: seq<LegacyItem>)
    ensures var t := TotalsOf(items);
      t.hstGst == 0.15 * t.subTotal && t.total == 1.15 * t.subTotal
  {
  }

  /** The receipt's table is the cart sorted by quantity, largest first,
      equal quantities in cart order, each row costed at its unit price in
      cents; sorting leaves the totals as they were. */
  lemma {:induction false} ReceiptOfSorted(items: seq<LegacyItem>)
    ensures var sorted := SortByQty(items, LegacyQty);
      var doc := LegacyReceipt(sorted);
      doc.orderNumber == FixedOrderNumber &&
      doc.rows == SortByQty(Map(items, ReceiptRow), RowQty) &&
      multiset(sorted) == multiset(items) && NonIncreasing(sorted, LegacyQty) &&
      (forall i :: 0 <= i < |doc.rows| ==>
        doc.rows[i].qty == sorted[i].qty && doc.rows[i].cost == 100.0 * sorted[i].unitPrice) &&
      TotalsOf(sorted) == TotalsOf(items)
  {
    var sorted := SortByQty(items, LegacyQty);
    SortPermutation(items, LegacyQty);
    SortOrdered(items, LegacyQty);
    SumPermutation(sorted, items, (it: LegacyItem) => it.unitPrice * it.qty as real);
    SortMap(items, LegacyQty, ReceiptRow, RowQty);
  }
}
