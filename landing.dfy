/** The sale screen of src/renderer/pages/Landing.tsx: a cart of product
    rows edited by SKU buttons, the search box, the digit (multiplier)
    buttons, the row delete buttons and the void button, and the payment
    that turns the cart into a purchase record once the tender covers it. */
module SaleScreen {
  import opened Wrappers
  import opened Lists
  import opened Extensions
  import opened Entities
  import opened Money
  import opened Sorting
  import opened Receipt

  /** The cart and the pending multiplier, the part of the screen's state
      that adding a product changes. */
  datatype Cart = Cart(items: seq<Item>, multiplier: Option<int>)

  /** `items.findIndex(({ product }) => product.sku === sku)` */
  function IndexOfSku(items: seq<Item>, sku: string): Option<nat> {
    FirstIndex(items, (it: Item) => it.product.sku == sku)
  }

  /** `addProduct(sku)`: a SKU already in the cart raises the first such
      row's quantity by the multiplier (1 when none is pending); otherwise
      the product is looked up and appended as a new row; an unknown SKU
      returns early and changes nothing. Every add that happens clears the
      multiplier. */
  function AfterAdd(items: seq<Item>, multiplier: Option<int>, sku: string, catalog: seq<Product>): Cart {
    match IndexOfSku(items, sku)
    case Some(i) => Cart(items[i := items[i].(qty := items[i].qty + multiplier.GetOr(1))], None)
    case None =>
      match FindBySku(catalog, sku)
      case None => Cart(items, multiplier)
      case Some(p) => Cart(items + [Item(p, multiplier.GetOr(1))], None)
  }

  /** Digit button `k`: pressing the pending digit again clears it, any
      other digit replaces it. */
  function Toggled(multiplier: Option<int>, k: int): Option<int> {
    if multiplier == Some(k) then None else Some(k)
  }

  /** `items.Sum(x => x.product.tax * x.product.costPrice)`: the tax of each
      row's product once, whatever the row's quantity. */
  function RawTax(items: seq<Item>): real {
    Sum(items, (it: Item) => it.product.tax * it.product.costPrice)
  }

  /** `round(RawTax(items), 3)`, the tax the payment settles on. */
  function SettlementTax(items: seq<Item>): real {
    RoundTo(RawTax(items), 3)
  }

  /** `round(subTotal + hst_gst - (value || 0), 2)`: what remains to pay. */
  function Remaining(items: seq<Item>, value: real): real {
    RoundTo(SubTotal(items) + SettlementTax(items) - value, 2)
  }

  /** One purchase item per cart row, same product, same quantity, same
      order. */
  function PurchaseItems(items: seq<Item>): (r: seq<PurchaseItem>)
    ensures |r| == |items|
    ensures forall i :: 0 <= i < |items| ==> r[i] == PurchaseItem(Some(items[i].product), items[i].qty)
  {
    if items == [] then [] else [PurchaseItem(Some(items[0].product), items[0].qty)] + PurchaseItems(items[1..])
  }

  /** `onSubmit(value)`: the purchase record to be saved, made only when
      nothing remains to pay. It is always recorded as a debit payment. */
  function Settle(items: seq<Item>, value: real, now: DateTime): Option<Purchase> {
    if Remaining(items, value) <= 0.0 then
      Some(Purchase(value, SubTotal(items), SettlementTax(items), Debit, now, Some(PurchaseItems(items))))
    else None
  }

  /** The totals panel under the cart: subtotal, the tax sum unrounded, and
      the total less what was paid. */
  function DisplayedTotals(items: seq<Item>, paid: Option<real>): (real, real, real) {
    (SubTotal(items), RawTax(items), SubTotal(items) + RawTax(items) - paid.GetOr(0.0))
  }

  class SaleScreen {
    var items: seq<Item>
    var multiplier: Option<int>
    var skuInput: string
    var paid: Option<real>

    constructor()
      ensures items == [] && multiplier == None && skuInput == "" && paid == None
    {
      items, multiplier, skuInput, paid := [], None, "", None;
    }

    /** `addProduct(sku)` with the product store `catalog`. */
    method AddProduct(sku: string, catalog: seq<Product>)
      modifies this
      ensures Cart(items, multiplier) == AfterAdd(old(items), old(multiplier), sku, catalog)
      ensures skuInput == old(skuInput) && paid == old(paid)
    {
      var ind := IndexOfSku(items, sku);
      if ind.Some? {
        var i := ind.value;
        items := items[i := items[i].(qty := items[i].qty + multiplier.GetOr(1))];
      } else {
        var product := FindBySku(catalog, sku);
        if product.None? {
          return;
        }
        items := items + [Item(product.value, multiplier.GetOr(1))];
      }
      multiplier := None;
    }

    /** `searchProduct` on the text `value`: an empty box clears the input;
      a product whose SKU or name is `value` is appended as a new row even
      when its SKU is already in the cart; no match keeps the text. */
    method SearchProduct(value: string, catalog: seq<Product>)
      modifies this
      ensures value == "" ==> items == old(items) && multiplier == old(multiplier) && skuInput == ""
      ensures value != "" && FindBySkuOrName(catalog, value).Some? ==>
        items == old(items) + [Item(FindBySkuOrName(catalog, value).value, old(multiplier).GetOr(1))] &&
        multiplier == None && skuInput == ""
      ensures value != "" && FindBySkuOrName(catalog, value).None? ==>
        items == old(items) && multiplier == old(multiplier) && skuInput == value
      ensures paid == old(paid)
    {
      if value == "" {
        skuInput := "";
        return;
      }
      var found := FindBySkuOrName(catalog, value);
      if found.Some? {
        items := items + [Item(found.value, multiplier.GetOr(1))];
        skuInput, multiplier := "", None;
      } else {
        skuInput := value;
      }
    }

    /** Digit button `k`. */
    method PressDigit(k: int)
      requires 1 <= k <= 9
      modifies this
      ensures multiplier == Toggled(old(multiplier), k)
      ensures items == old(items) && skuInput == old(skuInput) && paid == old(paid)
    {
      if multiplier == Some(k) {
        multiplier := None;
      } else {
        multiplier := Some(k);
      }
    }

    /** The delete button of row `i`: `items.splice(i, 1)`. */
    method RemoveRow(i: nat)
      modifies this
      ensures items == RemoveAt(old(items), i)
      ensures multiplier == old(multiplier) && skuInput == old(skuInput) && paid == old(paid)
    {
      items := RemoveAt(items, i);
    }

    /** The void button: empties the cart and forgets the payment; a pending
      multiplier stays. */
    method Void()
      modifies this
      ensures items == [] && paid == None
      ensures multiplier == old(multiplier) && skuInput == old(skuInput)
    {
      items, paid := [], None;
    }

    /** `formatReceipt(id)`: sorts the cart itself by quantity and builds the
      receipt from it. */
    method FormatReceipt(id: nat) returns (doc: ReceiptDoc)
      modifies this
      ensures items == SortByQty(old(items), ItemQty) && doc == ReceiptFor(items, id)
      ensures multiplier == old(multiplier) && skuInput == old(skuInput) && paid == old(paid)
    {
      items := SortByQty(items, ItemQty);
      doc := ReceiptFor(items, id);
    }

    /** The payment panel's submit with tender `value` at time `now`. The
      record is handed to the database; `savedId` is the id it was saved
      under, or `None` when either save failed. Only after both saves does
      the screen note the payment and print the receipt, which sorts the
      cart; the cart itself is not emptied. */
    method Pay(value: real, now: DateTime, savedId: Option<nat>) returns (record: Option<Purchase>, doc: Option<ReceiptDoc>)
      modifies this
      ensures record == Settle(old(items), value, now)
      ensures record.Some? && savedId.Some? ==>
        paid == Some(value) && items == SortByQty(old(items), ItemQty) &&
        doc == Some(ReceiptFor(items, savedId.value))
      ensures !(record.Some? && savedId.Some?) ==> paid == old(paid) && items == old(items) && doc == None
      ensures multiplier == old(multiplier) && skuInput == old(skuInput)
    {
      record := Settle(items, value, now);
      doc := None;
      if record.Some? && savedId.Some? {
        paid := Some(value);
        var receipt := FormatReceipt(savedId.value);
        doc := Some(receipt);
      }
    }
  }

  // ---------------------------------------------------------------------

  /** Adding a SKU already in the cart raises exactly that row, by the
      multiplier or 1, leaves the number of rows and every other row alone,
      and clears the multiplier. */
  lemma {:induction false} AddExisting(items: seq<Item>, multiplier: Option<int>, sku: string, catalog: seq<Product>, i: nat)
    requires i < |items| && items[i].product.sku == sku
    requires forall j :: 0 <= j < i ==> items[j].product.sku != sku
    ensures var c := AfterAdd(items, multiplier, sku, catalog);
      |c.items| == |items| && c.multiplier == None &&
      c.items[i].product == items[i].product && c.items[i].qty == items[i].qty + multiplier.GetOr(1) &&
      forall j :: 0 <= j < |items| && j != i ==> c.items[j] == items[j]
  {
    FirstIndexAt(items, (it: Item) => it.product.sku == sku, i);
  }

  /** Adding a SKU not in the cart appends exactly one row for the stored
      product and clears the multiplier; a SKU that is not stored changes
      neither the cart nor the multiplier. */
  lemma {:induction false} AddNew(items: seq<Item>, multiplier: Option<int>, sku: string, catalog: seq<Product>)
    requires forall j :: 0 <= j < |items| ==> items[j].product.sku != sku
    ensures var c := AfterAdd(items, multiplier, sku, catalog);
      (exists p :: p in catalog && p.sku == sku) ==>
        |c.items| == |items| + 1 && c.items[..|items|] == items &&
        c.items[|items|].product in catalog && c.items[|items|].product.sku == sku &&
        c.items[|items|].qty == multiplier.GetOr(1) && c.multiplier == None
    ensures (forall p :: p in catalog ==> p.sku != sku) ==>
      AfterAdd(items, multiplier, sku, catalog) == Cart(items, multiplier)
  {
    var c := AfterAdd(items, multiplier, sku, catalog);
    if exists p :: p in catalog && p.sku == sku {
      assert c.items[..|items|] == items;
    }
  }

  /** A product added twice in a row ends up with the multiplier plus one:
      the multiplier is used by the first add only. */
  lemma {:induction false} MultiplierUsedOnce(items: seq<Item>, multiplier: Option<int>, sku: string, catalog: seq<Product>)
    requires FindBySku(catalog, sku).Some? || IndexOfSku(items, sku).Some?
    ensures var c1 := AfterAdd(items, multiplier, sku, catalog);
      var c2 := AfterAdd(c1.items, c1.multiplier, sku, catalog);
      var i := IndexOfSku(c2.items, sku);
      c1.multiplier == None && c2.multiplier == None && i.Some? &&
      i == IndexOfSku(c1.items, sku) &&
      c2.items[i.value].qty == c1.items[i.value].qty + 1 &&
      c1.items[i.value].qty == (if IndexOfSku(items, sku).Some? then items[i.value].qty else 0) + multiplier.GetOr(1)
  {
    var c1 := AfterAdd(items, multiplier, sku, catalog);
    var p := (it: Item) => it.product.sku == sku;
    match IndexOfSku(items, sku)
    case Some(i) =>
      FirstIndexAt(c1.items, p, i);
      FirstIndexAt(AfterAdd(c1.items, None, sku, catalog).items, p, i);
    case None =>
      var n := |items|;
      FirstIndexAt(c1.items, p, n);
      FirstIndexAt(AfterAdd(c1.items, None, sku, catalog).items, p, n);
  }

  /** Pressing the same digit twice returns to no multiplier, from any
      state but that digit pending: a different pending digit is lost, and
      the same one stays pending. */
  lemma {:induction false} ToggleTwice(multiplier: Option<int>, k: int)
    ensures Toggled(Toggled(None, k), k) == None
    ensures multiplier.Some? && multiplier.value != k ==> Toggled(Toggled(multiplier, k), k) == None
    ensures Toggled(Toggled(Some(k), k), k) == Some(k)
  {
  }

  /** An add raises the subtotal by the added product's cost price times
      the multiplier (or 1), and an add that finds nothing leaves the cart. */
  lemma {:induction false} AddRaisesSubTotal(items: seq<Item>, multiplier: Option<int>, sku: string, catalog: seq<Product>)
    ensures var c := AfterAdd(items, multiplier, sku, catalog);
      var added := match IndexOfSku(items, sku)
        case Some(i) => Some(items[i].product)
        case None => FindBySku(catalog, sku);
      (added.None? ==> c.items == items) &&
      (added.Some? ==> (added.value.sku == sku &&
        SubTotal(c.items) == SubTotal(items) + added.value.costPrice * multiplier.GetOr(1) as real))
  {
    var m := multiplier.GetOr(1);
    match IndexOfSku(items, sku)
    case Some(i) =>
      assert items[i].product.sku == sku;
      assert AfterAdd(items, multiplier, sku, catalog).items == items[i := items[i].(qty := items[i].qty + m)];
      MergeRaisesSubTotal(items, i, m);
    case None =>
      match FindBySku(catalog, sku)
      case None =>
      case Some(q) => AppendRaisesSubTotal(items, q, m);
  }

  lemma {:induction false} MergeRaisesSubTotal(items: seq<Item>, i: nat, m: int)
    requires i < |items|
    ensures SubTotal(items[i := items[i].(qty := items[i].qty + m)]) ==
            SubTotal(items) + items[i].product.costPrice * m as real
  {
    var f := (it: Item) => it.product.costPrice * it.qty as real;
    var x := items[i].(qty := items[i].qty + m);
    SumUpdate(items, i, x, f);
    assert f(x) - f(items[i]) == items[i].product.costPrice * m as real;
  }

  lemma {:induction false} AppendRaisesSubTotal(items: seq<Item>, p: Product, m: int)
    ensures SubTotal(items + [Item(p, m)]) == SubTotal(items) + p.costPrice * m as real
  {
    var f := (it: Item) => it.product.costPrice * it.qty as real;
    SumAppend(items, [Item(p, m)], f);
    assert Sum([Item(p, m)], f) == f(Item(p, m)) by { assert [Item(p, m)][1..] == []; }
  }

  /** The settlement tax ignores quantities: changing a row's quantity leaves
      it as it was. */
  lemma {:induction false} TaxIgnoresQuantity(items: seq<Item>, i: nat, q: int)
    requires i < |items|
    ensures SettlementTax(items[i := items[i].(qty := q)]) == SettlementTax(items)
  {
    var f := (it: Item) => it.product.tax * it.product.costPrice;
    SumUpdate(items, i, items[i].(qty := q), f);
    assert f(items[i].(qty := q)) == f(items[i]);
    assert RawTax(items[i := items[i].(qty := q)]) == RawTax(items);
  }

  /** A purchase is made exactly when the tender is short of subtotal plus tax
      by less than half a cent. */
  lemma {:induction false} SettleExactlyWhenCovered(items: seq<Item>, value: real, now: DateTime)
    ensures Settle(items, value, now).Some? <==> value > SubTotal(items) + SettlementTax(items) - 0.005
  {
    RoundCentsNonPositive(SubTotal(items) + SettlementTax(items) - value);
  }

  /** The record made by a payment: the tender as paid, the subtotal as
      price, the rounded tax, the debit method, and one item per cart row in
      cart order with the same product and quantity. */
  lemma {:induction false} SettleRecord(items: seq<Item>, value: real, now: DateTime)
    requires Settle(items, value, now).Some?
    ensures var r := Settle(items, value, now).value;
      r.paid == value && r.price == SubTotal(items) && r.tax == SettlementTax(items) &&
      r.paymentMethod == Debit && r.timestamp == now && r.items.Some? &&
      |r.items.value| == |items| &&
      forall i :: 0 <= i < |items| ==>
        r.items.value[i].product == Some(items[i].product) && r.items.value[i].qty == items[i].qty
  {
  }

  /** The tax the totals panel shows differs from the one the payment settles
      on by rounding to three decimals only. */
  lemma {:induction false} DisplayedTaxNearSettled(items: seq<Item>, paid: Option<real>)
    ensures var shown := DisplayedTotals(items, paid).1;
      shown - 0.0005 <= SettlementTax(items) <= shown + 0.0005
  {
    RoundError(RawTax(items), 3);
    assert Scale(3) == 1000.0;
  }
}
