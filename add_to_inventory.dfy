/** The purchase-order form of src/renderer/components/AddToInventory.tsx:
    a list of order lines, one product and an ordered quantity each, the
    line being edited (`newItem`), the merge that adds it to the list, the
    row delete buttons, and the submit that raises each ordered product's
    stock by its ordered quantity. */
module PurchaseOrder {
  import opened Wrappers
  import opened Lists
  import opened Entities

  /** An order line: the product as far as it is known, and how much of it
      is ordered. */
  datatype OrderLine = OrderLine(product: Product, qty: int)

  /** `emptyItem`: no name or SKU, cost price 0, tax 1.15, stock 0. */
  const EmptyProduct: Product := Product("", "", 0.0, 1.15, Some(0))

  /** The line the form starts from and is reset to. */
  const EmptyLine: OrderLine := OrderLine(EmptyProduct, 0)

  /** `orderItems.indexOf(orderItems.Where(x => x.product.sku === sku).First())`:
      the first line with that SKU. */
  function IndexOfSku(lines: seq<OrderLine>, sku: string): Option<nat> {
    FirstIndex(lines, (l: OrderLine) => l.product.sku == sku)
  }

  /** `addToOrder`: a line whose SKU is already in the list replaces the first
      such line, with the two quantities added; any other line is appended. */
  function AfterAddToOrder(lines: seq<OrderLine>, newItem: OrderLine): seq<OrderLine> {
    match IndexOfSku(lines, newItem.product.sku)
    case Some(i) => lines[i := newItem.(qty := lines[i].qty + newItem.qty)]
    case None => lines + [newItem]
  }

  /** At most one line per SKU. */
  predicate UniqueSkus(lines: seq<OrderLine>) {
    forall i, j :: 0 <= i < j < |lines| ==> lines[i].product.sku != lines[j].product.sku
  }

  /** The quantity ordered of `sku`, over all lines. */
  function OrderedQty(lines: seq<OrderLine>, sku: string): int {
    if lines == [] then 0
    else (if lines[0].product.sku == sku then lines[0].qty else 0) + OrderedQty(lines[1..], sku)
  }

  /** `{ ...product, qty: (product.qty || 0) + qty }`: the product saved for a
      line, its stock raised by the ordered quantity, a missing stock
      counting as 0. */
  function Restocked(line: OrderLine): Product {
    line.product.(stock := Some(line.product.stock.GetOr(0) + line.qty))
  }

  class PurchaseOrderForm {
    var orderItems: seq<OrderLine>
    var newItem: OrderLine

    constructor()
      ensures orderItems == [] && newItem == EmptyLine
    {
      orderItems, newItem := [], EmptyLine;
    }

    /** The add button: merges or appends the edited line, then resets it. */
    method AddToOrder()
      modifies this
      ensures orderItems == AfterAddToOrder(old(orderItems), old(newItem))
      ensures newItem == EmptyLine
    {
      var index := IndexOfSku(orderItems, newItem.product.sku);
      if index.Some? {
        var i := index.value;
        orderItems := orderItems[i := newItem.(qty := orderItems[i].qty + newItem.qty)];
      } else {
        orderItems := orderItems + [newItem];
      }
      newItem := EmptyLine;
    }

    /** The delete button of row `i`: `orderItems.splice(i, 1)`. */
    method RemoveRow(i: nat)
      modifies this
      ensures orderItems == RemoveAt(old(orderItems), i)
      ensures newItem == old(newItem)
    {
      orderItems := RemoveAt(orderItems, i);
    }

    /** `submitInventory`: the products handed to the database, one per line
      in line order, each with its stock raised by the line's quantity.
      The form is cleared whether or not the save succeeds. */
    method SubmitInventory() returns (saved: seq<Product>)
      modifies this
      ensures saved == Map(old(orderItems), Restocked)
      ensures orderItems == [] && newItem == EmptyLine
    {
      saved := Map(orderItems, Restocked);
      orderItems, newItem := [], EmptyLine;
    }

    /** The quantity box's change handler with the box's text `value` and
      its numeric reading `valueAsNumber`: an empty box means 0. */
    method SetQuantity(value: string, valueAsNumber: int)
      modifies this
      ensures newItem == old(newItem).(qty := if value == "" then 0 else valueAsNumber)
      ensures orderItems == old(orderItems)
    {
      if value == "" {
        newItem := newItem.(qty := 0);
      } else {
        newItem := newItem.(qty := valueAsNumber);
      }
    }
  }

  // ---------------------------------------------------------------------

  /** A SKU already in the list: the first line with it is replaced by the
      edited line carrying both quantities added; the number of lines and
      every other line stay. */
  lemma {:induction false} AddMergesExisting(lines: seq<OrderLine>, newItem: OrderLine, i: nat)
    requires i < |lines| && lines[i].product.sku == newItem.product.sku
    requires forall j :: 0 <= j < i ==> lines[j].product.sku != newItem.product.sku
    ensures var r := AfterAddToOrder(lines, newItem);
      |r| == |lines| && r[i] == OrderLine(newItem.product, lines[i].qty + newItem.qty) &&
      forall j :: 0 <= j < |lines| && j != i ==> r[j] == lines[j]
  {
    FirstIndexAt(lines, (l: OrderLine) => l.product.sku == newItem.product.sku, i);
  }

  /** A SKU not in the list: the edited line is appended as it is. */
  lemma {:induction false} AddAppendsNew(lines: seq<OrderLine>, newItem: OrderLine)
    requires forall j :: 0 <= j < |lines| ==> lines[j].product.sku != newItem.product.sku
    ensures AfterAddToOrder(lines, newItem) == lines + [newItem]
  {
  }

  /** One line per SKU before an add means one line per SKU after it. */
  lemma {:induction false} AddKeepsSkusUnique(lines: seq<OrderLine>, newItem: OrderLine)
    requires UniqueSkus(lines)
    ensures UniqueSkus(AfterAddToOrder(lines, newItem))
  {
    var r := AfterAddToOrder(lines, newItem);
    match IndexOfSku(lines, newItem.product.sku)
    case Some(i) =>
      assert forall j :: 0 <= j < |r| ==> r[j].product.sku == lines[j].product.sku;
    case None =>
      assert forall j :: 0 <= j < |lines| ==> r[j] == lines[j];
  }

  lemma {:induction false} OrderedQtyAppend(lines: seq<OrderLine>, x: OrderLine, sku: string)
    ensures OrderedQty(lines + [x], sku) == OrderedQty(lines, sku) + (if x.product.sku == sku then x.qty else 0)
  {
    if lines == [] {
      assert [x][1..] == [];
    } else {
      assert (lines + [x])[1..] == lines[1..] + [x];
      OrderedQtyAppend(lines[1..], x, sku);
    }
  }

  lemma {:induction false} OrderedQtyUpdate(lines: seq<OrderLine>, i: nat, x: OrderLine, sku: string)
    requires i < |lines| && x.product.sku == lines[i].product.sku
    ensures OrderedQty(lines[i := x], sku) ==
            OrderedQty(lines, sku) + (if x.product.sku == sku then x.qty - lines[i].qty else 0)
  {
    if i > 0 {
      assert lines[i := x][1..] == lines[1..][i - 1 := x];
      OrderedQtyUpdate(lines[1..], i - 1, x, sku);
    }
  }

  /** Deleting a row takes exactly its quantity off what is ordered of its
      SKU. */
  lemma {:induction false} OrderedQtyRemove(lines: seq<OrderLine>, i: nat, sku: string)
    requires i < |lines|
    ensures OrderedQty(RemoveAt(lines, i), sku) ==
            OrderedQty(lines, sku) - (if lines[i].product.sku == sku then lines[i].qty else 0)
  {
    if i > 0 {
      assert RemoveAt(lines, i)[1..] == RemoveAt(lines[1..], i - 1);
      OrderedQtyRemove(lines[1..], i - 1, sku);
    } else {
      assert RemoveAt(lines, 0) == lines[1..];
    }
  }

  /** An add raises what is ordered of the edited line's SKU by its quantity
      and leaves what is ordered of every other SKU. */
  lemma {:induction false} AddRaisesOrderedQty(lines: seq<OrderLine>, newItem: OrderLine, sku: string)
    ensures OrderedQty(AfterAddToOrder(lines, newItem), sku) ==
            OrderedQty(lines, sku) + (if newItem.product.sku == sku then newItem.qty else 0)
  {
    match IndexOfSku(lines, newItem.product.sku)
    case Some(i) => OrderedQtyUpdate(lines, i, newItem.(qty := lines[i].qty + newItem.qty), sku);
    case None => OrderedQtyAppend(lines, newItem, sku);
  }

  /** With one line per SKU, a line's quantity is all that is ordered of its
      SKU. */
  lemma {:induction false} UniqueOrderedQty(lines: seq<OrderLine>, i: nat)
    requires UniqueSkus(lines) && i < |lines|
    ensures OrderedQty(lines, lines[i].product.sku) == lines[i].qty
  {
    var sku := lines[i].product.sku;
    if i == 0 {
      AbsentOrderedQty(lines[1..], sku);
    } else {
      assert UniqueSkus(lines[1..]);
      UniqueOrderedQty(lines[1..], i - 1);
    }
  }

  lemma {:induction false} AbsentOrderedQty(lines: seq<OrderLine>, sku: string)
    requires forall j :: 0 <= j < |lines| ==> lines[j].product.sku != sku
    ensures OrderedQty(lines, sku) == 0
  {
    if lines != [] {
      AbsentOrderedQty(lines[1..], sku);
    }
  }

  /** The submit saves one product per line, in line order: the line's
      product with its stock, or 0 when it has none, raised by the ordered
      quantity; with one line per SKU that is the product's stock plus all
      that was ordered of it. */
  lemma {:induction false} SubmitRestocks(lines: seq<OrderLine>, i: nat)
    requires i < |lines|
    ensures var saved := Map(lines, Restocked);
      |saved| == |lines| &&
      saved[i].sku == lines[i].product.sku && saved[i].name == lines[i].product.name &&
      saved[i].costPrice == lines[i].product.costPrice && saved[i].tax == lines[i].product.tax &&
      saved[i].stock == Some(lines[i].product.stock.GetOr(0) + lines[i].qty) &&
      (UniqueSkus(lines) ==>
        saved[i].stock == Some(lines[i].product.stock.GetOr(0) + OrderedQty(lines, lines[i].product.sku)))
  {
    assert Map(lines, Restocked)[i] == Restocked(lines[i]);
    if UniqueSkus(lines) {
      UniqueOrderedQty(lines, i);
    }
  }
}
