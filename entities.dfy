/** The records the sale screens and the reports share. The database
    entities are reconstructed from how the screens use them: a product
    (`sku`, `name`, `costPrice`, `tax`, and the stock count the inventory
    screen keeps in its `qty` column), a purchase with its items, and the
    payment method numbering 0 = cash, 1 = debit, 2 = credit. Money is an
    exact rational. */
module Entities {
  import opened Wrappers
  import opened Extensions

  datatype Product = Product(sku: string, name: string, costPrice: real, tax: real, stock: Option<int>)

  datatype PaymentMethod = Cash | Debit | Credit | Unrecognised
  {
    /** The number stored in the `paymentMethod` column. */
    function Code(): (c: int)
      requires !Unrecognised?
      ensures 0 <= c <= 2
    {
      match this
      case Cash => 0
      case Debit => 1
      case Credit => 2
    }
  }

  /** A purchase row's product may be missing when the relation was not
      loaded or the product was removed. */
  datatype PurchaseItem = PurchaseItem(product: Option<Product>, qty: int)

  /** A sale record; `items` is absent when the relation was not loaded. */
  datatype Purchase = Purchase(paid: real, price: real, tax: real, paymentMethod: PaymentMethod,
                               timestamp: DateTime, items: Option<seq<PurchaseItem>>)

  /** A cart row of the sale screen and of the receipt: a product and how
      many of it. */
  datatype Item = Item(product: Product, qty: int)

  /** `findOne(Product, { where: { sku } })` over the stored products: the
      first one with that SKU. */
  function FindBySku(catalog: seq<Product>, sku: string): (r: Option<Product>)
    ensures r.Some? ==> r.value in catalog && r.value.sku == sku
    ensures r.None? <==> forall p :: p in catalog ==> p.sku != sku
  {
    if catalog == [] then None
    else if catalog[0].sku == sku then Some(catalog[0])
    else FindBySku(catalog[1..], sku)
  }

  /** `findOneOrFail(Product, { where: [{ sku: v }, { name: v }] })`: the
      first stored product whose SKU or name is `v`; `None` is the
      rejected promise. */
  function FindBySkuOrName(catalog: seq<Product>, v: string): (r: Option<Product>)
    ensures r.Some? ==> r.value in catalog && (r.value.sku == v || r.value.name == v)
    ensures r.None? <==> forall p :: p in catalog ==> p.sku != v && p.name != v
  {
    if catalog == [] then None
    else if catalog[0].sku == v || catalog[0].name == v then Some(catalog[0])
    else FindBySkuOrName(catalog[1..], v)
  }
}
