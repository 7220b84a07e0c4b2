/** `generateEOD` of src/renderer/tools/receipt.ts: the end-of-day report.
    It queries the day's purchases, sums their prices per payment method,
    counts them per hour label and adds up the quantity sold per product,
    then lays the figures out as `name: ... value` lines of a fixed width. */
module EndOfDay {
  import opened Wrappers
  import opened Text
  import opened Lists
  import opened Extensions
  import opened Entities
  import opened Money
  import opened Dictionary

  /** The figures the report prints. */
  datatype Report = Report(debit: real, credit: real, cash: real,
                           hours: Dict<string>, products: Dict<Product>)
  {
    /** `getTotal()` */
    function TotalSales(): real {
      debit + credit + cash
    }
  }

  /** The report's text lines, apart from the fixed header and titles. */
  datatype ReportText = ReportText(methodLines: seq<string>, ruler: string, totalLine: string,
                                   productLines: seq<string>, hourLines: seq<string>)

  // ---------------------------------------------------------------------
  // The query window

  /** `Date.today().toDatabaseString()` and the same for the next day; the
      report's `date` argument plays no part. */
  function QueryWindow(today: DateTime, tomorrow: DateTime): (string, string) {
    (DatabaseString(today), DatabaseString(tomorrow))
  }

  /** The database's `BETWEEN lo AND hi` on timestamp strings: both ends
      included. */
  predicate Between(s: string, window: (string, string)) {
    !LexLess(s, window.0) && !LexLess(window.1, s)
  }

  // ---------------------------------------------------------------------
  // The aggregation

  /** `Where(t => t.paymentMethod === m).Sum(t => t.price)` */
  function MethodTotal(ts: seq<Purchase>, m: PaymentMethod): real {
    Sum(Filter(ts, (t: Purchase) => t.paymentMethod == m), (t: Purchase) => t.price)
  }

  /** The time-table key of an hour of the day: hours after noon as
      `h - 12` with " pm", all others (noon included) as " am". */
  function HourLabel(h: nat): string {
    if h > 12 then NatString(h - 12) + " pm" else NatString(h) + " am"
  }

  /** `getHours()`: the hour of the day on the terminal's clock, which is
      `offset` minutes ahead of UTC (negative west of Greenwich). */
  function LocalHour(t: DateTime, offset: int): (h: nat)
    ensures h < 24
  {
    ((t.hour * 60 + t.minute + offset) / 60) % 24
  }

  /** On a clock set to UTC the local hour is the UTC hour, and a whole
      number of hours ahead of UTC shifts it by that many hours, wrapping at
      midnight. */
  lemma {:induction false} LocalHourWholeOffset(t: DateTime, hours: int)
    requires t.Valid()
    ensures LocalHour(t, 60 * hours) == (t.hour + hours) % 24
    ensures LocalHour(t, 0) == t.hour
  {
    var n := t.hour + hours;
    assert t.hour * 60 + t.minute + 60 * hours == n * 60 + t.minute;
    DivWithRemainder(n, t.minute);
  }

  lemma {:induction false} DivWithRemainder(n: int, m: int)
    requires 0 <= m < 60
    ensures (n * 60 + m) / 60 == n
  {
    var q := (n * 60 + m) / 60;
    assert q * 60 + (n * 60 + m) % 60 == n * 60 + m;
  }

  function LabelOf(t: Purchase, offset: int): string {
    HourLabel(LocalHour(t.timestamp, offset))
  }

  /** The time table after the purchases of `ts`, in order, were counted. */
  function HourTable(ts: seq<Purchase>, offset: int): Dict<string> {
    if ts == [] then []
    else Bump(HourTable(ts[..|ts| - 1], offset), LabelOf(ts[|ts| - 1], offset), 1)
  }

  /** The product table after `items`, in order, were added to `d`; an item
      without a product is passed over. */
  function ItemsInto(d: Dict<Product>, items: seq<PurchaseItem>): Dict<Product> {
    if items == [] then d
    else
      var d' := ItemsInto(d, items[..|items| - 1]);
      var it := items[|items| - 1];
      if it.product.Some? then Bump(d', it.product.value, it.qty) else d'
  }

  /** The product table after the purchases of `ts`; a purchase whose items
      were not loaded adds nothing. */
  function ProductTable(ts: seq<Purchase>): Dict<Product> {
    if ts == [] then []
    else
      var d := ProductTable(ts[..|ts| - 1]);
      match ts[|ts| - 1].items
      case None => d
      case Some(items) => ItemsInto(d, items)
  }

  /** The figures for the purchases the query returned, with hours read on
      a clock `offset` minutes ahead of UTC. */
  function Summarize(ts: seq<Purchase>, offset: int): Report {
    if |ts| == 0 then Report(0.0, 0.0, 0.0, [], [])
    else Report(MethodTotal(ts, Debit), MethodTotal(ts, Credit), MethodTotal(ts, Cash),
                HourTable(ts, offset), ProductTable(ts))
  }

  /** The report for a query outcome: a failed query makes the awaited
      promise reject, so no report is made. */
  function Eod(query: Option<seq<Purchase>>, offset: int): Option<Report> {
    match query
    case None => None
    case Some(ts) => Some(Summarize(ts, offset))
  }

  /** `generateEOD`: `query` is the outcome of the database query over
      `QueryWindow(today, tomorrow)`; `date` is accepted and not used. The
      time and product tables are filled by one pass over the purchases and,
      inside it, one pass over each purchase's items. The terminal's clock
      is `offset` minutes ahead of UTC. */
  method GenerateEod(query: Option<seq<Purchase>>, date: Option<DateTime>, offset: int) returns (r: Option<Report>)
    ensures r == Eod(query, offset)
  {
    if query.None? {
      return None;
    }
    var transactions := query.value;
    var debit, credit, cash := 0.0, 0.0, 0.0;
    var transactionTime: Dict<string> := [];
    var productCount: Dict<Product> := [];
    if |transactions| != 0 {
      debit := MethodTotal(transactions, Debit);
      credit := MethodTotal(transactions, Credit);
      cash := MethodTotal(transactions, Cash);
      var i := 0;
      while i < |transactions|
        invariant 0 <= i <= |transactions|
        invariant transactionTime == HourTable(transactions[..i], offset)
        invariant productCount == ProductTable(transactions[..i])
      {
        var t := transactions[i];
        assert transactions[..i + 1][..i] == transactions[..i];
        var time := HourLabel(LocalHour(t.timestamp, offset));
        transactionTime := Bump(transactionTime, time, 1);
        if t.items.Some? {
          var items := t.items.value;
          ghost var before := productCount;
          var k := 0;
          while k < |items|
            invariant 0 <= k <= |items|
            invariant productCount == ItemsInto(before, items[..k])
          {
            assert items[..k + 1][..k] == items[..k];
            var it := items[k];
            if it.product.Some? {
              productCount := Bump(productCount, it.product.value, it.qty);
            }
            k := k + 1;
          }
          assert items[..k] == items;
        }
        i := i + 1;
      }
      assert transactions[..i] == transactions;
    }
    r := Some(Report(debit, credit, cash, transactionTime, productCount));
  }

  // ---------------------------------------------------------------------
  // The text

  /** `alignStr({ name, value, sep })`: `name:` padded on the right with
      `sep` (a space by default) to `width - |value|`, then `value`. */
  function AlignStr(name: string, value: string, sep: Option<string>, width: int): string {
    PadEnd(name + ":", width - |value|, sep.GetOr(" ")) + value
  }

  /** `''.padEnd(width, '-')` */
  function Ruler(width: int): string {
    PadEnd("", width, "-")
  }

  function Dollars(x: real): string {
    "$" + Fixed2(x)
  }

  function ProductLine(e: (Product, int), width: int): string {
    AlignStr(e.0.name, Dollars(e.0.costPrice * e.1 as real), None, width)
  }

  function HourLine(e: (string, int), width: int): string {
    AlignStr(e.0, IntString(e.1), None, width)
  }

  function Render(r: Report, width: int): ReportText {
    ReportText(
      [AlignStr("Credit", Dollars(r.credit), None, width),
       AlignStr("Debit", Dollars(r.debit), None, width),
       AlignStr("Cash", Dollars(r.cash), None, width)],
      Ruler(width),
      AlignStr("Total Sales", Dollars(r.TotalSales()), None, width),
      seq(|r.products|, i requires 0 <= i < |r.products| => ProductLine(r.products[i], width)),
      seq(|r.hours|, i requires 0 <= i < |r.hours| => HourLine(r.hours[i], width)))
  }

  // ---------------------------------------------------------------------
  // Properties

  /** A timestamp falls in the query window exactly when it lies, to the
      second, between the two days' starts, both included. */
  lemma {:induction false} WindowChronological(today: DateTime, tomorrow: DateTime, ts: DateTime)
    requires today.Valid() && today.FourDigitYear() && tomorrow.Valid() && tomorrow.FourDigitYear()
    requires ts.Valid() && ts.FourDigitYear()
    ensures Between(DatabaseString(ts), QueryWindow(today, tomorrow)) <==>
            !Before(ts, today) && !Before(tomorrow, ts)
  {
    DatabaseStringOrder(ts, today);
    DatabaseStringOrder(tomorrow, ts);
  }

  /** The three method totals add up to the price of every purchase with a
      known payment method; purchases with any other method are in no
      bucket. */
  lemma {:induction false} MethodTotalsPartition(ts: seq<Purchase>)
    ensures MethodTotal(ts, Debit) + MethodTotal(ts, Credit) + MethodTotal(ts, Cash) ==
            Sum(Filter(ts, (t: Purchase) => !t.paymentMethod.Unrecognised?), (t: Purchase) => t.price)
  {
    if ts != [] {
      MethodTotalsPartition(ts[1..]);
      var price := (t: Purchase) => t.price;
      SumFilterCons(ts, (t: Purchase) => t.paymentMethod == Debit, price);
      SumFilterCons(ts, (t: Purchase) => t.paymentMethod == Credit, price);
      SumFilterCons(ts, (t: Purchase) => t.paymentMethod == Cash, price);
      SumFilterCons(ts, (t: Purchase) => !t.paymentMethod.Unrecognised?, price);
    }
  }

  lemma {:induction false} SumFilterCons<T>(s: seq<T>, p: T -> bool, f: T -> real)
    requires s != []
    ensures Sum(Filter(s, p), f) == (if p(s[0]) then f(s[0]) else 0.0) + Sum(Filter(s[1..], p), f)
  {
    SumAppend(if p(s[0]) then [s[0]] else [], Filter(s[1..], p), f);
    assert [s[0]][1..] == [];
  }

  /** With every payment method known, the total sales are the sum of all
      prices (not of the amounts paid); no purchases give all zeros and
      empty tables. */
  lemma {:induction false} TotalSalesIsSumOfPrices(ts: seq<Purchase>, offset: int)
    requires forall t :: t in ts ==> !t.paymentMethod.Unrecognised?
    ensures Summarize(ts, offset).TotalSales() == Sum(ts, (t: Purchase) => t.price)
    ensures ts == [] ==> Summarize(ts, offset) == Report(0.0, 0.0, 0.0, [], [])
  {
    MethodTotalsPartition(ts);
    FilterAll(ts, (t: Purchase) => !t.paymentMethod.Unrecognised?);
  }

  lemma {:induction false} FilterAll<T>(s: seq<T>, p: T -> bool)
    requires forall x :: x in s ==> p(x)
    ensures Filter(s, p) == s
  {
    if s != [] {
      FilterAll(s[1..], p);
    }
  }

  /** Hour labels of the 24 hours of a day are all different, so every hour
      gets its own line. */
  lemma {:induction false} HourLabelInjective(h1: nat, h2: nat)
    requires h1 < 24 && h2 < 24
    ensures HourLabel(h1) == HourLabel(h2) <==> h1 == h2
  {
    if HourLabel(h1) == HourLabel(h2) {
      var a := if h1 > 12 then h1 - 12 else h1;
      var b := if h2 > 12 then h2 - 12 else h2;
      var n1, n2 := NatString(a), NatString(b);
      assert HourLabel(h1)[|HourLabel(h1)| - 2] == (if h1 > 12 then 'p' else 'a');
      assert HourLabel(h2)[|HourLabel(h2)| - 2] == (if h2 > 12 then 'p' else 'a');
      assert n1 == HourLabel(h1)[..|n1|] && n2 == HourLabel(h2)[..|n2|];
      assert |n1| == |n2|;
      NatStringValue(a);
      NatStringValue(b);
    }
  }

  /** The number of purchases of `ts` whose hour label is `key`. */
  function PurchasesAt(ts: seq<Purchase>, key: string, offset: int): nat {
    if ts == [] then 0
    else PurchasesAt(ts[..|ts| - 1], key, offset) + (if LabelOf(ts[|ts| - 1], offset) == key then 1 else 0)
  }

  /** Each label's count is the number of purchases made at that hour. */
  lemma {:induction false} HourCount(ts: seq<Purchase>, key: string, offset: int)
    ensures Lookup(HourTable(ts, offset), key) == PurchasesAt(ts, key, offset)
  {
    if ts != [] {
      HourCount(ts[..|ts| - 1], key, offset);
      BumpLookup(HourTable(ts[..|ts| - 1], offset), LabelOf(ts[|ts| - 1], offset), 1, key);
    }
  }

  /** The counts over all labels add up to the number of purchases, and no
      label appears twice. */
  lemma {:induction false} HourTotal(ts: seq<Purchase>, offset: int)
    ensures Total(HourTable(ts, offset)) == |ts|
    ensures DistinctKeys(HourTable(ts, offset))
  {
    if ts != [] {
      var ts' := ts[..|ts| - 1];
      HourTotal(ts', offset);
      BumpTotal(HourTable(ts', offset), LabelOf(ts[|ts| - 1], offset), 1);
      BumpKeys(HourTable(ts', offset), LabelOf(ts[|ts| - 1], offset), 1);
    }
  }

  /** All items of all purchases, in order; unloaded items count as none. */
  function AllItems(ts: seq<Purchase>): seq<PurchaseItem> {
    if ts == [] then [] else AllItems(ts[..|ts| - 1]) + ts[|ts| - 1].items.GetOr([])
  }

  function QtySum(items: seq<PurchaseItem>): int {
    if items == [] then 0 else items[0].qty + QtySum(items[1..])
  }

  /** The items that name product `p`. */
  function ItemsOf(items: seq<PurchaseItem>, p: Product): seq<PurchaseItem> {
    Filter(items, (it: PurchaseItem) => it.product == Some(p))
  }

  lemma {:induction false} QtySumAppend(a: seq<PurchaseItem>, b: seq<PurchaseItem>)
    ensures QtySum(a + b) == QtySum(a) + QtySum(b)
  {
    if a == [] {
      assert a + b == b;
    } else {
      assert (a + b)[1..] == a[1..] + b;
      QtySumAppend(a[1..], b);
    }
  }

  lemma {:induction false} ItemsIntoLookup(d: Dict<Product>, items: seq<PurchaseItem>, p: Product)
    ensures Lookup(ItemsInto(d, items), p) == Lookup(d, p) + QtySum(ItemsOf(items, p))
  {
    if items != [] {
      var items', it := items[..|items| - 1], items[|items| - 1];
      ItemsIntoLookup(d, items', p);
      if it.product.Some? {
        BumpLookup(ItemsInto(d, items'), it.product.value, it.qty, p);
      }
      assert items == items' + [it];
      FilterAppend(items', [it], (it: PurchaseItem) => it.product == Some(p));
      QtySumAppend(ItemsOf(items', p), ItemsOf([it], p));
      assert [it][1..] == [];
    }
  }

  /** Each product's figure is the total quantity of it over every item of
      every purchase; items without a product are in no figure. */
  lemma {:induction false} ProductCount(ts: seq<Purchase>, p: Product)
    ensures Lookup(ProductTable(ts), p) == QtySum(ItemsOf(AllItems(ts), p))
  {
    if ts != [] {
      var ts' := ts[..|ts| - 1];
      ProductCount(ts', p);
      var more := ts[|ts| - 1].items.GetOr([]);
      ItemsIntoLookup(ProductTable(ts'), more, p);
      FilterAppend(AllItems(ts'), more, (it: PurchaseItem) => it.product == Some(p));
      QtySumAppend(ItemsOf(AllItems(ts'), p), ItemsOf(more, p));
    }
  }

  /** `alignStr` starts with `name:` and ends with `value`. When both fit in
      the width (and the separator is not empty) the line is exactly `width`
      long with the gap filled by the separator; when they do not fit the
      two are simply joined. */
  lemma {:induction false} AlignStrShape(name: string, value: string, sep: Option<string>, width: int)
    ensures var r := AlignStr(name, value, sep, width);
      var pad := sep.GetOr(" ");
      |r| >= |name| + 1 + |value| &&
      r[..|name| + 1] == name + ":" && r[|r| - |value|..] == value &&
      (pad != [] && |name| + 1 + |value| <= width ==>
        |r| == width &&
        forall i :: |name| + 1 <= i < width - |value| ==> r[i] == pad[(i - |name| - 1) % |pad|]) &&
      (width <= |name| + 1 + |value| ==> r == name + ":" + value)
  {
    var head := PadEnd(name + ":", width - |value|, sep.GetOr(" "));
    assert head[..|name| + 1] == name + ":";
    assert AlignStr(name, value, sep, width) == head + value;
  }

  /** The separator lines are exactly `width` dashes. */
  lemma {:induction false} RulerShape(width: nat)
    ensures |Ruler(width)| == width && forall i :: 0 <= i < width ==> Ruler(width)[i] == '-'
  {
  }

  /** The method lines come in the order credit, debit, cash, each opening
      with its label and ending in its dollar amount. */
  lemma {:induction false} RenderedMethodLines(r: Report, width: int)
    ensures var lines := Render(r, width).methodLines;
      |lines| == 3 &&
      lines[0][..7] == "Credit:" && EndsWith(lines[0], Dollars(r.credit)) &&
      lines[1][..6] == "Debit:" && EndsWith(lines[1], Dollars(r.debit)) &&
      lines[2][..5] == "Cash:" && EndsWith(lines[2], Dollars(r.cash))
  {
    AlignStrShape("Credit", Dollars(r.credit), None, width);
    AlignStrShape("Debit", Dollars(r.debit), None, width);
    AlignStrShape("Cash", Dollars(r.cash), None, width);
  }

  predicate EndsWith(line: string, v: string) {
    |line| >= |v| && line[|line| - |v|..] == v
  }

  /** There is one product line per product, naming it and ending with its
      cost price times the quantity sold, and one line per hour label. */
  lemma {:induction false} RenderedProductLine(r: Report, width: int, i: nat)
    requires i < |r.products|
    ensures var text := Render(r, width);
      |text.productLines| == |r.products| && |text.hourLines| == |r.hours| &&
      var line := text.productLines[i];
      EndsWith(line, Dollars(r.products[i].0.costPrice * r.products[i].1 as real)) &&
      line[..|r.products[i].0.name| + 1] == r.products[i].0.name + ":"
  {
    var e := r.products[i];
    assert Render(r, width).productLines[i] == ProductLine(e, width);
    AlignStrShape(e.0.name, Dollars(e.0.costPrice * e.1 as real), None, width);
  }
}
