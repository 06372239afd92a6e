/** The order ledger of backend/store.py: line items, orders, and the Store
    that prices raw order lines against a menu, keeps every accepted order,
    assigns consecutive order ids and accumulates revenue excluding GST. */
module Store {
  import opened Common
  import opened Money
  import opened Json

  /** The Python exception class an error is raised as. */
  datatype ExceptionKind = KeyError | ValueError

  /** Why an order, an order line or a summary was refused. */
  datatype Error =
    | EmptyOrder                            // ValueError: no lines at all
    | MissingId                             // KeyError: line has no 'id'
    | MissingQty                            // KeyError: line has no 'qty'
    | InvalidId                             // ValueError: int(id) fails
    | InvalidQty                            // ValueError: int(qty) fails
    | NonPositiveQty(menuId: int, qty: int) // ValueError: qty <= 0
    | UnknownMenuId(menuId: int)            // KeyError: id not on the menu
    | MissingKey(key: string)               // KeyError: summary dict lacks a key

  function Kind(e: Error): ExceptionKind {
    match e
    case EmptyOrder | InvalidId | InvalidQty | NonPositiveQty(_, _) => ValueError
    case MissingId | MissingQty | UnknownMenuId(_) | MissingKey(_) => KeyError
  }

  /** The value under one key of a raw order line, after Python's `int(...)`. */
  datatype RawValue = Missing | NotInt | Int(n: int)

  /** One raw order line `{'id': ..., 'qty': ...}`. */
  datatype RawLine = RawLine(id: RawValue, qty: RawValue)

  /** A menu entry; 'code' and 'name' may be absent, 'price' is the Decimal of its text. */
  datatype MenuEntry = MenuEntry(code: Option<string>, name: Option<string>, price: real)

  type Menu = map<int, MenuEntry>

  function CodeOf(e: MenuEntry): string { e.code.GetOr("") }
  function NameOf(e: MenuEntry): string { e.name.GetOr("") }

  /** The ledger stores menu ids as ints; the order services store `str(menu_id)`. */
  datatype ItemId = Num(n: int) | Text(s: string)

  datatype LineItem = LineItem(id: ItemId, code: string, name: string, qty: int, unitPrice: real, lineTotal: real)

  datatype Order = Order(id: int, items: seq<LineItem>, subtotal: real, gst: real, total: real, timestamp: string)

  /** Sum of the line totals, added left to right. */
  function SumLineTotals(items: seq<LineItem>): real {
    if items == [] then 0.0 else SumLineTotals(items[..|items| - 1]) + items[|items| - 1].lineTotal
  }

  lemma {:induction false} SumLineTotalsCents(items: seq<LineItem>)
    requires forall k :: 0 <= k < |items| ==> IsCents(items[k].lineTotal)
    ensures IsCents(SumLineTotals(items))
  {
    if items != [] {
      SumLineTotalsCents(items[..|items| - 1]);
      CentsAdd(SumLineTotals(items[..|items| - 1]), items[|items| - 1].lineTotal);
    }
  }

  /** Sum of the order subtotals, added left to right. */
  function SumSubtotals(orders: seq<Order>): real {
    if orders == [] then 0.0 else SumSubtotals(orders[..|orders| - 1]) + orders[|orders| - 1].subtotal
  }

  /** A line as the ledger stores it: positive quantity, whole-cent amounts. */
  predicate WellFormedLine(li: LineItem) {
    li.qty > 0 && IsCents(li.unitPrice) && IsCents(li.lineTotal)
  }

  /** An order as the ledger stores it: at least one line, the subtotal is the
      exact sum of the line totals, GST is 10% of it rounded to the cent and
      the total is exactly subtotal plus GST. */
  predicate WellFormedOrder(o: Order) {
    && |o.items| > 0
    && (forall k :: 0 <= k < |o.items| ==> WellFormedLine(o.items[k]))
    && o.subtotal == SumLineTotals(o.items)
    && o.gst == Quantize(o.subtotal * GstRate)
    && o.total == o.subtotal + o.gst
  }

  lemma {:induction false} SumSubtotalsCents(orders: seq<Order>)
    requires forall k :: 0 <= k < |orders| ==> WellFormedOrder(orders[k])
    ensures IsCents(SumSubtotals(orders))
  {
    if orders != [] {
      var last := orders[|orders| - 1];
      SumSubtotalsCents(orders[..|orders| - 1]);
      SumLineTotalsCents(last.items);
      CentsAdd(SumSubtotals(orders[..|orders| - 1]), last.subtotal);
    }
  }

  /** One iteration of the pricing loop of `add_order`: the checks in the
      order the ledger makes them, then the priced line. A missing 'qty' reads
      as 0, so it is refused as a non-positive quantity. */
  function PriceLine(entry: RawLine, menu: Menu): (r: Result<LineItem, Error>)
    ensures r.Ok? <==> entry.id.Int? && entry.qty.Int? && entry.qty.n > 0 && entry.id.n in menu
    ensures r.Ok? ==>
      var e := menu[entry.id.n];
      && r.value.id == Num(entry.id.n) && r.value.code == CodeOf(e) && r.value.name == NameOf(e)
      && r.value.qty == entry.qty.n
      && r.value.unitPrice == Quantize(e.price)
      && r.value.lineTotal == Quantize(LineAmount(e.price, entry.qty.n))
    ensures r.Err? ==>
      Kind(r.error) == (if entry.id.Missing? || (entry.id.Int? && entry.qty.Int? && entry.qty.n > 0) then KeyError else ValueError)
    ensures entry.id.Int? && entry.qty.Missing? ==> r == Err(NonPositiveQty(entry.id.n, 0))
    ensures r.Ok? ==> WellFormedLine(r.value)
  {
    match entry.id
    case Missing => Err(MissingId)
    case NotInt => Err(InvalidId)
    case Int(mid) =>
      if entry.qty.NotInt? then Err(InvalidQty)
      else
        var qty := if entry.qty.Int? then entry.qty.n else 0;
        if qty <= 0 then Err(NonPositiveQty(mid, qty))
        else if mid !in menu then Err(UnknownMenuId(mid))
        else Ok(PricedLine(mid, menu[mid], qty))
  }

  /** The line `add_order` records for `qty` of menu entry `e`: the unit price
      and the line total (computed from the unrounded price) each rounded to
      the cent. */
  function PricedLine(mid: int, e: MenuEntry, qty: int): (li: LineItem)
    requires qty > 0
    ensures WellFormedLine(li)
  {
    var lineTotal := Quantize(LineAmount(e.price, qty));
    LineItem(Num(mid), CodeOf(e), NameOf(e), qty, Quantize(e.price), lineTotal)
  }

  /** The lines `add_order` builds for a non-empty request, or the error of the
      first line it refuses. */
  function PriceAll(raw: seq<RawLine>, menu: Menu): (r: Result<seq<LineItem>, Error>)
    ensures r.Ok? <==> forall k :: 0 <= k < |raw| ==> PriceLine(raw[k], menu).Ok?
    ensures r.Ok? ==> |r.value| == |raw| && forall k :: 0 <= k < |raw| ==> r.value[k] == PriceLine(raw[k], menu).value
    ensures r.Err? ==> exists k :: 0 <= k < |raw| && (forall j :: 0 <= j < k ==> PriceLine(raw[j], menu).Ok?) && PriceLine(raw[k], menu) == Err(r.error)
  {
    MapAll(raw, (x: RawLine) => PriceLine(x, menu))
  }

  /** `add_order` stops at the first line it refuses, with that line's error. */
  lemma PriceAllStopsAt(raw: seq<RawLine>, menu: Menu, i: int)
    requires 0 <= i < |raw|
    requires forall k :: 0 <= k < i ==> PriceLine(raw[k], menu).Ok?
    requires PriceLine(raw[i], menu).Err?
    ensures PriceAll(raw, menu) == Err(PriceLine(raw[i], menu).error)
  {
    var all := PriceAll(raw, menu);
    assert all.Err?;
    var k :| 0 <= k < |raw| && (forall j :: 0 <= j < k ==> PriceLine(raw[j], menu).Ok?) && PriceLine(raw[k], menu) == Err(all.error);
    assert k == i;
  }

  lemma PriceAllIs(raw: seq<RawLine>, menu: Menu, items: seq<LineItem>)
    requires |items| == |raw|
    requires forall k :: 0 <= k < |raw| ==> PriceLine(raw[k], menu).Ok? && items[k] == PriceLine(raw[k], menu).value
    ensures PriceAll(raw, menu) == Ok(items)
  {
    assert PriceAll(raw, menu).value == items;
  }

  /** The order `add_order` records from whole-cent lines and their running
      subtotal is well formed: rounding the subtotal and the total changes
      nothing. */
  lemma RecordedOrder(id: int, items: seq<LineItem>, timestamp: string, running: real, subtotal: real, gst: real, total: real)
    requires |items| > 0 && forall k :: 0 <= k < |items| ==> WellFormedLine(items[k])
    requires running == SumLineTotals(items)
    requires subtotal == Quantize(running) && gst == Quantize(subtotal * GstRate) && total == Quantize(subtotal + gst)
    ensures subtotal == running && WellFormedOrder(Order(id, items, subtotal, gst, total, timestamp))
  {
    SumLineTotalsCents(items);
    CentsAdd(running, gst);
  }

  /** The invariant of the ledger: orders numbered 1, 2, ... in storage order,
      each well formed, the next id one past the last, and the revenue the sum
      of the subtotals. */
  ghost predicate Ledger(orders: seq<Order>, revenue: real, nextId: int) {
    && nextId == |orders| + 1
    && (forall k :: 0 <= k < |orders| ==> orders[k].id == k + 1 && WellFormedOrder(orders[k]))
    && revenue == SumSubtotals(orders)
  }

  lemma LedgerSnoc(orders: seq<Order>, revenue: real, nextId: int, o: Order)
    requires Ledger(orders, revenue, nextId)
    requires o.id == nextId && WellFormedOrder(o)
    ensures Ledger(orders + [o], revenue + o.subtotal, nextId + 1)
  {
    assert (orders + [o])[..|orders|] == orders;
  }

  /** The loop of `add_order` over the raw lines: each line priced in turn,
      the running subtotal the sum of the line totals, and the first line
      refused ending the loop with that line's error. */
  method PriceItems(rawItems: seq<RawLine>, menu: Menu) returns (r: Result<seq<LineItem>, Error>, subtotal: real)
    ensures r == PriceAll(rawItems, menu)
    ensures r.Ok? ==> subtotal == SumLineTotals(r.value) && forall k :: 0 <= k < |r.value| ==> WellFormedLine(r.value[k])
  {
    var items: seq<LineItem> := [];
    subtotal := 0.0;
    var i := 0;
    while i < |rawItems|
      invariant 0 <= i <= |rawItems|
      invariant |items| == i
      invariant forall k :: 0 <= k < i ==> PriceLine(rawItems[k], menu).Ok? && items[k] == PriceLine(rawItems[k], menu).value
      invariant forall k :: 0 <= k < i ==> WellFormedLine(items[k])
      invariant subtotal == SumLineTotals(items)
    {
      var line := PriceLine(rawItems[i], menu);
      if line.Err? {
        PriceAllStopsAt(rawItems, menu, i);
        return Err(line.error), subtotal;
      }
      assert (items + [line.value])[..i] == items;
      items := items + [line.value];
      subtotal := subtotal + line.value.lineTotal;
      i := i + 1;
    }
    PriceAllIs(rawItems, menu, items);
    r := Ok(items);
  }

  /** All lines of all orders, in order. */
  function AllLines(orders: seq<Order>): seq<LineItem> {
    if orders == [] then [] else AllLines(orders[..|orders| - 1]) + orders[|orders| - 1].items
  }

  lemma AllLinesSnoc(orders: seq<Order>, i: int)
    requires 0 <= i < |orders|
    ensures AllLines(orders[..i + 1]) == AllLines(orders[..i]) + orders[i].items
  {
    assert orders[..i + 1][..i] == orders[..i];
  }

  /** Total quantity ordered under `code`. */
  function QtyOfCode(lines: seq<LineItem>, code: string): int {
    if lines == [] then 0
    else QtyOfCode(lines[..|lines| - 1], code) + (if lines[|lines| - 1].code == code then lines[|lines| - 1].qty else 0)
  }

  function Codes(lines: seq<LineItem>): set<string> {
    set li | li in lines :: li.code
  }

  /** The per-code totals `_recalculate_counts` reports, counting the lines
      in order with `counts[code] = counts.get(code, 0) + qty`; the result has
      one key per code that occurs in some line, mapped to the total quantity
      ordered under it. */
  function CodeCounts(lines: seq<LineItem>): (m: map<string, int>)
    ensures m.Keys == Codes(lines)
    ensures forall c :: c in m ==> m[c] == QtyOfCode(lines, c)
  {
    if lines == [] then map[]
    else
      var init, li := lines[..|lines| - 1], lines[|lines| - 1];
      var m := CodeCounts(init);
      assert lines == init + [li];
      CodesSnoc(init, li);
      QtyOfAbsentCode(init, li.code);
      CountLineInto(m, li)
  }

  /** `counts[line.code] = counts.get(line.code, 0) + line.qty`. */
  function CountLineInto(counts: map<string, int>, li: LineItem): map<string, int> {
    counts[li.code := Get(counts, li.code, 0) + li.qty]
  }

  function CountsOf(orders: seq<Order>): map<string, int> {
    CodeCounts(AllLines(orders))
  }

  lemma CodesSnoc(lines: seq<LineItem>, li: LineItem)
    ensures Codes(lines + [li]) == Codes(lines) + {li.code}
  {
    var ext := lines + [li];
    forall c | c in Codes(ext) ensures c in Codes(lines) + {li.code} {
      var x :| x in ext && x.code == c;
    }
    forall c | c in Codes(lines) ensures c in Codes(ext) {
      var x :| x in lines && x.code == c;
      assert x in ext;
    }
    assert li in ext;
  }

  lemma {:induction false} QtyOfAbsentCode(lines: seq<LineItem>, code: string)
    ensures code !in Codes(lines) ==> QtyOfCode(lines, code) == 0
  {
    if lines != [] && code !in Codes(lines) {
      var init := lines[..|lines| - 1];
      assert lines[|lines| - 1] in lines;
      assert Codes(init) <= Codes(lines) by {
        forall c | c in Codes(init) ensures c in Codes(lines) {
          var li :| li in init && li.code == c;
          assert li in lines;
        }
      }
      QtyOfAbsentCode(init, code);
    }
  }

  /** Counting one more line: the dict update `counts[code] = counts.get(code, 0) + qty`. */
  lemma CodeCountsSnoc(lines: seq<LineItem>, li: LineItem)
    ensures CodeCounts(lines + [li]) == CountLineInto(CodeCounts(lines), li)
  {
    var ext := lines + [li];
    assert ext[..|ext| - 1] == lines && ext[|ext| - 1] == li;
  }

  lemma PrefixSnoc(done: seq<LineItem>, items: seq<LineItem>, j: int)
    requires 0 <= j < |items|
    ensures done + items[..j] + [items[j]] == done + items[..j + 1]
  {
    assert items[..j + 1] == items[..j] + [items[j]];
  }

  /** Quantities ordered under a code add up over consecutive groups of lines. */
  lemma {:induction false} QtyOfCodeConcat(a: seq<LineItem>, b: seq<LineItem>, code: string)
    ensures QtyOfCode(a + b, code) == QtyOfCode(a, code) + QtyOfCode(b, code)
  {
    if b == [] {
      assert a + b == a;
    } else {
      assert (a + b)[..|a + b| - 1] == a + b[..|b| - 1];
      QtyOfCodeConcat(a, b[..|b| - 1], code);
    }
  }

  /** Reading a code's count with a default of 0 gives its total quantity,
      whether or not the code occurs. */
  lemma CountOfCode(lines: seq<LineItem>, code: string)
    ensures Get(CodeCounts(lines), code, 0) == QtyOfCode(lines, code)
  {
    QtyOfAbsentCode(lines, code);
  }

  /** Recording an order adds exactly its own quantities to the counts. */
  lemma CountsAfterOrder(orders: seq<Order>, o: Order)
    ensures forall c :: Get(CountsOf(orders + [o]), c, 0) == Get(CountsOf(orders), c, 0) + QtyOfCode(o.items, c)
  {
    var ext := orders + [o];
    assert ext[..|ext| - 1] == orders;
    assert AllLines(ext) == AllLines(orders) + o.items;
    forall c ensures Get(CountsOf(ext), c, 0) == Get(CountsOf(orders), c, 0) + QtyOfCode(o.items, c) {
      CountOfCode(AllLines(ext), c);
      CountOfCode(AllLines(orders), c);
      QtyOfCodeConcat(AllLines(orders), o.items, c);
    }
  }

  /** What `asdict(li)` gives: the dataclass fields, amounts as Decimals. */
  function LineAsDict(li: LineItem): map<string, Json> {
    map["id" := ItemIdJson(li.id), "code" := JStr(li.code), "name" := JStr(li.name), "qty" := JInt(li.qty),
        "unit_price" := JDec(li.unitPrice), "line_total" := JDec(li.lineTotal)]
  }

  function ItemIdJson(id: ItemId): Json {
    match id
    case Num(n) => JInt(n)
    case Text(s) => JStr(s)
  }

  function LinesAsDicts(items: seq<LineItem>): (js: seq<Json>)
    ensures |js| == |items|
    ensures forall k :: 0 <= k < |items| ==> js[k] == JObj(LineAsDict(items[k]))
  {
    if items == [] then [] else [JObj(LineAsDict(items[0]))] + LinesAsDicts(items[1..])
  }

  /** What `asdict(o)` gives: nested line items become dicts too. */
  function OrderAsDict(o: Order): map<string, Json> {
    map["id" := JInt(o.id), "items" := JList(LinesAsDicts(o.items)), "subtotal" := JDec(o.subtotal),
        "gst" := JDec(o.gst), "total" := JDec(o.total), "timestamp" := JStr(o.timestamp)]
  }

  /** One line of `to_serializable`: `asdict(li)` with both amounts as strings. */
  function SerializedLine(li: LineItem): Json {
    JObj(LineAsDict(li)["unit_price" := Str(JDec(li.unitPrice))]["line_total" := Str(JDec(li.lineTotal))])
  }

  function SerializedLines(items: seq<LineItem>): (js: seq<Json>)
    ensures |js| == |items|
    ensures forall k :: 0 <= k < |items| ==> js[k] == SerializedLine(items[k])
  {
    if items == [] then [] else [SerializedLine(items[0])] + SerializedLines(items[1..])
  }

  /** One order of `to_serializable`: `asdict(o)` with its lines re-serialised
      and its three amounts as strings. */
  function SerializedOrder(o: Order): Json {
    JObj(OrderAsDict(o)["items" := JList(SerializedLines(o.items))]
         ["subtotal" := Str(JDec(o.subtotal))]["gst" := Str(JDec(o.gst))]["total" := Str(JDec(o.total))])
  }

  function CountsJson(counts: map<string, int>): (j: Json)
    ensures j.JObj? && j.fields.Keys == counts.Keys
    ensures forall c :: c in counts ==> j.fields[c] == JInt(counts[c])
  {
    JObj(map c | c in counts :: JInt(counts[c]))
  }

  /** The keys of the ledger summary dict. */
  const SummaryKeys: set<string> := {"orders", "revenue_ex_gst", "gst", "revenue_inc_gst", "counts"}

  class Store {
    var orders: seq<Order>
    var revenueExGst: real
    var nextOrderId: int

    /** The ledger's invariant: order ids run 1, 2, 3, ... in storage order,
        the next id follows the last, every stored order is well formed and
        the revenue is the exact sum of the stored subtotals. */
    ghost predicate Valid()
      reads this
    {
      Ledger(orders, revenueExGst, nextOrderId)
    }

    constructor ()
      ensures Valid()
      ensures orders == [] && revenueExGst == 0.0 && nextOrderId == 1
    {
      orders := [];
      revenueExGst := 0.0;
      nextOrderId := 1;
    }

    /** `add_order`: prices every line (stopping at the first bad one), then
        records the order. Nothing changes unless the whole order is accepted. */
    method AddOrder(rawItems: seq<RawLine>, menu: Menu, timestamp: string) returns (r: Result<Order, Error>)
      requires Valid()
      modifies this
      ensures Valid()
      ensures r.Ok? <==> rawItems != [] && PriceAll(rawItems, menu).Ok?
      ensures r.Err? ==> r.error == (if rawItems == [] then EmptyOrder else PriceAll(rawItems, menu).error)
      ensures r.Err? ==> orders == old(orders) && revenueExGst == old(revenueExGst) && nextOrderId == old(nextOrderId)
      ensures r.Ok? ==>
        && r.value.id == old(nextOrderId)
        && r.value.items == PriceAll(rawItems, menu).value
        && r.value.timestamp == timestamp
        && WellFormedOrder(r.value)
        && orders == old(orders) + [r.value]
        && revenueExGst == old(revenueExGst) + r.value.subtotal
        && nextOrderId == old(nextOrderId) + 1
    {
      if rawItems == [] {
        return Err(EmptyOrder);
      }
      var priced, subtotal := PriceItems(rawItems, menu);
      if priced.Err? {
        return Err(priced.error);
      }
      var items := priced.value;
      ghost var running := subtotal;
      subtotal := Quantize(subtotal);
      var gst := Quantize(subtotal * GstRate);
      var total := Quantize(subtotal + gst);
      var order := Order(nextOrderId, items, subtotal, gst, total, timestamp);
      RecordedOrder(nextOrderId, items, timestamp, running, subtotal, gst, total);
      LedgerSnoc(orders, revenueExGst, nextOrderId, order);
      orders := orders + [order];
      revenueExGst := revenueExGst + subtotal;
      nextOrderId := nextOrderId + 1;
      return Ok(order);
    }

    /** `_recalculate_counts`: total quantity per line code over all stored orders. */
    method RecalculateCounts() returns (counts: map<string, int>)
      ensures counts == CountsOf(orders)
      ensures forall c :: c in counts <==> c in Codes(AllLines(orders))
      ensures forall c :: c in counts ==> counts[c] == QtyOfCode(AllLines(orders), c)
    {
      counts := map[];
      ghost var seen: seq<LineItem> := [];
      var i := 0;
      while i < |orders|
        invariant 0 <= i <= |orders|
        invariant seen == AllLines(orders[..i])
        invariant counts == CodeCounts(seen)
      {
        var items := orders[i].items;
        ghost var done := seen;
        AllLinesSnoc(orders, i);
        var j := 0;
        while j < |items|
          invariant 0 <= j <= |items|
          invariant seen == done + items[..j]
          invariant counts == CodeCounts(seen)
        {
          var line := items[j];
          CodeCountsSnoc(seen, line);
          PrefixSnoc(done, items, j);
          counts := CountLineInto(counts, line);
          seen := seen + [line];
          j := j + 1;
        }
        assert items[..j] == items;
        i := i + 1;
      }
      assert orders[..i] == orders;
    }

    /** `get_summary`: the order count, the revenue rounded to the cent, GST
        as 10% of it rounded to the cent, the total including GST rounded to
        the cent, and the per-code counts. */
    function GetSummary(): (s: map<string, Json>)
      reads this
      ensures s.Keys == SummaryKeys
      ensures s["orders"] == JInt(|orders|)
      ensures s["counts"] == CountsJson(CountsOf(orders))
      ensures s["revenue_ex_gst"].JDec? && s["gst"].JDec? && s["revenue_inc_gst"].JDec?
      ensures IsCents(s["revenue_ex_gst"].d) && IsCents(s["gst"].d) && IsCents(s["revenue_inc_gst"].d)
      ensures s["gst"].d == Quantize(revenueExGst * GstRate)
      ensures s["revenue_ex_gst"] == JDec(Quantize(revenueExGst))
      ensures s["revenue_inc_gst"] == JDec(Quantize(revenueExGst + s["gst"].d))
    {
      var gstTotal := Quantize(revenueExGst * GstRate);
      map["orders" := JInt(|orders|),
          "revenue_ex_gst" := JDec(Quantize(revenueExGst)),
          "gst" := JDec(gstTotal),
          "revenue_inc_gst" := JDec(Quantize(revenueExGst + gstTotal)),
          "counts" := CountsJson(CountsOf(orders))]
    }

    /** `to_serializable`: every stored order with its amounts as strings, the
        per-code counts and the rounded revenue as a string. */
    function ToSerializable(): (j: Json)
      reads this
      ensures j.JObj? && j.fields.Keys == {"orders", "counts", "revenue_ex_gst"}
      ensures j.fields["orders"].JList? && |j.fields["orders"].elems| == |orders|
      ensures forall k :: 0 <= k < |orders| ==> j.fields["orders"].elems[k] == SerializedOrder(orders[k])
      ensures j.fields["counts"] == CountsJson(CountsOf(orders))
      ensures j.fields["revenue_ex_gst"] == JShown(JDec(Quantize(revenueExGst)))
    {
      var os := orders;
      JObj(map["orders" := JList(seq(|os|, k requires 0 <= k < |os| => SerializedOrder(os[k]))),
               "counts" := CountsJson(CountsOf(orders)),
               "revenue_ex_gst" := Str(JDec(Quantize(revenueExGst)))])
    }
  }

  /** On a valid ledger the rounding in `get_summary` and `to_serializable` is
      exact: the reported revenue is the stored revenue, and the reported total
      including GST is exactly revenue plus the reported GST. */
  lemma SummaryIsExact(store: Store)
    requires store.Valid()
    ensures store.GetSummary()["revenue_ex_gst"] == JDec(store.revenueExGst)
    ensures store.GetSummary()["revenue_inc_gst"] == JDec(store.revenueExGst + store.GetSummary()["gst"].d)
    ensures store.ToSerializable().fields["revenue_ex_gst"] == JShown(JDec(store.revenueExGst))
  {
    SumSubtotalsCents(store.orders);
    CentsAdd(store.revenueExGst, Quantize(store.revenueExGst * GstRate));
  }
}
