/** The order services of backend/services/orders.py: line validation, unrounded
    line items and totals, the store-wide summary, and the dict serialisers. */
module Orders {
  import opened Common
  import opened Money
  import opened Json
  import opened Store

  /** `validate_line`: both keys must be present, both must convert to ints, the
      quantity must be positive and the id must be on the menu, checked in
      that order; the first failed check is the exception raised. */
  function ValidateLine(menu: Menu, line: RawLine): (r: Result<(int, int), Error>)
    ensures r.Ok? <==> line.id.Int? && line.qty.Int? && line.qty.n > 0 && line.id.n in menu
    ensures r.Ok? ==> r.value == (line.id.n, line.qty.n)
    ensures line.id.Missing? ==> r == Err(MissingId)
    ensures !line.id.Missing? && line.qty.Missing? ==> r == Err(MissingQty)
    ensures line.id.NotInt? && !line.qty.Missing? ==> r == Err(InvalidId)
    ensures line.id.Int? && line.qty.NotInt? ==> r == Err(InvalidQty)
    ensures line.id.Int? && line.qty.Int? && line.qty.n <= 0 ==> r == Err(NonPositiveQty(line.id.n, line.qty.n))
    ensures r.Err? ==>
      Kind(r.error) == (if line.id.Missing? || line.qty.Missing? || (line.id.Int? && line.qty.Int? && line.qty.n > 0) then KeyError else ValueError)
  {
    if line.id.Missing? then Err(MissingId)
    else if line.qty.Missing? then Err(MissingQty)
    else if line.id.NotInt? then Err(InvalidId)
    else if line.qty.NotInt? then Err(InvalidQty)
    else if line.qty.n <= 0 then Err(NonPositiveQty(line.id.n, line.qty.n))
    else if line.id.n !in menu then Err(UnknownMenuId(line.id.n))
    else Ok((line.id.n, line.qty.n))
  }

  /** The line item `build_line_items` makes for a validated line: the id as
      text, the menu price as given and the exact, unrounded line total. */
  function ServiceLine(menu: Menu, mid: int, qty: int): LineItem
    requires mid in menu
  {
    var entry := menu[mid];
    LineItem(Text(IntToStr(mid)), CodeOf(entry), NameOf(entry), qty, entry.price, LineAmount(entry.price, qty))
  }

  function BuildLine(menu: Menu, raw: RawLine): Result<LineItem, Error> {
    match ValidateLine(menu, raw)
    case Err(e) => Err(e)
    case Ok((mid, qty)) => Ok(ServiceLine(menu, mid, qty))
  }

  /** What `build_line_items` returns or raises: one unrounded line item per
      raw line, in the same order, or the error of the first bad line. */
  function BuiltLines(raw: seq<RawLine>, menu: Menu): (r: Result<seq<LineItem>, Error>)
    ensures raw == [] ==> r == Err(EmptyOrder)
    ensures r.Ok? <==> raw != [] && forall k :: 0 <= k < |raw| ==> ValidateLine(menu, raw[k]).Ok?
    ensures r.Ok? ==> |r.value| == |raw| && forall k :: 0 <= k < |raw| ==>
      var mid := raw[k].id.n;
      && r.value[k] == ServiceLine(menu, mid, raw[k].qty.n)
      && r.value[k].id == Text(IntToStr(mid))
      && r.value[k].code == CodeOf(menu[mid]) && r.value[k].name == NameOf(menu[mid])
      && r.value[k].qty == raw[k].qty.n
      && r.value[k].unitPrice == menu[mid].price
      && r.value[k].lineTotal == LineAmount(menu[mid].price, raw[k].qty.n)
    ensures r.Err? && raw != [] ==>
      exists k :: 0 <= k < |raw| && (forall j :: 0 <= j < k ==> ValidateLine(menu, raw[j]).Ok?) && ValidateLine(menu, raw[k]) == Err(r.error)
  {
    if raw == [] then Err(EmptyOrder)
    else
      var r := MapAll(raw, (x: RawLine) => BuildLine(menu, x));
      assert forall k :: 0 <= k < |raw| ==> (BuildLine(menu, raw[k]).Ok? <==> ValidateLine(menu, raw[k]).Ok?);
      r
  }

  /** `build_line_items`. */
  method BuildLineItems(raw: seq<RawLine>, menu: Menu) returns (r: Result<seq<LineItem>, Error>)
    ensures r == BuiltLines(raw, menu)
  {
    if raw == [] {
      return Err(EmptyOrder);
    }
    var items: seq<LineItem> := [];
    for i := 0 to |raw|
      invariant |items| == i
      invariant forall k :: 0 <= k < i ==> ValidateLine(menu, raw[k]).Ok? && items[k] == ServiceLine(menu, raw[k].id.n, raw[k].qty.n)
    {
      var v := ValidateLine(menu, raw[i]);
      if v.Err? {
        ghost var all := BuiltLines(raw, menu);
        ghost var k :| 0 <= k < |raw| && (forall j :: 0 <= j < k ==> ValidateLine(menu, raw[j]).Ok?) && ValidateLine(menu, raw[k]) == Err(all.error);
        assert k == i;
        return Err(v.error);
      }
      var (mid, qty) := v.value;
      var entry := menu[mid];
      var unitPrice := entry.price;
      var lineTotal := LineAmount(unitPrice, qty);
      items := items + [LineItem(Text(IntToStr(mid)), CodeOf(entry), NameOf(entry), qty, unitPrice, lineTotal)];
    }
    assert items == BuiltLines(raw, menu).value;
    return Ok(items);
  }

  /** The dict `calculate_order_totals` returns. */
  datatype Totals = Totals(subtotal: real, gst: real, total: real)

  /** `calculate_order_totals`: no rounding anywhere. */
  function CalculateOrderTotals(items: seq<LineItem>): (t: Totals)
    ensures t.subtotal == SumLineTotals(items)
    ensures t.gst == t.subtotal * GstRate
    ensures t.total == t.subtotal + t.gst
    ensures t.total == SumLineTotals(items) * (1.0 + GstRate)
  {
    var subtotal := SumLineTotals(items);
    var gst := subtotal * GstRate;
    Totals(subtotal, gst, subtotal + gst)
  }

  /** `generate_daily_summary`: the ledger's figures without any rounding; its
      GST rounded to the cent is the GST `get_summary` reports. */
  function GenerateDailySummary(store: Store): (s: map<string, Json>)
    reads store
    ensures s.Keys == SummaryKeys
    ensures s["orders"] == JInt(|store.orders|)
    ensures s["counts"] == CountsJson(CountsOf(store.orders))
    ensures s["revenue_ex_gst"] == JDec(store.revenueExGst)
    ensures s["gst"].JDec? && s["revenue_inc_gst"].JDec?
    ensures s["gst"].d == store.revenueExGst * GstRate
    ensures s["revenue_inc_gst"].d == s["revenue_ex_gst"].d + s["gst"].d
    ensures store.GetSummary()["gst"] == JDec(Quantize(s["gst"].d))
  {
    var gstTotal := store.revenueExGst * GstRate;
    map["orders" := JInt(|store.orders|),
        "revenue_ex_gst" := JDec(store.revenueExGst),
        "gst" := JDec(gstTotal),
        "revenue_inc_gst" := JDec(store.revenueExGst + gstTotal),
        "counts" := CountsJson(CountsOf(store.orders))]
  }

  function LineToDict(li: LineItem): Json {
    JObj(map["id" := ItemIdJson(li.id), "code" := JStr(li.code), "name" := JStr(li.name), "qty" := JInt(li.qty),
             "unit_price" := Str(JDec(li.unitPrice)), "line_total" := Str(JDec(li.lineTotal))])
  }

  function LinesToDicts(items: seq<LineItem>): (js: seq<Json>)
    ensures |js| == |items|
    ensures forall k :: 0 <= k < |items| ==> js[k] == LineToDict(items[k])
  {
    if items == [] then [] else [LineToDict(items[0])] + LinesToDicts(items[1..])
  }

  /** `order_to_dict`: amounts become strings, everything else is copied, and
      the lines keep their order. Nothing is lost: OrderFromDict recovers the
      order. */
  function OrderToDict(o: Order): (j: Json)
    ensures j.JObj? && j.fields.Keys == {"id", "timestamp", "subtotal", "gst", "total", "items"}
    ensures j.fields["items"].JList? && |j.fields["items"].elems| == |o.items|
    ensures OrderFromDict(j) == Some(o)
  {
    LinesRoundTrip(o.items);
    JObj(map["id" := JInt(o.id), "timestamp" := JStr(o.timestamp),
             "subtotal" := Str(JDec(o.subtotal)), "gst" := Str(JDec(o.gst)), "total" := Str(JDec(o.total)),
             "items" := JList(LinesToDicts(o.items))])
  }

  // Reading serialised orders back. These are not part of the backend; they
  // state what the serialisers preserve.

  function MoneyFromText(j: Json): Option<real> {
    if j.JShown? && j.shown.JDec? then Some(j.shown.d) else None
  }

  function ItemIdFromJson(j: Json): Option<ItemId> {
    match j
    case JInt(n) => Some(Num(n))
    case JStr(s) => Some(Text(s))
    case _ => None
  }

  function LineFromDict(j: Json): Option<LineItem> {
    if !j.JObj? || !({"id", "code", "name", "qty", "unit_price", "line_total"} <= j.fields.Keys) then None
    else
      var f := j.fields;
      match (ItemIdFromJson(f["id"]), f["code"], f["name"], f["qty"], MoneyFromText(f["unit_price"]), MoneyFromText(f["line_total"]))
      case (Some(id), JStr(code), JStr(name), JInt(qty), Some(unitPrice), Some(lineTotal)) =>
        Some(LineItem(id, code, name, qty, unitPrice, lineTotal))
      case _ => None
  }

  function LinesFromDicts(js: seq<Json>): Option<seq<LineItem>> {
    if js == [] then Some([])
    else
      match (LineFromDict(js[0]), LinesFromDicts(js[1..]))
      case (Some(li), Some(rest)) => Some([li] + rest)
      case _ => None
  }

  function OrderFromDict(j: Json): Option<Order> {
    if !j.JObj? || !({"id", "timestamp", "subtotal", "gst", "total", "items"} <= j.fields.Keys) then None
    else
      var f := j.fields;
      match (f["id"], f["timestamp"], MoneyFromText(f["subtotal"]), MoneyFromText(f["gst"]), MoneyFromText(f["total"]), f["items"])
      case (JInt(id), JStr(ts), Some(subtotal), Some(gst), Some(total), JList(elems)) =>
        (match LinesFromDicts(elems)
         case Some(items) => Some(Order(id, items, subtotal, gst, total, ts))
         case None => None)
      case _ => None
  }

  lemma LineRoundTrip(li: LineItem)
    ensures LineFromDict(LineToDict(li)) == Some(li)
  {
    var f := LineToDict(li).fields;
    assert MoneyFromText(f["unit_price"]) == Some(li.unitPrice);
    assert MoneyFromText(f["line_total"]) == Some(li.lineTotal);
    assert ItemIdFromJson(f["id"]) == Some(li.id);
  }

  lemma {:induction false} LinesRoundTrip(items: seq<LineItem>)
    ensures LinesFromDicts(LinesToDicts(items)) == Some(items)
  {
    if items != [] {
      var js := LinesToDicts(items);
      assert js[0] == LineToDict(items[0]) && js[1..] == LinesToDicts(items[1..]);
      LinesRoundTrip(items[1..]);
      LineRoundTrip(items[0]);
      assert [items[0]] + items[1..] == items;
    }
  }

  /** Two different orders never serialise to the same dict. */
  lemma OrderToDictInjective(a: Order, b: Order)
    requires OrderToDict(a) == OrderToDict(b)
    ensures a == b
  {
    assert OrderFromDict(OrderToDict(a)) == Some(a);
    assert OrderFromDict(OrderToDict(b)) == Some(b);
  }

  lemma {:induction false} SerializedLinesAreLineDicts(items: seq<LineItem>)
    ensures SerializedLines(items) == LinesToDicts(items)
  {
    if items != [] {
      assert SerializedLine(items[0]).fields == LineToDict(items[0]).fields;
      SerializedLinesAreLineDicts(items[1..]);
    }
  }

  /** The orders in `to_serializable`, built from `asdict`, are exactly what
      `order_to_dict` produces. */
  lemma SerializedOrderIsOrderToDict(o: Order)
    ensures SerializedOrder(o) == OrderToDict(o)
  {
    SerializedLinesAreLineDicts(o.items);
    var a, b := SerializedOrder(o).fields, OrderToDict(o).fields;
    assert a.Keys == b.Keys;
    assert a["items"] == b["items"];
    assert forall k :: k in a ==> a[k] == b[k];
  }

  /** Every stored order can be read back from the ledger's `to_serializable`. */
  lemma SerializableRoundTrip(store: Store, k: int)
    requires 0 <= k < |store.orders|
    ensures OrderFromDict(store.ToSerializable().fields["orders"].elems[k]) == Some(store.orders[k])
  {
    SerializedOrderIsOrderToDict(store.orders[k]);
  }

  const MoneyKeys: set<string> := {"revenue_ex_gst", "gst", "revenue_inc_gst"}

  /** `summary_to_dict`: the three money values become strings and every other
      key is copied unchanged. A missing money key raises KeyError; they are
      read in the order revenue_ex_gst, gst, revenue_inc_gst. */
  function SummaryToDict(summary: map<string, Json>): (r: Result<map<string, Json>, Error>)
    ensures r.Ok? <==> MoneyKeys <= summary.Keys
    ensures r.Ok? ==> r.value.Keys == summary.Keys
    ensures r.Ok? ==> forall k :: k in summary && k !in MoneyKeys ==> r.value[k] == summary[k]
    ensures r.Ok? ==> forall k :: k in MoneyKeys ==> r.value[k] == Str(summary[k])
    ensures r.Err? ==> Kind(r.error) == KeyError && r.error.MissingKey? && r.error.key in MoneyKeys - summary.Keys
    ensures "revenue_ex_gst" !in summary ==> r == Err(MissingKey("revenue_ex_gst"))
  {
    if "revenue_ex_gst" !in summary then Err(MissingKey("revenue_ex_gst"))
    else if "gst" !in summary then Err(MissingKey("gst"))
    else if "revenue_inc_gst" !in summary then Err(MissingKey("revenue_inc_gst"))
    else
      Ok(summary["revenue_ex_gst" := Str(summary["revenue_ex_gst"])]
                ["gst" := Str(summary["gst"])]
                ["revenue_inc_gst" := Str(summary["revenue_inc_gst"])])
  }

  /** Serialising the ledger summary keeps the order count and the counts, and
      the three amounts shown still satisfy "including = excluding + GST". */
  lemma SerializedSummaryConsistent(store: Store)
    ensures SummaryToDict(GenerateDailySummary(store)).Ok?
    ensures
      var s := SummaryToDict(GenerateDailySummary(store)).value;
      && s["orders"] == JInt(|store.orders|)
      && s["counts"] == CountsJson(CountsOf(store.orders))
      && MoneyFromText(s["revenue_ex_gst"]) == Some(store.revenueExGst)
      && MoneyFromText(s["revenue_inc_gst"]).Some? && MoneyFromText(s["gst"]).Some?
      && MoneyFromText(s["revenue_inc_gst"]).value == store.revenueExGst + MoneyFromText(s["gst"]).value
  {
  }

  /** The ledger and the order services accept exactly the same non-empty
      requests (they may report a different error for a refused one). */
  lemma StoreAcceptsWhatServicesAccept(raw: seq<RawLine>, menu: Menu)
    requires raw != []
    ensures PriceAll(raw, menu).Ok? <==> BuiltLines(raw, menu).Ok?
  {
  }

  /** When the menu prices are whole cents, the ledger and the order services
      agree line by line on the line totals, so the ledger's subtotal is the
      services' subtotal and its GST is the services' GST rounded to the cent. */
  lemma StoreAgreesWithServicesOnCentPrices(raw: seq<RawLine>, menu: Menu)
    requires PriceAll(raw, menu).Ok? && BuiltLines(raw, menu).Ok?
    requires forall m :: m in menu ==> IsCents(menu[m].price)
    ensures
      var stored := PriceAll(raw, menu).value;
      var built := BuiltLines(raw, menu).value;
      && (forall k :: 0 <= k < |raw| ==> stored[k].lineTotal == built[k].lineTotal)
      && SumLineTotals(stored) == CalculateOrderTotals(built).subtotal
      && Quantize(SumLineTotals(stored) * GstRate) == Quantize(CalculateOrderTotals(built).gst)
  {
    var stored := PriceAll(raw, menu).value;
    var built := BuiltLines(raw, menu).value;
    forall k | 0 <= k < |raw| ensures stored[k].lineTotal == built[k].lineTotal {
      var line := raw[k];
      assert PriceLine(line, menu).Ok? && stored[k] == PriceLine(line, menu).value;
      LineTotalsAgree(line, menu);
      assert built[k].lineTotal == LineAmount(menu[line.id.n].price, line.qty.n);
    }
    SameTotals(stored, built);
    assert CalculateOrderTotals(built).gst == SumLineTotals(built) * GstRate;
  }

  lemma LineTotalsAgree(line: RawLine, menu: Menu)
    requires PriceLine(line, menu).Ok?
    requires IsCents(menu[line.id.n].price)
    ensures PriceLine(line, menu).value.lineTotal == LineAmount(menu[line.id.n].price, line.qty.n)
  {
    CentsTimesInt(menu[line.id.n].price, line.qty.n);
  }

  lemma {:induction false} SameTotals(a: seq<LineItem>, b: seq<LineItem>)
    requires |a| == |b|
    requires forall k :: 0 <= k < |a| ==> a[k].lineTotal == b[k].lineTotal
    ensures SumLineTotals(a) == SumLineTotals(b)
  {
    if a != [] {
      SameTotals(a[..|a| - 1], b[..|b| - 1]);
    }
  }
}
