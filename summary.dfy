/** The summary services of backend/services/summary.py: the revenue and GST
    accessors, the list of serialised orders, and the per-day sales summary. */
module Summary {
  import opened Common
  import opened Money
  import opened Json
  import opened Store
  import opened Orders

  /** `get_total_price_including_gst`. */
  function GetTotalPriceIncludingGst(store: Store): (r: real)
    reads store
    ensures r == GetTotalRevenueExcludingGst(store) + GetTotalGst(store)
    ensures r == store.revenueExGst * (1.0 + GstRate)
    ensures JDec(r) == GenerateDailySummary(store)["revenue_inc_gst"]
  {
    var gstTotal := store.revenueExGst * GstRate;
    store.revenueExGst + gstTotal
  }

  /** `get_total_gst`. */
  function GetTotalGst(store: Store): (r: real)
    reads store
    ensures JDec(r) == GenerateDailySummary(store)["gst"]
    ensures store.revenueExGst >= 0.0 ==> 0.0 <= r <= store.revenueExGst
  {
    store.revenueExGst * GstRate
  }

  /** `get_total_revenue_excluding_gst`. */
  function GetTotalRevenueExcludingGst(store: Store): (r: real)
    reads store
    ensures JDec(r) == GenerateDailySummary(store)["revenue_ex_gst"]
    ensures store.Valid() ==> r == SumSubtotals(store.orders)
  {
    store.revenueExGst
  }

  /** `get_orders_list`: one dict per stored order, in storage order, each
      holding everything about its order. */
  function GetOrdersList(store: Store): (r: seq<Json>)
    reads store
    ensures |r| == |store.orders|
    ensures forall k :: 0 <= k < |r| ==> OrderFromDict(r[k]) == Some(store.orders[k])
  {
    var os := store.orders;
    seq(|os|, k requires 0 <= k < |os| => OrderToDict(os[k]))
  }

  // ---------------------------------------------------------------------
  // Per-day summary

  /** One value of the `daily_data` dict before its amounts become strings. */
  datatype DayTotals = DayTotals(date: string, revenueIncGst: real, gst: real, pizzasSold: int)

  /** `sum(item.qty for item in items)`. */
  function SumQty(items: seq<LineItem>): int {
    if items == [] then 0 else SumQty(items[..|items| - 1]) + items[|items| - 1].qty
  }

  function NewDay(date: string): DayTotals {
    DayTotals(date, 0.0, 0.0, 0)
  }

  /** The three `+=` updates one order makes to its day. */
  function AddToDay(t: DayTotals, o: Order): DayTotals {
    DayTotals(t.date, t.revenueIncGst + o.total, t.gst + o.gst, t.pizzasSold + SumQty(o.items))
  }

  function Dates(days: seq<DayTotals>): (ds: seq<string>)
    ensures |ds| == |days|
    ensures forall k :: 0 <= k < |days| ==> ds[k] == days[k].date
  {
    if days == [] then [] else [days[0].date] + Dates(days[1..])
  }

  /** Adds order `o` to the entry for date `d`, creating that entry at the end
      when there is none yet. */
  function Bump(days: seq<DayTotals>, d: string, o: Order): seq<DayTotals> {
    if days == [] then [AddToDay(NewDay(d), o)]
    else if days[0].date == d then [AddToDay(days[0], o)] + days[1..]
    else [days[0]] + Bump(days[1..], d, o)
  }

  /** The values of `daily_data`, in insertion order, after the first loop of
      `get_daily_summary` has seen `orders`. */
  function DailyTotals(orders: seq<Order>, day: string -> string): seq<DayTotals> {
    if orders == [] then []
    else
      var o := orders[|orders| - 1];
      Bump(DailyTotals(orders[..|orders| - 1], day), day(o.timestamp), o)
  }

  // Reference definitions the per-day summary is proved against.

  /** The date of every order, in storage order. */
  function DaysOf(orders: seq<Order>, day: string -> string): (ds: seq<string>)
    ensures |ds| == |orders|
  {
    if orders == [] then [] else DaysOf(orders[..|orders| - 1], day) + [day(orders[|orders| - 1].timestamp)]
  }

  /** Each distinct element once, in order of first appearance. */
  function Dedup(s: seq<string>): seq<string> {
    if s == [] then []
    else
      var seen := Dedup(s[..|s| - 1]);
      if s[|s| - 1] in seen then seen else seen + [s[|s| - 1]]
  }

  predicate Distinct(s: seq<string>) {
    forall a, b :: 0 <= a < b < |s| ==> s[a] != s[b]
  }

  /** The orders placed on date `d`, in storage order. */
  function OrdersOn(orders: seq<Order>, day: string -> string, d: string): seq<Order> {
    if orders == [] then []
    else
      var o := orders[|orders| - 1];
      OrdersOn(orders[..|orders| - 1], day, d) + (if day(o.timestamp) == d then [o] else [])
  }

  function SumTotals(orders: seq<Order>): real {
    if orders == [] then 0.0 else SumTotals(orders[..|orders| - 1]) + orders[|orders| - 1].total
  }

  function SumGst(orders: seq<Order>): real {
    if orders == [] then 0.0 else SumGst(orders[..|orders| - 1]) + orders[|orders| - 1].gst
  }

  function SumPizzas(orders: seq<Order>): int {
    if orders == [] then 0 else SumPizzas(orders[..|orders| - 1]) + SumQty(orders[|orders| - 1].items)
  }

  function TotalInc(days: seq<DayTotals>): real {
    if days == [] then 0.0 else days[0].revenueIncGst + TotalInc(days[1..])
  }

  function TotalGst(days: seq<DayTotals>): real {
    if days == [] then 0.0 else days[0].gst + TotalGst(days[1..])
  }

  function TotalPizzas(days: seq<DayTotals>): int {
    if days == [] then 0 else days[0].pizzasSold + TotalPizzas(days[1..])
  }

  lemma {:induction false} BumpDates(days: seq<DayTotals>, d: string, o: Order)
    ensures Dates(Bump(days, d, o)) == if d in Dates(days) then Dates(days) else Dates(days) + [d]
  {
    if days != [] {
      assert Dates(days) == [days[0].date] + Dates(days[1..]);
      if days[0].date != d {
        BumpDates(days[1..], d, o);
      }
    }
  }

  /** With distinct dates, Bump updates the one entry for `d`, or appends one. */
  lemma {:induction false} BumpShape(days: seq<DayTotals>, d: string, o: Order)
    requires Distinct(Dates(days))
    ensures d in Dates(days) ==>
      |Bump(days, d, o)| == |days| &&
      forall k :: 0 <= k < |days| ==> Bump(days, d, o)[k] == if days[k].date == d then AddToDay(days[k], o) else days[k]
    ensures d !in Dates(days) ==> Bump(days, d, o) == days + [AddToDay(NewDay(d), o)]
  {
    if days != [] {
      var tail := days[1..];
      assert Dates(days) == [days[0].date] + Dates(tail);
      assert Distinct(Dates(tail)) by {
        forall a, b | 0 <= a < b < |tail| ensures Dates(tail)[a] != Dates(tail)[b] {
          assert Dates(days)[a + 1] != Dates(days)[b + 1];
        }
      }
      if days[0].date == d {
        forall k | 1 <= k < |days| ensures days[k].date != d {
          assert Dates(days)[0] != Dates(days)[k];
        }
      } else {
        BumpShape(tail, d, o);
      }
    }
  }

  lemma {:induction false} DedupFacts(s: seq<string>)
    ensures Distinct(Dedup(s))
    ensures forall x :: x in Dedup(s) <==> x in s
  {
    if s != [] {
      var init := s[..|s| - 1];
      DedupFacts(init);
      assert s == init + [s[|s| - 1]];
    }
  }

  /** `get_daily_summary` lists each distinct order date once, in order of
      each date's first appearance among the stored orders. */
  lemma {:induction false} DailyDatesAreFirstAppearances(orders: seq<Order>, day: string -> string)
    ensures Dates(DailyTotals(orders, day)) == Dedup(DaysOf(orders, day))
    ensures Distinct(Dates(DailyTotals(orders, day)))
    ensures forall d :: d in Dates(DailyTotals(orders, day)) <==> d in DaysOf(orders, day)
  {
    DedupFacts(DaysOf(orders, day));
    if orders != [] {
      var init := orders[..|orders| - 1];
      var o := orders[|orders| - 1];
      DailyDatesAreFirstAppearances(init, day);
      BumpDates(DailyTotals(init, day), day(o.timestamp), o);
      var ds := DaysOf(orders, day);
      assert ds[..|ds| - 1] == DaysOf(init, day);
    }
  }

  lemma {:induction false} NoOrdersOnAbsentDay(orders: seq<Order>, day: string -> string, d: string)
    requires d !in DaysOf(orders, day)
    ensures OrdersOn(orders, day, d) == []
  {
    if orders != [] {
      var init := orders[..|orders| - 1];
      assert DaysOf(orders, day) == DaysOf(init, day) + [day(orders[|orders| - 1].timestamp)];
      NoOrdersOnAbsentDay(init, day, d);
    }
  }

  /** Entry `t` holds the sums over the orders placed on its date. */
  ghost predicate DaySums(orders: seq<Order>, day: string -> string, t: DayTotals) {
    var on := OrdersOn(orders, day, t.date);
    t == DayTotals(t.date, SumTotals(on), SumGst(on), SumPizzas(on))
  }

  /** One more order keeps every entry equal to its sums, provided the entry
      of the order's own date adds the order. */
  lemma DaySumsStep(orders: seq<Order>, day: string -> string, t: DayTotals, next: DayTotals)
    requires orders != []
    requires DaySums(orders[..|orders| - 1], day, t)
    requires next == if day(orders[|orders| - 1].timestamp) == t.date then AddToDay(t, orders[|orders| - 1]) else t
    ensures DaySums(orders, day, next)
  {
    var init, o := orders[..|orders| - 1], orders[|orders| - 1];
    var on := OrdersOn(init, day, t.date);
    if day(o.timestamp) == t.date {
      assert OrdersOn(orders, day, t.date) == on + [o];
      assert (on + [o])[..|on|] == on;
    } else {
      assert OrdersOn(orders, day, t.date) == on;
    }
  }

  lemma DaySumsNew(orders: seq<Order>, day: string -> string, d: string)
    requires d !in DaysOf(orders, day)
    ensures DaySums(orders, day, NewDay(d))
  {
    NoOrdersOnAbsentDay(orders, day, d);
  }

  /** For every date, `revenue_inc_gst` is the sum of that date's order totals,
      `gst` the sum of their GST and `pizzas_sold` the sum of all their line
      quantities. */
  lemma {:induction false} DailyTotalsAreSums(orders: seq<Order>, day: string -> string)
    ensures forall k :: 0 <= k < |DailyTotals(orders, day)| ==>
      var t := DailyTotals(orders, day)[k];
      t == DayTotals(t.date, SumTotals(OrdersOn(orders, day, t.date)), SumGst(OrdersOn(orders, day, t.date)),
                     SumPizzas(OrdersOn(orders, day, t.date)))
  {
    if orders != [] {
      var init := orders[..|orders| - 1];
      var o := orders[|orders| - 1];
      var d := day(o.timestamp);
      var before := DailyTotals(init, day);
      DailyTotalsAreSums(init, day);
      DailyDatesAreFirstAppearances(init, day);
      BumpShape(before, d, o);
      var after := DailyTotals(orders, day);
      forall k | 0 <= k < |after| ensures DaySums(orders, day, after[k]) {
        if k < |before| {
          assert DaySums(init, day, before[k]);
          assert Dates(before)[k] == before[k].date;
          DaySumsStep(orders, day, before[k], after[k]);
        } else {
          DaySumsNew(init, day, d);
          DaySumsStep(orders, day, NewDay(d), after[k]);
        }
      }
    }
  }

  lemma {:induction false} BumpTotals(days: seq<DayTotals>, d: string, o: Order)
    ensures TotalInc(Bump(days, d, o)) == TotalInc(days) + o.total
    ensures TotalGst(Bump(days, d, o)) == TotalGst(days) + o.gst
    ensures TotalPizzas(Bump(days, d, o)) == TotalPizzas(days) + SumQty(o.items)
  {
    if days != [] {
      var b := Bump(days, d, o);
      if days[0].date == d {
        assert b[1..] == days[1..];
      } else {
        assert b[1..] == Bump(days[1..], d, o);
        BumpTotals(days[1..], d, o);
      }
    }
  }

  /** Grouping by day loses nothing: the days' `pizzas_sold` add up to every
      quantity ordered, their `revenue_inc_gst` to every order total and their
      `gst` to every order's GST. */
  lemma {:induction false} DailyTotalsConserve(orders: seq<Order>, day: string -> string)
    ensures TotalInc(DailyTotals(orders, day)) == SumTotals(orders)
    ensures TotalGst(DailyTotals(orders, day)) == SumGst(orders)
    ensures TotalPizzas(DailyTotals(orders, day)) == SumPizzas(orders)
  {
    if orders != [] {
      var init := orders[..|orders| - 1];
      var o := orders[|orders| - 1];
      DailyTotalsConserve(init, day);
      BumpTotals(DailyTotals(init, day), day(o.timestamp), o);
    }
  }

  lemma {:induction false} TotalsLessGstAreSubtotals(orders: seq<Order>)
    requires forall k :: 0 <= k < |orders| ==> WellFormedOrder(orders[k])
    ensures SumTotals(orders) - SumGst(orders) == SumSubtotals(orders)
  {
    if orders != [] {
      TotalsLessGstAreSubtotals(orders[..|orders| - 1]);
    }
  }

  /** On a valid ledger the per-day revenue excluding GST adds up to the
      ledger's own revenue excluding GST. */
  lemma DailyExGstAddsUpToRevenue(store: Store, day: string -> string)
    requires store.Valid()
    ensures TotalInc(DailyTotals(store.orders, day)) - TotalGst(DailyTotals(store.orders, day)) == store.revenueExGst
  {
    DailyTotalsConserve(store.orders, day);
    TotalsLessGstAreSubtotals(store.orders);
  }

  /** One element of the list `get_daily_summary` returns: the amounts as
      strings and `revenue_ex_gst` computed before they were converted. */
  function RenderDay(t: DayTotals): Json {
    JObj(map["date" := JStr(t.date),
             "revenue_inc_gst" := Str(JDec(t.revenueIncGst)),
             "gst" := Str(JDec(t.gst)),
             "pizzas_sold" := JInt(t.pizzasSold),
             "revenue_ex_gst" := Str(JDec(t.revenueIncGst - t.gst))])
  }

  /** Each per-day dict has the four fields of the day plus `revenue_ex_gst`,
      and its text amounts read back as the day's figures, with
      `revenue_ex_gst` the difference of the other two. */
  lemma RenderDayFields(t: DayTotals)
    ensures var j := RenderDay(t);
      && j.JObj? && j.fields.Keys == {"date", "revenue_inc_gst", "gst", "pizzas_sold", "revenue_ex_gst"}
      && j.fields["date"] == JStr(t.date) && j.fields["pizzas_sold"] == JInt(t.pizzasSold)
      && MoneyFromText(j.fields["revenue_inc_gst"]) == Some(t.revenueIncGst)
      && MoneyFromText(j.fields["gst"]) == Some(t.gst)
      && MoneyFromText(j.fields["revenue_ex_gst"]).Some?
      && MoneyFromText(j.fields["revenue_ex_gst"]).value
         == MoneyFromText(j.fields["revenue_inc_gst"]).value - MoneyFromText(j.fields["gst"]).value
  {
  }

  /** `daily_data` after one order: its date's entry is created when missing,
      then the order is added to it. */
  function BumpMap(daily: map<string, DayTotals>, d: string, o: Order): map<string, DayTotals> {
    var cur := if d in daily then daily[d] else NewDay(d);
    daily[d := AddToDay(cur, o)]
  }

  /** The dict `daily` holds exactly the entries of `days`, keyed by date. */
  ghost predicate Tracks(days: seq<DayTotals>, daily: map<string, DayTotals>) {
    && Distinct(Dates(days))
    && (forall x :: x in daily <==> x in Dates(days))
    && forall k :: 0 <= k < |days| ==> days[k].date in daily && daily[days[k].date] == days[k]
  }

  lemma BumpTracks(days: seq<DayTotals>, daily: map<string, DayTotals>, d: string, o: Order)
    requires Tracks(days, daily)
    ensures Tracks(Bump(days, d, o), BumpMap(daily, d, o))
    ensures Dates(Bump(days, d, o)) == if d in daily then Dates(days) else Dates(days) + [d]
  {
    BumpDates(days, d, o);
    if d in daily {
      BumpTracksPresent(days, daily, d, o);
    } else {
      BumpTracksAbsent(days, daily, d, o);
    }
  }

  lemma BumpTracksPresent(days: seq<DayTotals>, daily: map<string, DayTotals>, d: string, o: Order)
    requires Tracks(days, daily) && d in daily
    ensures Tracks(Bump(days, d, o), BumpMap(daily, d, o))
  {
    BumpShape(days, d, o);
    BumpDates(days, d, o);
    var after := Bump(days, d, o);
    var m := BumpMap(daily, d, o);
    assert m == daily[d := AddToDay(daily[d], o)];
    forall k | 0 <= k < |after| ensures after[k].date in m && m[after[k].date] == after[k] {
      if days[k].date == d {
        assert after[k] == AddToDay(days[k], o);
      } else {
        assert after[k] == days[k];
      }
    }
  }

  lemma BumpTracksAbsent(days: seq<DayTotals>, daily: map<string, DayTotals>, d: string, o: Order)
    requires Tracks(days, daily) && d !in daily
    ensures Tracks(Bump(days, d, o), BumpMap(daily, d, o))
  {
    BumpShape(days, d, o);
    BumpDates(days, d, o);
    var after := Bump(days, d, o);
    var m := BumpMap(daily, d, o);
    assert after == days + [AddToDay(NewDay(d), o)];
    assert m == daily[d := AddToDay(NewDay(d), o)];
    forall k | 0 <= k < |after| ensures after[k].date in m && m[after[k].date] == after[k] {
      if k < |days| {
        assert after[k] == days[k];
        assert days[k].date != d;
      }
    }
  }

  /** The two dict operations of the first loop (create the entry if missing,
      then add the order to it) keep the dict and its key order in step with
      `Bump`. */
  lemma DailyEntryAdded(days: seq<DayTotals>, dates: seq<string>, daily: map<string, DayTotals>, d: string, o: Order,
                        newDates: seq<string>, created: map<string, DayTotals>, updated: map<string, DayTotals>)
    requires dates == Dates(days) && Tracks(days, daily)
    requires newDates == if d in daily then dates else dates + [d]
    requires created == if d in daily then daily else daily[d := NewDay(d)]
    requires d in created && updated == created[d := AddToDay(created[d], o)]
    ensures newDates == Dates(Bump(days, d, o)) && Tracks(Bump(days, d, o), updated)
  {
    assert updated == BumpMap(daily, d, o);
    BumpTracks(days, daily, d, o);
  }

  lemma DailyStep(orders: seq<Order>, i: int, day: string -> string, days: seq<DayTotals>, date: string)
    requires 0 <= i < |orders| && days == DailyTotals(orders[..i], day)
    requires date == day(orders[i].timestamp)
    ensures Bump(days, date, orders[i]) == DailyTotals(orders[..i + 1], day)
  {
    assert orders[..i + 1][..i] == orders[..i];
  }

  /** `list(daily_data.values())`: the entries in the order their keys were
      first inserted. */
  function ValuesInOrder(daily: map<string, DayTotals>, keys: seq<string>): (vs: seq<DayTotals>)
    requires forall k :: 0 <= k < |keys| ==> keys[k] in daily
    ensures |vs| == |keys|
    ensures forall k :: 0 <= k < |keys| ==> vs[k] == daily[keys[k]]
  {
    if keys == [] then [] else [daily[keys[0]]] + ValuesInOrder(daily, keys[1..])
  }

  lemma TrackedValues(days: seq<DayTotals>, dates: seq<string>, daily: map<string, DayTotals>)
    requires dates == Dates(days) && Tracks(days, daily)
    ensures forall k :: 0 <= k < |dates| ==> dates[k] in daily
    ensures ValuesInOrder(daily, dates) == days
  {
  }

  /** The first loop of `get_daily_summary`: `daily_data` filled from the
      orders, with its keys in insertion order. */
  method CollectDaily(orders: seq<Order>, day: string -> string) returns (daily: map<string, DayTotals>, dates: seq<string>)
    ensures dates == Dates(DailyTotals(orders, day))
    ensures Tracks(DailyTotals(orders, day), daily)
    ensures forall k :: 0 <= k < |dates| ==> dates[k] in daily
    ensures ValuesInOrder(daily, dates) == DailyTotals(orders, day)
  {
    dates := [];
    daily := map[];
    var i := 0;
    ghost var days: seq<DayTotals> := [];
    assert orders[..i] == [];
    while i < |orders|
      invariant 0 <= i <= |orders|
      invariant days == DailyTotals(orders[..i], day)
      invariant dates == Dates(days) && Tracks(days, daily)
    {
      var order := orders[i];
      var date := day(order.timestamp);
      ghost var prevDaily, prevDates := daily, dates;
      DailyStep(orders, i, day, days, date);
      if date !in daily {
        daily := daily[date := NewDay(date)];
        dates := dates + [date];
      }
      ghost var created := daily;
      daily := daily[date := AddToDay(daily[date], order)];
      DailyEntryAdded(days, prevDates, prevDaily, date, order, dates, created, daily);
      days := Bump(days, date, order);
      i := i + 1;
    }
    assert orders[..i] == orders;
    TrackedValues(days, dates, daily);
  }

  /** The second loop of `get_daily_summary`: every entry gets its
      `revenue_ex_gst` and its amounts turned into strings. */
  method RenderSummaries(summaryList: seq<DayTotals>) returns (r: seq<Json>)
    ensures |r| == |summaryList|
    ensures forall k :: 0 <= k < |r| ==> r[k] == RenderDay(summaryList[k])
  {
    r := [];
    for k := 0 to |summaryList|
      invariant |r| == k
      invariant forall m :: 0 <= m < k ==> r[m] == RenderDay(summaryList[m])
    {
      r := r + [RenderDay(summaryList[k])];
    }
  }

  /** `get_daily_summary`. The date of an order is `day(order.timestamp)`. */
  method GetDailySummary(store: Store, day: string -> string) returns (r: seq<Json>)
    ensures |r| == |DailyTotals(store.orders, day)|
    ensures forall k :: 0 <= k < |r| ==> r[k] == RenderDay(DailyTotals(store.orders, day)[k])
  {
    var daily, dates := CollectDaily(store.orders, day);
    var summaryList := ValuesInOrder(daily, dates);
    r := RenderSummaries(summaryList);
  }

  /** The ledger's summary rounds GST once, on the whole revenue; the per-day
      summary adds up the GST each order rounded. The two can disagree: two
      orders of one 12.55 line carry 1.26 GST each, 2.52 together, while 10%
      of their 25.10 revenue rounds to 2.51. */
  lemma RoundedGstCanDisagree()
    ensures
      var line := LineItem(Num(1), "MARG", "Margherita", 1, 12.55, 12.55);
      var o1 := Order(1, [line], 12.55, 1.26, 13.81, "");
      var o2 := Order(2, [line], 12.55, 1.26, 13.81, "");
      && WellFormedOrder(o1) && WellFormedOrder(o2)
      && Quantize(SumSubtotals([o1, o2]) * GstRate) == 2.51
      && SumGst([o1, o2]) == 2.52
  {
    var line := LineItem(Num(1), "MARG", "Margherita", 1, 12.55, 12.55);
    assert [line][..0] == [];
    assert SumLineTotals([line]) == 12.55;
    QuantizeUnique(12.55 * GstRate, 1.26);
    QuantizeUnique(25.10 * GstRate, 2.51);
    var o1 := Order(1, [line], 12.55, 1.26, 13.81, "");
    var o2 := Order(2, [line], 12.55, 1.26, 13.81, "");
    assert [o1, o2][..1] == [o1];
    assert [o1][..0] == [];
    assert SumSubtotals([o1]) == 12.55;
    assert SumSubtotals([o1, o2]) == 25.10;
    assert SumGst([o1]) == 1.26;
    assert SumGst([o1, o2]) == 2.52;
  }
}
