# PapaPizza order backend — a Dafny model

This project models the backend of the PapaPizza ordering system:

- **The ledger (`Store`).** It prices the raw lines of an order against the menu. It rounds every amount half-up to the cent, keeps each accepted order with a consecutive id, and accumulates revenue excluding GST at a 10% rate. It also reports a summary and a JSON-ready snapshot of itself.
- **The order services.** These validate raw lines and build unrounded line items. They compute order totals and a store-wide summary, and turn orders and summaries into dicts.
- **The summary services.** These provide revenue and GST accessors, the list of orders as dicts, and the per-day sales summary.

There are six modules, one per file:

- `Common` (`common.dfy`): Option, Result, dict `get`, and "price every line, stop at the first refusal".
- `Money` (`money.dfy`): the constants, cents, and ROUND_HALF_UP quantisation.
- `Json` (`json.dfy`): the dict/list/str values the backend builds, including `str()` of an int with its inverse.
- `Store` (`store.dfy`): backend/store.py.
- `Orders` (`orders.dfy`): backend/services/orders.py.
- `Summary` (`summary.dfy`): backend/services/summary.py.

How the Python maps onto Dafny:

- **Money.** Python `Decimal` amounts are exact, so they are Dafny `real`s.
- **Raw input.** A raw order line holds two values, `id` and `qty`. Each is seen after `int(...)`: missing, not convertible, or an integer.
- **The ledger.** It is a class whose fields (`orders`, `revenueExGst`, `nextOrderId`) its methods update.
- **Loops.** The loops of `add_order`, `_recalculate_counts`, `build_line_items` and `get_daily_summary` are `while`/`for` loops. Each is proved against a function that specifies it.
- **Line item ids.** `LineItem.id` is an int in ledger orders and the text `str(menu_id)` in lines built by the order services (`ItemId` is `Num` or `Text`). `order_to_dict` and `to_serializable` copy it unchanged, as `ItemIdJson` does.
- **Pure code.** The rest is functions.

## Model

| member | source | states |
|---|---|---|
| Money.Quantize | backend/store.py:36-37 | the result is a whole number of cents within half a cent of the input; an exact half goes away from zero; whole-cent amounts are unchanged; non-negative amounts stay non-negative |
| Money.QuantizeUnique | backend/store.py:36-37 | for a non-negative amount, the only whole-cent value in (x − ½ cent, x + ½ cent] is its rounding, so the rounding is determined by the cent grid alone |
| Money.CentsAdd | backend/store.py:79-81 | a sum of whole-cent amounts is whole cents, so rounding subtotal + GST changes nothing |
| Money.CentsTimesInt | backend/store.py:64-65 | a whole-cent unit price times an integer quantity is whole cents |
| Json.Str | backend/services/orders.py:83-85 | `str()` always yields text, leaves text unchanged, renders an int as its decimal digits and a Decimal as its shown form |
| Json.NatToStrRoundTrip | backend/services/orders.py:50 | reading back the digits of a non-negative int gives the int |
| Json.IntToStrRoundTrip | backend/services/orders.py:50 | `int(str(n)) == n` for every int, negative ones included |
| Json.IntToStrInjective | backend/services/orders.py:50 | two different menu ids never get the same text id |
| Store.SumLineTotalsCents | backend/store.py:77 | adding whole-cent line totals gives whole cents |
| Store.SumSubtotalsCents | backend/store.py:93 | the accumulated revenue of well-formed orders is whole cents |
| Store.PriceLine | backend/store.py:51-76 | a line is accepted exactly when its id and qty are ints, qty > 0 and the id is on the menu. The checks run id, then qty, then the menu, and a missing qty counts as 0. Unit price and line total are each rounded to the cent, the total computed from the unrounded price. A missing id or an unknown menu id raises KeyError; everything else raises ValueError |
| Store.PricedLine | backend/store.py:63-76 | every recorded line has a positive quantity and whole-cent amounts |
| Store.PriceAll | backend/store.py:50-77 | the lines are priced in order; all succeed exactly when each line does, one item per raw line; otherwise the error is that of the first refused line |
| Store.PriceAllStopsAt | backend/store.py:50-61 | when the earlier lines are accepted and line i is refused, the order fails with line i's error |
| Store.PriceAllIs | backend/store.py:50-77 | a list holding each line's priced item, in order, is the pricing result |
| Store.PriceItems | backend/store.py:47-77 | the loop returns exactly PriceAll's result; on success its running subtotal is the sum of the line totals and every line is well formed |
| Store.LedgerSnoc | backend/store.py:92-94 | appending a well-formed order carrying the next id, adding its subtotal to revenue and bumping the id counter keeps the ledger invariant |
| Store.Store.constructor | backend/store.py:31-34 | a new ledger is empty, with revenue 0 and next id 1, and satisfies the invariant |
| Store.Store.AddOrder | backend/store.py:39-96 | it succeeds exactly when the order is non-empty and every line is accepted. On failure it reports the empty-order error or the first refused line's error and changes nothing. On success the order gets the next id, the priced lines and the given timestamp, and is well formed. It is appended, its subtotal is added to revenue and the id counter goes up by one, keeping the invariant (ids 1..n, revenue = sum of subtotals) |
| Store.AllLinesSnoc | backend/store.py:100-101 | the lines of the first i+1 orders are those of the first i followed by order i's lines |
| Store.CodeCounts | backend/store.py:98-103 | counting line by line with `counts.get(code, 0) + qty` yields one key per code that occurs and, under it, the total quantity ordered with that code |
| Store.CodesSnoc | backend/store.py:102 | one more line adds its code to the set of codes and nothing else |
| Store.QtyOfAbsentCode | backend/store.py:102 | a code that occurs in no line has total quantity 0 |
| Store.CodeCountsSnoc | backend/store.py:102 | counting one more line is the dict update `counts[code] = counts.get(code, 0) + qty` |
| Store.QtyOfCodeConcat | backend/store.py:100-102 | per-code quantities add up over consecutive groups of lines |
| Store.CountOfCode | backend/store.py:102 | reading a code's count with default 0 gives its total quantity whether or not it occurs |
| Store.CountsAfterOrder | backend/store.py:92 | recording an order raises every code's count by exactly that order's quantity for the code |
| Store.Store.RecalculateCounts | backend/store.py:98-103 | the nested loop returns the per-code totals over all lines of all orders: keys are exactly the codes ordered, values their total quantities |
| Store.CountsJson | backend/store.py:112 | the counts dict keeps every code and its count |
| Store.Store.GetSummary | backend/store.py:105-113 | the summary has exactly the five keys, the number of orders and the counts; revenue is the stored revenue rounded, GST is 10% of revenue rounded once (on the total), and including GST is revenue plus that GST rounded; all three are whole cents |
| Store.Store.ToSerializable | backend/store.py:115-137 | the snapshot has keys orders, counts and revenue_ex_gst; one serialised dict per stored order, in order; revenue is shown rounded |
| Store.SummaryIsExact | backend/store.py:106-111 | on a valid ledger the revenue is already whole cents, so the summary and the snapshot report it unrounded, and "including GST" equals revenue plus the reported GST |
| Orders.ValidateLine | backend/services/orders.py:8-33 | a line is valid exactly when both keys are present, both convert to ints, qty > 0 and the id is on the menu. A failed check gives its own error, in the order id-present, qty-present, id-int, qty-int, qty>0, on-menu. Missing keys and unknown ids raise KeyError, the rest ValueError |
| Orders.BuiltLines | backend/services/orders.py:36-58 | an empty request is refused. Otherwise every line must validate. The items are one per line, in order, with the id as `str(menu_id)`, code and name defaulting to "", the price as given and the unrounded line total price × qty. A refusal carries the first invalid line's error |
| Orders.BuildLineItems | backend/services/orders.py:36-58 | the loop returns exactly BuiltLines's result, error included |
| Orders.CalculateOrderTotals | backend/services/orders.py:61-65 | the subtotal is the sum of line totals, GST is exactly 10% of it, and total = subtotal + GST = 1.1 × subtotal, unrounded |
| Orders.GenerateDailySummary | backend/services/orders.py:68-76 | the five keys, the order count and counts; revenue excluding GST as stored, GST = 10% of it unrounded, including = excluding + GST; the ledger's own GST is this GST rounded |
| Orders.LinesToDicts | backend/services/orders.py:86-96 | one dict per line item, the k-th being the dict of the k-th item |
| Orders.OrderToDict | backend/services/orders.py:79-97 | the six keys with one item dict per line; nothing is lost, since reading the dict back gives the order |
| Orders.LineRoundTrip | backend/services/orders.py:87-94 | a line's dict reads back as the same line item |
| Orders.LinesRoundTrip | backend/services/orders.py:86-96 | the list of line dicts reads back as the same lines in the same order |
| Orders.OrderToDictInjective | backend/services/orders.py:79-97 | different orders never produce the same dict |
| Orders.SerializedLinesAreLineDicts | backend/store.py:121-128 | the snapshot's line dicts (asdict with amounts as strings) equal the order services' line dicts |
| Orders.SerializedOrderIsOrderToDict | backend/store.py:118-133 | each order in the snapshot is exactly `order_to_dict` of it |
| Orders.SerializableRoundTrip | backend/store.py:115-134 | every stored order can be read back from the snapshot |
| Orders.SummaryToDict | backend/services/orders.py:100-106 | the three money keys are converted with `str()` and every other key is copied. The result is refused with KeyError exactly when a money key is missing, reporting revenue_ex_gst first |
| Orders.SerializedSummaryConsistent | backend/services/orders.py:100-106 | serialising the store summary never fails; it keeps orders and counts, and the shown amounts still satisfy including = excluding + GST |
| Orders.StoreAcceptsWhatServicesAccept | backend/services/orders.py:8-44 | for non-empty requests the order services accept exactly what the ledger accepts |
| Orders.LineTotalsAgree | backend/store.py:64-65 | with a whole-cent price the ledger's rounded line total is the exact price × qty |
| Orders.SameTotals | backend/services/orders.py:62 | equal line totals position by position give equal subtotals |
| Orders.StoreAgreesWithServicesOnCentPrices | backend/services/orders.py:46-64 | with whole-cent menu prices the ledger and the services agree on every line total and on the subtotal, and the ledger's GST is the services' GST rounded |
| Summary.GetTotalPriceIncludingGst | backend/services/summary.py:8-11 | revenue plus its GST, i.e. 1.1 × revenue, equal to the services' summary figure |
| Summary.GetTotalGst | backend/services/summary.py:14-16 | 10% of revenue, unrounded, equal to the services' summary GST; between 0 and revenue when revenue is non-negative |
| Summary.GetTotalRevenueExcludingGst | backend/services/summary.py:19-21 | the stored revenue, which on a valid ledger is the sum of the order subtotals |
| Summary.GetOrdersList | backend/services/summary.py:24-26 | one dict per stored order, in order, each reading back as that order |
| Summary.BumpDates | backend/services/summary.py:34-40 | an order on a date already present leaves the dates alone; a new date is appended last |
| Summary.BumpShape | backend/services/summary.py:34-43 | with distinct dates, an order updates only its own date's entry by its total, GST and quantity; for a new date it appends a fresh entry holding just that order |
| Summary.DedupFacts | backend/services/summary.py:34 | listing each date once at its first appearance gives distinct dates with the same members |
| Summary.DailyDatesAreFirstAppearances | backend/services/summary.py:31-46 | the summary lists each distinct order date exactly once, in order of first appearance |
| Summary.NoOrdersOnAbsentDay | backend/services/summary.py:33-34 | a date no order maps to has no orders |
| Summary.DailyTotalsAreSums | backend/services/summary.py:41-43 | for every listed date: revenue_inc_gst is the sum of that date's order totals, gst the sum of their GST, pizzas_sold the sum of all their line quantities |
| Summary.BumpTotals | backend/services/summary.py:41-43 | adding an order raises the totals over all days by its total, GST and quantity |
| Summary.DailyTotalsConserve | backend/services/summary.py:32-43 | grouping by day loses nothing: the days add up to all order totals, all GST and all quantities |
| Summary.TotalsLessGstAreSubtotals | backend/services/summary.py:48 | for well-formed orders, totals minus GST are the subtotals |
| Summary.DailyExGstAddsUpToRevenue | backend/services/summary.py:48 | on a valid ledger the days' revenue excluding GST adds up to the ledger's revenue |
| Summary.RenderDayFields | backend/services/summary.py:47-50 | each day dict keeps date and pizzas_sold; its amounts read back as the day's figures, and revenue_ex_gst is the difference computed before conversion |
| Summary.DailyEntryAdded | backend/services/summary.py:34-43 | creating a missing entry and then adding the order keeps the dict and its key order in step with the specification |
| Summary.ValuesInOrder | backend/services/summary.py:46 | `list(daily_data.values())`: the entries in key insertion order |
| Summary.TrackedValues | backend/services/summary.py:46 | after the first loop the values in insertion order are the specified per-day entries |
| Summary.CollectDaily | backend/services/summary.py:31-43 | the loop builds a dict holding exactly the per-day entries, with the keys in first-appearance order |
| Summary.RenderSummaries | backend/services/summary.py:47-50 | every entry is converted, in order |
| Summary.GetDailySummary | backend/services/summary.py:29-52 | one converted dict per distinct date, in order of first appearance, each holding the specified per-day totals (see the lemmas above) |
| Summary.RoundedGstCanDisagree | backend/services/summary.py:42 | per-day GST (the sum of GST rounded per order) can differ from the ledger's GST (rounded once on revenue): two 12.55 orders give 2.52 against 2.51 |

## Left out

- The frontend, backend/app.py (HTTP routes) and backend/services/pricing.py are not part of this model.
- Timestamps: the clock (`datetime.now(timezone.utc).isoformat()`) is a parameter of `AddOrder`. `get_daily_summary`'s `datetime.fromisoformat(...).strftime("%Y-%m-%d")` is a function parameter `day`, and a malformed timestamp's error is not modelled.
- Json.Str: the exact text of `str(Decimal)` is not modelled (exponent, trailing zeros); a Decimal's string is represented by the value it shows. `str(int)` is modelled digit by digit.
- Decimal context precision (28 significant digits) is not modelled; arithmetic is exact.
- Store.PriceLine: a value `int()` refuses is one error kind (ValueError); Python may raise TypeError for some such values (e.g. `None`). `int()` truncating floats or parsing strings is folded into the raw value being an int.
- Store.PriceLine: a menu entry is assumed to have a price. A missing or non-numeric price, the float-to-`str` step of `Decimal(str(price))`, and an empty (falsy) entry dict are not modelled.
- Dict key order in the serialised dicts is not modelled (dicts are maps); the list orders are modelled.
- Exception message texts are not modelled, only their class and cause.
- The `__main__` example block of backend/store.py is left out (it only prints).
- Summary.GetDailySummary: the source mutates the per-day dicts in place in its second loop; the model builds a new list of converted dicts with the same contents.
