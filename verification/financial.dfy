/**
  `FinancialReportService` (src/services/FinancialReportService.ts): running
  sales and purchase totals fed by bus events, and the report derived from
  them.

  Sales are priced by the placeholder `getProductPrice`, which answers 10
  for every product. Purchases are priced by the line's `unitPrice`; the
  code as written reads a `unitCost` field that order lines do not have,
  which is modelled separately below (`PurchasesAsWritten`).
*/
module FinancialReports {
  import opened Wrappers
  import opened Types

  /** The two running totals of the service. */
  datatype Totals = Totals(sales: int, purchases: int)

  /** `FinancialReport`. */
  datatype Report = Report(totalSales: int, totalPurchases: int, netIncome: int)

  function Add(t: Totals, u: Totals): Totals
  {
    Totals(t.sales + u.sales, t.purchases + u.purchases)
  }

  /** `getProductPrice`: the placeholder price lookup; the product id is ignored. */
  function ProductPrice(productId: string): int
  {
    10
  }

  /** The revenue of a list of order lines, line by line as the loop adds it. */
  function SalesOf(items: seq<OrderItem>): int
  {
    if items == [] then 0
    else SalesOf(items[..|items| - 1]) + items[|items| - 1].quantity * ProductPrice(items[|items| - 1].productId)
  }

  /** The number of units a list of order lines asks for. */
  function Units(items: seq<OrderItem>): int
  {
    if items == [] then 0 else Units(items[..|items| - 1]) + items[|items| - 1].quantity
  }

  /** Revenue ignores the lines' own prices: it is ten times the number of units. */
  lemma {:induction false} SalesAreTenPerUnit(items: seq<OrderItem>)
    ensures SalesOf(items) == 10 * Units(items)
    decreases |items|
  {
    if items != [] {
      SalesAreTenPerUnit(items[..|items| - 1]);
    }
  }

  /**
    What one event adds to the totals: order creation adds revenue, stock
    replenishment adds cost, every other kind adds nothing.
  */
  function Contribution(e: Event): Totals
  {
    if e.kind == CustomerOrderCreated then Totals(SalesOf(e.payload.products), 0)
    else if e.kind == StockReplenished then Totals(0, LineTotal(e.payload.products))
    else Totals(0, 0)
  }

  /** `handleEvent` on the totals as values. */
  function Step(t: Totals, e: Event): (r: Totals)
    ensures r == Add(t, Contribution(e))
  {
    if e.kind == CustomerOrderCreated then t.(sales := t.sales + SalesOf(e.payload.products))
    else if e.kind == StockReplenished then t.(purchases := t.purchases + LineTotal(e.payload.products))
    else t
  }

  /**
    What `handleEvent` promises per kind: an order adds ten per unit to the
    sales, a replenishment adds its line total to the purchases, and any
    other kind changes nothing.
  */
  lemma StepByKind(t: Totals, e: Event)
    ensures e.kind == CustomerOrderCreated ==>
      Step(t, e).purchases == t.purchases && Step(t, e).sales == t.sales + 10 * Units(e.payload.products)
    ensures e.kind == StockReplenished ==>
      Step(t, e).sales == t.sales && Step(t, e).purchases == t.purchases + LineTotal(e.payload.products)
    ensures e.kind != CustomerOrderCreated && e.kind != StockReplenished ==> Step(t, e) == t
  {
    SalesAreTenPerUnit(e.payload.products);
  }

  /** The totals after handling `events` in order, starting from `t`. */
  function Replay(t: Totals, events: seq<Event>): Totals
  {
    if events == [] then t else Step(Replay(t, events[..|events| - 1]), events[|events| - 1])
  }

  /** The contributions of `events`, summed. */
  function SumOf(events: seq<Event>): Totals
  {
    if events == [] then Totals(0, 0) else Add(SumOf(events[..|events| - 1]), Contribution(events[|events| - 1]))
  }

  /** Handling a sequence of events adds the sum of their contributions. */
  lemma {:induction false} ReplayIsSum(t: Totals, events: seq<Event>)
    ensures Replay(t, events) == Add(t, SumOf(events))
    decreases |events|
  {
    if events != [] {
      var n := |events| - 1;
      ReplayIsSum(t, events[..n]);
      assert Replay(t, events) == Add(Replay(t, events[..n]), Contribution(events[n]));
    }
  }

  lemma {:induction false} SumOfAppend(a: seq<Event>, b: seq<Event>)
    ensures SumOf(a + b) == Add(SumOf(a), SumOf(b))
    decreases |b|
  {
    if b == [] {
      assert a + b == a;
    } else {
      var n := |b| - 1;
      assert (a + b)[..|a + b| - 1] == a + b[..n];
      assert (a + b)[|a + b| - 1] == b[n];
      SumOfAppend(a, b[..n]);
    }
  }

  /** One event appended adds its contribution. */
  lemma SumOfSnoc(a: seq<Event>, x: Event)
    ensures SumOf(a + [x]) == Add(SumOf(a), Contribution(x))
  {
    assert (a + [x])[..|a|] == a;
  }

  /** A sequence is its prefix, the element at `i` and its suffix. */
  lemma SplitAt<T>(b: seq<T>, i: int)
    requires 0 <= i < |b|
    ensures b == (b[..i] + [b[i]]) + b[i + 1..]
  {
  }

  /** Taking one event out of a sequence takes its contribution off the sum. */
  lemma SumOfRemoveAt(b: seq<Event>, i: int)
    requires 0 <= i < |b|
    ensures SumOf(b) == Add(SumOf(b[..i] + b[i + 1..]), Contribution(b[i]))
  {
    var front, x, back := b[..i], b[i], b[i + 1..];
    SplitAt(b, i);
    SumOfAppend(front + [x], back);
    SumOfSnoc(front, x);
    SumOfAppend(front, back);
  }

  /** The sum of contributions does not depend on the order of the events. */
  lemma {:induction false} SumOfPermutation(a: seq<Event>, b: seq<Event>)
    requires multiset(a) == multiset(b)
    ensures SumOf(a) == SumOf(b)
    decreases |a|
  {
    if a == [] {
      assert |b| == |multiset(b)| == 0;
    } else {
      var n := |a| - 1;
      var x := a[n];
      assert x in multiset(b) by {
        assert x in a;
        assert x in multiset(a);
      }
      var i :| 0 <= i < |b| && b[i] == x;
      var rest := b[..i] + b[i + 1..];
      assert multiset(a[..n]) == multiset(rest) by {
        assert a == a[..n] + [x];
        assert multiset(a) == multiset(a[..n]) + multiset{x};
        assert b == b[..i] + [x] + b[i + 1..];
        assert multiset(b) == multiset(b[..i]) + multiset{x} + multiset(b[i + 1..]);
        assert multiset(rest) == multiset(b[..i]) + multiset(b[i + 1..]);
        assert multiset(a[..n]) == multiset(a) - multiset{x};
        assert multiset(rest) == multiset(b) - multiset{x};
      }
      SumOfPermutation(a[..n], rest);
      SumOfRemoveAt(b, i);
    }
  }

  /** Handling the same events in any order gives the same totals. */
  lemma ReplayOrderIndependent(t: Totals, a: seq<Event>, b: seq<Event>)
    requires multiset(a) == multiset(b)
    ensures Replay(t, a) == Replay(t, b)
  {
    ReplayIsSum(t, a);
    ReplayIsSum(t, b);
    SumOfPermutation(a, b);
  }

  /** The report over a pair of totals. */
  function ReportOf(t: Totals): (r: Report)
    ensures r.totalSales == t.sales && r.totalPurchases == t.purchases
    ensures r.netIncome == r.totalSales - r.totalPurchases
  {
    Report(t.sales, t.purchases, t.sales - t.purchases)
  }

  /** The service: its two totals, updated in place by `handleEvent`. */
  class FinancialReportService {
    var totalSales: int
    var totalPurchases: int

    function Current(): Totals
      reads this
    {
      Totals(totalSales, totalPurchases)
    }

    /** Both totals start at 0. */
    constructor ()
      ensures Current() == Totals(0, 0)
    {
      totalSales := 0;
      totalPurchases := 0;
    }

    /** `handleEvent`: adds the event's lines to the total its kind feeds. */
    method HandleEvent(event: Event)
      modifies this
      ensures Current() == Step(old(Current()), event)
    {
      var items := event.payload.products;
      match event.kind
      case CustomerOrderCreated =>
        for i := 0 to |items|
          invariant totalSales == old(totalSales) + SalesOf(items[..i])
          invariant totalPurchases == old(totalPurchases)
        {
          assert items[..i + 1][..i] == items[..i];
          var revenue := items[i].quantity * ProductPrice(items[i].productId);
          totalSales := totalSales + revenue;
        }
        assert items[..|items|] == items;
      case StockReplenished =>
        for i := 0 to |items|
          invariant totalPurchases == old(totalPurchases) + LineTotal(items[..i])
          invariant totalSales == old(totalSales)
        {
          assert items[..i + 1][..i] == items[..i];
          var cost := items[i].quantity * items[i].unitPrice;
          totalPurchases := totalPurchases + cost;
        }
        assert items[..|items|] == items;
      case _ =>
    }

    /** `getReport`: the totals and their difference; nothing changes. */
    function GetReport(): (r: Report)
      reads this
      ensures r == ReportOf(Current())
    {
      Report(totalSales, totalPurchases, totalSales - totalPurchases)
    }
  }

  /** A fresh service reports zero sales, zero purchases and zero net income. */
  method FreshReport() returns (r: Report)
    ensures r == Report(0, 0, 0)
  {
    var service := new FinancialReportService();
    r := service.GetReport();
  }

  /** Feeding a service events one by one reaches the replayed totals. */
  method HandleAll(service: FinancialReportService, events: seq<Event>)
    modifies service
    ensures service.Current() == Replay(old(service.Current()), events)
  {
    for i := 0 to |events|
      invariant service.Current() == Replay(old(service.Current()), events[..i])
    {
      assert events[..i + 1][..i] == events[..i];
      service.HandleEvent(events[i]);
    }
    assert events[..|events|] == events;
  }

  // ---------------------------------------------------------------------
  // The purchase total as written

  /** A JavaScript number as far as the purchase total needs: finite, or NaN. */
  datatype JsNumber = Finite(value: int) | NaN

  function JsAdd(a: JsNumber, b: JsNumber): JsNumber
  {
    if a.Finite? && b.Finite? then Finite(a.value + b.value) else NaN
  }

  /**
    `item.quantity * item.unitCost`: order lines carry no `unitCost`, so the
    read yields `undefined` and the product is NaN whatever the quantity.
  */
  function CostAsWritten(item: OrderItem): JsNumber
  {
    NaN
  }

  /** The `StockReplenished` loop as written, from a starting total. */
  function PurchasesAsWritten(start: JsNumber, items: seq<OrderItem>): (r: JsNumber)
  {
    if items == [] then start
    else JsAdd(PurchasesAsWritten(start, items[..|items| - 1]), CostAsWritten(items[|items| - 1]))
  }

  /** As written, any replenishment with at least one line turns the purchase total into NaN for good. */
  lemma PurchasesAsWrittenIsNaN(start: JsNumber, items: seq<OrderItem>)
    requires items != []
    ensures PurchasesAsWritten(start, items) == NaN
  {
  }

  /**
    The input that shows it: one line of 2 units at 5 each. As written the
    purchase total becomes NaN; priced by `unitPrice` it is 10.
  */
  lemma PurchasesCounterexample()
    ensures var items := [OrderItem("p1", 2, 5)];
      PurchasesAsWritten(Finite(0), items) == NaN && Step(Totals(0, 0), Event(StockReplenished, Payload(items, None, None))).purchases == 10
  {
    var items := [OrderItem("p1", 2, 5)];
    assert items[..0] == [];
  }
}
