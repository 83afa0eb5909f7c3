/** The greedy dated allocator (services/analysis/exposure.py) and what it achieves. */
module Supply {
  import opened Basics
  import opened Ordering

  type Date = int

  datatype TimedQuantity = TimedQuantity(date: Date, quantity: int, sourceId: string)

  datatype ProductionOrder = ProductionOrder(
    id: string, productId: string, plantId: string, quantity: int, due: Date,
    componentDemand: Option<int>, customerOrderId: Option<string>, priority: Option<int>,
    revenue: Option<int>, margin: Option<int>)

  datatype OrderAllocation = OrderAllocation(served: int, uncovered: int, fullAndOnTime: bool)

  datatype SupplyAllocation = SupplyAllocation(byOrder: map<string, OrderAllocation>, uncovered: int)

  datatype AllocationError = MissingComponentDemand(orderId: string)

  // --- Dated sums -----------------------------------------------------------

  /** Units dated on or before `day`. */
  function Arrived(items: seq<TimedQuantity>, day: Date): int {
    if |items| == 0 then 0
    else (if items[0].date <= day then items[0].quantity else 0) + Arrived(items[1..], day)
  }

  /** Units dated on one of the given days. */
  function SumIn(items: seq<TimedQuantity>, days: set<Date>): int {
    if |items| == 0 then 0
    else (if items[0].date in days then items[0].quantity else 0) + SumIn(items[1..], days)
  }

  function SumOn(items: seq<TimedQuantity>, day: Date): int {
    if |items| == 0 then 0
    else (if items[0].date == day then items[0].quantity else 0) + SumOn(items[1..], day)
  }

  function Dates(items: seq<TimedQuantity>): set<Date> { set t | t in items :: t.date }

  ghost predicate NonNegative(items: seq<TimedQuantity>) { forall t | t in items :: t.quantity >= 0 }

  /** The net demand a `dict` built by `d[item.date] += item.quantity` holds. */
  ghost predicate TotalsByDate(m: map<Date, int>, items: seq<TimedQuantity>) {
    && m.Keys == Dates(items)
    && forall d | d in m :: m[d] == SumOn(items, d)
  }

  lemma {:induction false} SumOnAppend(xs: seq<TimedQuantity>, t: TimedQuantity, day: Date)
    ensures SumOn(xs + [t], day) == SumOn(xs, day) + if t.date == day then t.quantity else 0
  {
    if |xs| > 0 {
      assert (xs + [t])[1..] == xs[1..] + [t];
      SumOnAppend(xs[1..], t, day);
    }
  }

  lemma {:induction false} SumOnAbsent(items: seq<TimedQuantity>, day: Date)
    requires day !in Dates(items)
    ensures SumOn(items, day) == 0
  {
    if |items| > 0 {
      assert items[0] in items && forall t | t in items[1..] :: t in items;
      SumOnAbsent(items[1..], day);
    }
  }

  lemma {:induction false} SumInAddsDay(items: seq<TimedQuantity>, days: set<Date>, d: Date)
    requires d !in days
    ensures SumIn(items, days + {d}) == SumIn(items, days) + SumOn(items, d)
  {
    if |items| > 0 { SumInAddsDay(items[1..], days, d); }
  }

  lemma {:induction false} SumInIsArrived(items: seq<TimedQuantity>, days: set<Date>, day: Date)
    requires forall t | t in items :: t.date in days <==> t.date <= day
    ensures SumIn(items, days) == Arrived(items, day)
  {
    if |items| > 0 {
      assert forall t | t in items[1..] :: t in items;
      SumInIsArrived(items[1..], days, day);
    }
  }

  lemma {:induction false} SumInEmpty(items: seq<TimedQuantity>, days: set<Date>)
    requires forall t | t in items :: t.date !in days
    ensures SumIn(items, days) == 0
  {
    if |items| > 0 {
      assert forall t | t in items[1..] :: t in items;
      SumInEmpty(items[1..], days);
    }
  }

  lemma {:induction false} ArrivedAppend(xs: seq<TimedQuantity>, ys: seq<TimedQuantity>, day: Date)
    ensures Arrived(xs + ys, day) == Arrived(xs, day) + Arrived(ys, day)
  {
    if |xs| == 0 {
      assert xs + ys == ys;
    } else {
      assert (xs + ys)[1..] == xs[1..] + ys;
      ArrivedAppend(xs[1..], ys, day);
    }
  }

  lemma {:induction false} ArrivedGrows(items: seq<TimedQuantity>, from: Date, to: Date)
    requires NonNegative(items) && from <= to
    ensures 0 <= Arrived(items, from) <= Arrived(items, to)
  {
    if |items| > 0 {
      assert forall t | t in items[1..] :: t in items;
      ArrivedGrows(items[1..], from, to);
    }
  }

  method TotalByDate(items: seq<TimedQuantity>) returns (m: map<Date, int>)
    ensures TotalsByDate(m, items)
  {
    m := map[];
    for i := 0 to |items|
      invariant TotalsByDate(m, items[..i])
    {
      var t := items[i];
      assert items[..i + 1] == items[..i] + [t];
      assert Dates(items[..i + 1]) == Dates(items[..i]) + {t.date};
      forall d { SumOnAppend(items[..i], t, d); }
      if t.date !in m { SumOnAbsent(items[..i], t.date); }
      m := m[t.date := (if t.date in m then m[t.date] else 0) + t.quantity];
    }
    assert items[..|items|] == items;
  }

  /** The distinct dates, in order of first appearance: the keys of the dictionary. */
  function DateKeys(items: seq<TimedQuantity>): (r: seq<Date>)
    ensures Distinct(r)
    ensures forall d :: d in r <==> d in Dates(items)
  {
    if |items| == 0 then []
    else
      var n := |items| - 1;
      var earlier := DateKeys(items[..n]);
      assert items == items[..n] + [items[n]];
      assert Dates(items) == Dates(items[..n]) + {items[n].date};
      if items[n].date in earlier then earlier else earlier + [items[n].date]
  }

  /** The dates of a dictionary built from the items, earliest first: `sorted(d)`. */
  function SortedDates(items: seq<TimedQuantity>): seq<Date> {
    SortBy((a: Date, b: Date) => a <= b, DateKeys(items))
  }

  lemma SortedDatesAscend(items: seq<TimedQuantity>)
    ensures forall i, j | 0 <= i < j < |SortedDates(items)| :: SortedDates(items)[i] < SortedDates(items)[j]
    ensures forall d :: d in SortedDates(items) <==> d in Dates(items)
  {
    var le := (a: Date, b: Date) => a <= b;
    var keys := DateKeys(items);
    SortBySorts(le, keys);
    var days := SortBy(le, keys);
    forall i, j | 0 <= i < j < |days| ensures days[i] < days[j] {
      DistinctCounts(keys, days[i]);
      TwiceCounts(days, i, j);
      assert le(days[i], days[j]);
    }
  }

  // --- The allocation as a function of its inputs ---------------------------

  /** A starting balance, dated supply and the demands in processing order. */
  datatype Plan = Plan(start: int, supply: seq<TimedQuantity>, needs: seq<TimedQuantity>) {

    /** The latest due date among the first k demands: what has been received by then. */
    function Horizon(k: nat): Date
      requires 0 < k <= |needs|
    {
      if k == 1 then needs[0].date else Max(Horizon(k - 1), needs[k - 1].date)
    }

    function Received(k: nat): int
      requires k <= |needs|
    {
      if k == 0 then 0 else Arrived(supply, Horizon(k))
    }

    /** Units on hand just after k demands were served. */
    function Leftover(k: nat): int
      requires k <= |needs|
      decreases k, 0
    {
      if k == 0 then start else Available(k - 1) - Allocated(k - 1)
    }

    /** Units on hand when demand k is served. */
    function Available(k: nat): int
      requires k < |needs|
      decreases k, 1
    {
      Leftover(k) + Received(k + 1) - Received(k)
    }

    function Allocated(k: nat): int
      requires k < |needs|
      decreases k, 2
    {
      Min(Available(k), needs[k].quantity)
    }

    function Uncovered(k: nat): int
      requires k < |needs|
    {
      needs[k].quantity - Allocated(k)
    }

    function TotalUncovered(k: nat): int
      requires k <= |needs|
    {
      if k == 0 then 0 else TotalUncovered(k - 1) + Uncovered(k - 1)
    }

    function TotalAllocated(k: nat): int
      requires k <= |needs|
    {
      if k == 0 then 0 else TotalAllocated(k - 1) + Allocated(k - 1)
    }

    function Demanded(k: nat): int
      requires k <= |needs|
    {
      if k == 0 then 0 else Demanded(k - 1) + needs[k - 1].quantity
    }

    /** Backlog after k demands if nothing were ever dropped. */
    function Shortfall(k: nat): int
      requires 0 < k <= |needs|
    {
      Demanded(k) - start - Received(k)
    }

    /** The running maximum of the backlog, never below zero. */
    function Peak(k: nat): int
      requires k <= |needs|
    {
      if k == 0 then 0 else Max(Peak(k - 1), Shortfall(k))
    }

    function Outcome(k: nat): OrderAllocation
      requires k < |needs|
    {
      OrderAllocation(Allocated(k), Uncovered(k), Uncovered(k) == 0)
    }

    /** The result dictionary: a later order with the same id replaces an earlier one. */
    function ByOrder(k: nat): map<string, OrderAllocation>
      requires k <= |needs|
    {
      if k == 0 then map[] else ByOrder(k - 1)[needs[k - 1].sourceId := Outcome(k - 1)]
    }

    ghost predicate InDueOrder() {
      forall i, j | 0 <= i < j < |needs| :: needs[i].date <= needs[j].date
    }
  }

  predicate DemandsKnown(orders: seq<ProductionOrder>) { forall o | o in orders :: o.componentDemand.Some? }

  function NeedsOf(orders: seq<ProductionOrder>): seq<TimedQuantity>
    requires DemandsKnown(orders)
  {
    seq(|orders|, i requires 0 <= i < |orders| =>
      TimedQuantity(orders[i].due, orders[i].componentDemand.value, orders[i].id))
  }

  ghost function ReceivedDates(p: Plan, k: nat): set<Date>
    requires k <= |p.needs|
  {
    if k == 0 then {} else set t | t in p.supply && t.date <= p.Horizon(k) :: t.date
  }

  lemma ReceivedIsSum(p: Plan, k: nat)
    requires k <= |p.needs|
    ensures SumIn(p.supply, ReceivedDates(p, k)) == p.Received(k)
  {
    if k == 0 { SumInEmpty(p.supply, {}); } else { SumInIsArrived(p.supply, ReceivedDates(p, k), p.Horizon(k)); }
  }

  lemma {:induction false} PrefixAgrees(p: Plan, q: Plan, k: nat)
    requires p.start == q.start && p.supply == q.supply
    requires k <= |p.needs| && k <= |q.needs| && p.needs[..k] == q.needs[..k]
    ensures k > 0 ==> p.Horizon(k) == q.Horizon(k)
    ensures p.Leftover(k) == q.Leftover(k) && p.TotalUncovered(k) == q.TotalUncovered(k)
    ensures p.ByOrder(k) == q.ByOrder(k)
  {
    if k > 0 {
      assert p.needs[k - 1] == p.needs[..k][k - 1] == q.needs[..k][k - 1] == q.needs[k - 1];
      assert p.needs[..k - 1] == p.needs[..k][..k - 1] == q.needs[..k][..k - 1] == q.needs[..k - 1];
      PrefixAgrees(p, q, k - 1);
    }
  }

  lemma ReceivedDatesGrow(p: Plan, k: nat)
    requires k < |p.needs|
    ensures ReceivedDates(p, k + 1)
         == ReceivedDates(p, k) + set d | d in Dates(p.supply) && d <= p.needs[k].date
  {
    assert forall t | t in p.supply :: t.date in Dates(p.supply);
  }

  /** Receives every not yet received day up to the due date. */
  method Receive(supplyByDate: map<Date, int>, supply: seq<TimedQuantity>, due: Date,
                 available0: int, received0: set<Date>)
    returns (available: int, receivedDates: set<Date>)
    requires TotalsByDate(supplyByDate, supply)
    ensures receivedDates == received0 + set d | d in Dates(supply) && d <= due
    ensures available == available0 + SumIn(supply, receivedDates) - SumIn(supply, received0)
  {
    hide SortBy, DateKeys;
    available, receivedDates := available0, received0;
    SortedDatesAscend(supply);
    var days := SortedDates(supply);
    for j := 0 to |days|
      invariant received0 <= receivedDates
      invariant forall d | d in receivedDates :: d in received0 || (d in supplyByDate && d <= due)
      invariant forall k | 0 <= k < j :: days[k] <= due ==> days[k] in receivedDates
      invariant available == available0 + SumIn(supply, receivedDates) - SumIn(supply, received0)
    {
      var supplyDate := days[j];
      if supplyDate <= due && supplyDate !in receivedDates {
        SumInAddsDay(supply, receivedDates, supplyDate);
        available := available + supplyByDate[supplyDate];
        receivedDates := receivedDates + {supplyDate};
      }
    }
    forall d | d in Dates(supply) && d <= due ensures d in receivedDates {
      assert d in days;
    }
    forall d | d in receivedDates ensures d in received0 || (d in Dates(supply) && d <= due) {
      assert d in supplyByDate.Keys || d in received0;
    }
  }

  ghost predicate ServedSoFar(p: Plan, available: int, receivedDates: set<Date>, uncovered: int,
                              allocations: map<string, OrderAllocation>) {
    var k := |p.needs|;
    && receivedDates == ReceivedDates(p, k)
    && available == p.Leftover(k)
    && uncovered == p.TotalUncovered(k)
    && allocations == p.ByOrder(k)
  }

  lemma ServedNothing(p: Plan)
    requires p.needs == []
    ensures ServedSoFar(p, p.start, {}, 0, map[])
  {
  }

  lemma ServedAll(p: Plan, available: int, dates: set<Date>, uncovered: int, allocations: map<string, OrderAllocation>)
    requires ServedSoFar(p, available, dates, uncovered, allocations)
    ensures uncovered == p.TotalUncovered(|p.needs|) && allocations == p.ByOrder(|p.needs|)
  {
  }

  lemma StockedIsAvailable(p: Plan, k: nat, available: int, stocked: int, dates': set<Date>)
    requires k < |p.needs| && available == p.Leftover(k)
    requires dates' == ReceivedDates(p, k) + set d | d in Dates(p.supply) && d <= p.needs[k].date
    requires stocked == available + SumIn(p.supply, dates') - SumIn(p.supply, ReceivedDates(p, k))
    ensures dates' == ReceivedDates(p, k + 1) && stocked == p.Available(k)
  {
    ReceivedDatesGrow(p, k);
    ReceivedIsSum(p, k);
    ReceivedIsSum(p, k + 1);
  }

  lemma SameReceivedDates(p: Plan, q: Plan, k: nat)
    requires p.start == q.start && p.supply == q.supply
    requires k <= |p.needs| && k <= |q.needs| && p.needs[..k] == q.needs[..k]
    ensures ReceivedDates(p, k) == ReceivedDates(q, k)
  {
    PrefixAgrees(p, q, k);
  }

  lemma NextOutcome(p: Plan, k: nat)
    requires k < |p.needs|
    ensures p.Leftover(k + 1) == p.Available(k) - p.Allocated(k)
    ensures p.TotalUncovered(k + 1) == p.TotalUncovered(k) + p.Uncovered(k)
    ensures p.ByOrder(k + 1) == p.ByOrder(k)[p.needs[k].sourceId := p.Outcome(k)]
    ensures p.Allocated(k) == Min(p.Available(k), p.needs[k].quantity)
  {
  }

  lemma ServeNext(p: Plan, q: Plan, available: int, dates: set<Date>, uncovered: int,
                  allocations: map<string, OrderAllocation>, stocked: int, dates': set<Date>)
    requires ServedSoFar(p, available, dates, uncovered, allocations)
    requires p.start == q.start && p.supply == q.supply
    requires |q.needs| == |p.needs| + 1 && q.needs[..|p.needs|] == p.needs
    requires dates' == dates + set d | d in Dates(q.supply) && d <= q.needs[|p.needs|].date
    requires stocked == available + SumIn(q.supply, dates') - SumIn(q.supply, dates)
    ensures
      var need := q.needs[|p.needs|];
      var served := Min(stocked, need.quantity);
      var missing := need.quantity - served;
      ServedSoFar(q, stocked - served, dates', uncovered + missing,
                  allocations[need.sourceId := OrderAllocation(served, missing, missing == 0)])
  {
    hide ReceivedDates;
    var i := |p.needs|;
    assert p.needs[..i] == p.needs;
    PrefixAgrees(p, q, i);
    SameReceivedDates(p, q, i);
    StockedIsAvailable(q, i, available, stocked, dates');
    NextOutcome(q, i);
  }

  /** Serves the orders as given, each from what has arrived by its due date. */
  method AllocateComponentSupply(
    startingInventory: int, receipts: seq<TimedQuantity>, transfers: seq<TimedQuantity>,
    productionOrders: seq<ProductionOrder>)
    returns (r: Result<SupplyAllocation, AllocationError>)
    ensures r.Ok? <==> DemandsKnown(productionOrders)
    ensures r.Ok? ==>
      var p := Plan(startingInventory, receipts + transfers, NeedsOf(productionOrders));
      r.value == SupplyAllocation(p.ByOrder(|productionOrders|), p.TotalUncovered(|productionOrders|))
    ensures r.Err? ==> exists i ::
      && 0 <= i < |productionOrders| && DemandsKnown(productionOrders[..i])
      && productionOrders[i].componentDemand.None? && r.error.orderId == productionOrders[i].id
  {
    var supplyByDate := TotalByDate(receipts + transfers);
    var available := startingInventory;
    var receivedDates: set<Date> := {};
    var allocations: map<string, OrderAllocation> := map[];
    var uncovered := 0;
    ghost var p := Plan(startingInventory, receipts + transfers, []);
    hide ServedSoFar;
    ServedNothing(p);
    for i := 0 to |productionOrders|
      invariant DemandsKnown(productionOrders[..i])
      invariant p == Plan(startingInventory, receipts + transfers, NeedsOf(productionOrders[..i]))
      invariant ServedSoFar(p, available, receivedDates, uncovered, allocations)
    {
      var order := productionOrders[i];
      var stocked, newDates := Receive(supplyByDate, receipts + transfers, order.due, available, receivedDates);
      if order.componentDemand.None? {
        return Err(MissingComponentDemand(order.id));
      }
      assert productionOrders[..i + 1] == productionOrders[..i] + [order];
      var demand := order.componentDemand.value;
      ghost var q := Plan(startingInventory, receipts + transfers, NeedsOf(productionOrders[..i + 1]));
      assert p.needs == q.needs[..i];
      ServeNext(p, q, available, receivedDates, uncovered, allocations, stocked, newDates);
      var served := if stocked < demand then stocked else demand;
      var orderUncovered := demand - served;
      available, receivedDates := stocked - served, newDates;
      uncovered := uncovered + orderUncovered;
      allocations := allocations[order.id := OrderAllocation(served, orderUncovered, orderUncovered == 0)];
      p := q;
    }
    assert productionOrders[..|productionOrders|] == productionOrders;
    ServedAll(p, available, receivedDates, uncovered, allocations);
    r := Ok(SupplyAllocation(allocations, uncovered));
  }
}
