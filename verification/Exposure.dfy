/** The backlogged projection and the exposure calculation (services/exposure/calculator.py). */
module Exposure {
  import opened Basics
  import opened Ordering
  import opened Supply

  datatype InventoryPosition = InventoryPosition(
    id: string, partId: string, plantId: string, onHand: int, qualityHold: int, protectedAllocation: int)

  datatype BomComponent = BomComponent(productId: string, componentPartId: string, quantityPer: int)

  datatype CustomerOrder = CustomerOrder(
    lineId: string, productionOrderId: Option<string>, quantity: int, unitRevenue: int, unitMargin: int)

  datatype ProjectionPoint = ProjectionPoint(date: Date, receipts: int, transfers: int, demand: int, balance: int)

  datatype ExposureResult = ExposureResult(
    usableInventory: int, projection: seq<ProjectionPoint>, firstStockout: Option<Date>, maximumShortage: int,
    affectedProductionOrders: seq<string>, affectedCustomerLines: seq<string>,
    revenueAtRisk: int, marginAtRisk: int, otifLinesAtRisk: nat, responseCost: int, revenueProtected: int,
    assumptions: seq<string>, remainingUncertainty: seq<string>, sourceDataLineage: seq<string>)

  function PositionId(p: InventoryPosition): string { p.id }

  function HeldAt(part: string, plant: string): InventoryPosition -> bool {
    (p: InventoryPosition) => p.partId == part && p.plantId == plant
  }

  // --- Projection -----------------------------------------------------------

  function Balance(start: int, receipts: seq<TimedQuantity>, transfers: seq<TimedQuantity>,
                   demand: seq<TimedQuantity>, day: Date): int
  {
    start + Arrived(receipts, day) + Arrived(transfers, day) - Arrived(demand, day)
  }

  function PointOn(start: int, receipts: seq<TimedQuantity>, transfers: seq<TimedQuantity>,
                   demand: seq<TimedQuantity>, day: Date): ProjectionPoint
  {
    ProjectionPoint(day, SumOn(receipts, day), SumOn(transfers, day), SumOn(demand, day),
                    Balance(start, receipts, transfers, demand, day))
  }

  function Projection(start: int, receipts: seq<TimedQuantity>, transfers: seq<TimedQuantity>,
                      demand: seq<TimedQuantity>): seq<ProjectionPoint>
  {
    var days := SortedDates(receipts + transfers + demand);
    seq(|days|, j requires 0 <= j < |days| => PointOn(start, receipts, transfers, demand, days[j]))
  }

  lemma {:induction false} ArrivedStep(items: seq<TimedQuantity>, from: Date, to: Date)
    requires from < to && forall t | t in items :: t.date <= from || to <= t.date
    ensures Arrived(items, to) == Arrived(items, from) + SumOn(items, to)
  {
    if |items| > 0 {
      assert items[0] in items && forall t | t in items[1..] :: t in items;
      ArrivedStep(items[1..], from, to);
    }
  }

  lemma {:induction false} ArrivedNone(items: seq<TimedQuantity>, day: Date)
    requires forall t | t in items :: day < t.date
    ensures Arrived(items, day) == 0
  {
    if |items| > 0 {
      assert items[0] in items && forall t | t in items[1..] :: t in items;
      ArrivedNone(items[1..], day);
    }
  }

  function Before(days: seq<Date>, j: nat): Date
    requires j <= |days|
  {
    if j > 0 then days[j - 1] else if |days| > 0 then days[0] - 1 else 0
  }

  lemma NextBalance(start: int, receipts: seq<TimedQuantity>, transfers: seq<TimedQuantity>,
                    demand: seq<TimedQuantity>, j: nat)
    requires j < |SortedDates(receipts + transfers + demand)|
    ensures var day := SortedDates(receipts + transfers + demand)[j];
      Balance(start, receipts, transfers, demand, day)
      == Balance(start, receipts, transfers, demand, Before(SortedDates(receipts + transfers + demand), j))
         + SumOn(receipts, day) + SumOn(transfers, day) - SumOn(demand, day)
  {
    var all := receipts + transfers + demand;
    var days := SortedDates(all);
    SortedDatesAscend(all);
    forall t | t in all ensures t.date <= Before(days, j) || days[j] <= t.date {
      assert t.date in Dates(all);
      assert t.date in days;
    }
    assert forall t | t in receipts || t in transfers || t in demand :: t in all;
    ArrivedStep(receipts, Before(days, j), days[j]);
    ArrivedStep(transfers, Before(days, j), days[j]);
    ArrivedStep(demand, Before(days, j), days[j]);
  }

  lemma FirstBalance(start: int, receipts: seq<TimedQuantity>, transfers: seq<TimedQuantity>,
                     demand: seq<TimedQuantity>)
    ensures Balance(start, receipts, transfers, demand, Before(SortedDates(receipts + transfers + demand), 0)) == start
  {
    var all := receipts + transfers + demand;
    var days := SortedDates(all);
    SortedDatesAscend(all);
    forall t | t in all ensures Before(days, 0) < t.date {
      assert t.date in Dates(all);
      assert t.date in days;
    }
    assert forall t | t in receipts || t in transfers || t in demand :: t in all;
    ArrivedNone(receipts, Before(days, 0));
    ArrivedNone(transfers, Before(days, 0));
    ArrivedNone(demand, Before(days, 0));
  }

  function OrZero(m: map<Date, int>, day: Date): int { if day in m then m[day] else 0 }

  lemma OrZeroIsSum(m: map<Date, int>, items: seq<TimedQuantity>, day: Date)
    requires TotalsByDate(m, items)
    ensures OrZero(m, day) == SumOn(items, day)
  {
    if day !in m { SumOnAbsent(items, day); }
  }

  /** A running balance that backlogs unmet demand, one point per dated event. */
  method ProjectInventory(startingBalance: int, receipts: seq<TimedQuantity>, transfers: seq<TimedQuantity>,
                          demand: seq<TimedQuantity>)
    returns (points: seq<ProjectionPoint>)
    ensures points == Projection(startingBalance, receipts, transfers, demand)
  {
    var receiptsByDate := TotalByDate(receipts);
    var transfersByDate := TotalByDate(transfers);
    var demandByDate := TotalByDate(demand);
    var days := SortedDates(receipts + transfers + demand);
    var balance := startingBalance;
    points := [];
    FirstBalance(startingBalance, receipts, transfers, demand);
    for j := 0 to |days|
      invariant balance == Balance(startingBalance, receipts, transfers, demand, Before(days, j))
      invariant points == Projection(startingBalance, receipts, transfers, demand)[..j]
    {
      var day := days[j];
      NextBalance(startingBalance, receipts, transfers, demand, j);
      OrZeroIsSum(receiptsByDate, receipts, day);
      OrZeroIsSum(transfersByDate, transfers, day);
      OrZeroIsSum(demandByDate, demand, day);
      balance := balance + OrZero(receiptsByDate, day) + OrZero(transfersByDate, day) - OrZero(demandByDate, day);
      points := points + [ProjectionPoint(day, OrZero(receiptsByDate, day), OrZero(transfersByDate, day),
                                          OrZero(demandByDate, day), balance)];
    }
  }

  /** The deepest the projection goes below zero. */
  function WorstShortage(points: seq<ProjectionPoint>): int {
    if |points| == 0 then 0 else Max(WorstShortage(points[..|points| - 1]), -points[|points| - 1].balance)
  }

  function FirstStockout(points: seq<ProjectionPoint>): Option<Date> {
    if |points| == 0 then None
    else if points[0].balance < 0 then Some(points[0].date)
    else FirstStockout(points[1..])
  }

  /** The first stockout date and the maximum shortage, as read off the projection. */
  method ReadStockouts(points: seq<ProjectionPoint>) returns (first: Option<Date>, shortage: int)
    ensures first == FirstStockout(points) && shortage == WorstShortage(points)
    ensures first.Some? <==> shortage > 0
  {
    first, shortage := None, 0;
    for j := 0 to |points|
      invariant first.None? ==> FirstStockout(points) == FirstStockout(points[j..])
      invariant first.Some? ==> first == FirstStockout(points)
      invariant shortage == WorstShortage(points[..j]) && shortage >= 0
      invariant first.Some? <==> shortage > 0
    {
      assert points[..j + 1][..j] == points[..j];
      assert points[j..][0] == points[j] && points[j..][1..] == points[j + 1..];
      if points[j].balance < 0 {
        if first.None? { first := Some(points[j].date); }
        if -points[j].balance > shortage { shortage := -points[j].balance; }
      }
    }
    assert points[..|points|] == points;
  }

  // --- Component demand -----------------------------------------------------

  function QuantityPer(boms: seq<BomComponent>, part: string, product: string): int {
    if |boms| == 0 then 0
    else
      var n := |boms| - 1;
      QuantityPer(boms[..n], part, product)
        + if boms[n].componentPartId == part && boms[n].productId == product then boms[n].quantityPer else 0
  }

  function DemandOf(part: string, plant: string, boms: seq<BomComponent>, order: ProductionOrder): seq<TimedQuantity> {
    var each := QuantityPer(boms, part, order.productId);
    if order.plantId == plant && each > 0 then [TimedQuantity(order.due, order.quantity * each, order.id)] else []
  }

  function PartDemand(part: string, plant: string, boms: seq<BomComponent>, orders: seq<ProductionOrder>)
    : seq<TimedQuantity>
  {
    if |orders| == 0 then []
    else PartDemand(part, plant, boms, orders[..|orders| - 1]) + DemandOf(part, plant, boms, orders[|orders| - 1])
  }

  method ComponentDemandForPart(part: string, plant: string, boms: seq<BomComponent>, orders: seq<ProductionOrder>)
    returns (demand: seq<TimedQuantity>)
    ensures demand == PartDemand(part, plant, boms, orders)
  {
    var perProduct: map<string, int> := map[];
    for i := 0 to |boms|
      invariant forall product: string ::
        (if product in perProduct then perProduct[product] else 0) == QuantityPer(boms[..i], part, product)
    {
      var bom := boms[i];
      assert boms[..i + 1][..i] == boms[..i];
      if bom.componentPartId == part {
        perProduct := perProduct[bom.productId :=
          (if bom.productId in perProduct then perProduct[bom.productId] else 0) + bom.quantityPer];
      }
    }
    assert boms[..|boms|] == boms;
    demand := [];
    for i := 0 to |orders|
      invariant demand == PartDemand(part, plant, boms, orders[..i])
    {
      var order := orders[i];
      assert orders[..i + 1][..i] == orders[..i];
      var each := if order.productId in perProduct then perProduct[order.productId] else 0;
      if order.plantId == plant && each > 0 {
        demand := demand + [TimedQuantity(order.due, order.quantity * each, order.id)];
      }
    }
    assert orders[..|orders|] == orders;
  }

  // --- Orders in due-date order ---------------------------------------------

  datatype OrderKey = OrderKey(due: Date, id: string)

  predicate KeyLe(a: OrderKey, b: OrderKey) { a.due < b.due || (a.due == b.due && StrLe(a.id, b.id)) }

  lemma KeyLeOrder()
    ensures TotalPreorder(KeyLe)
    ensures forall a: OrderKey, b: OrderKey | KeyLe(a, b) && KeyLe(b, a) :: a == b
  {
    StrLeOrder();
  }

  function IdsOn(keys: seq<OrderKey>, day: Date): seq<string> {
    if |keys| == 0 then []
    else IdsOn(keys[..|keys| - 1], day) + if keys[|keys| - 1].due == day then [keys[|keys| - 1].id] else []
  }

  function Tag(day: Date, ids: seq<string>): seq<OrderKey> {
    seq(|ids|, i requires 0 <= i < |ids| => OrderKey(day, ids[i]))
  }

  /** The orders day by day, by id within a day: the sequence the nested loops visit. */
  function DayByDay(keys: seq<OrderKey>, days: seq<Date>): seq<OrderKey> {
    if |days| == 0 then []
    else
      var n := |days| - 1;
      DayByDay(keys, days[..n]) + Tag(days[n], SortBy(StrLe, IdsOn(keys, days[n])))
  }

  lemma AppendCounts<T>(xs: seq<T>, x: T)
    ensures multiset(xs + [x]) == multiset(xs) + multiset{x}
  {
  }

  lemma {:induction false} IdsOnCount(keys: seq<OrderKey>, day: Date, id: string)
    ensures multiset(IdsOn(keys, day))[id] == multiset(keys)[OrderKey(day, id)]
  {
    if |keys| > 0 {
      var n := |keys| - 1;
      IdsOnCount(keys[..n], day, id);
      SplitLast(keys);
      var earlier, last := IdsOn(keys[..n], day), keys[n];
      if last.due == day { AppendCounts(earlier, last.id); } else { assert IdsOn(keys, day) == earlier; }
    }
  }

  lemma {:induction false} TagCount(day: Date, ids: seq<string>, key: OrderKey)
    ensures multiset(Tag(day, ids))[key] == if key.due == day then multiset(ids)[key.id] else 0
  {
    if |ids| > 0 {
      TagCount(day, ids[1..], key);
      assert ids == [ids[0]] + ids[1..];
      assert Tag(day, ids) == [OrderKey(day, ids[0])] + Tag(day, ids[1..]);
    }
  }

  lemma {:induction false} DayByDayCount(keys: seq<OrderKey>, days: seq<Date>, key: OrderKey)
    requires Distinct(days)
    ensures multiset(DayByDay(keys, days))[key] == if key.due in days then multiset(keys)[key] else 0
  {
    if |days| > 0 {
      var n := |days| - 1;
      DayByDayCount(keys, days[..n], key);
      assert days == days[..n] + [days[n]];
      var ids := IdsOn(keys, days[n]);
      StrLeOrder();
      SortBySorts(StrLe, ids);
      TagCount(days[n], SortBy(StrLe, ids), key);
      IdsOnCount(keys, days[n], key.id);
      if key.due == days[n] {
        assert key == OrderKey(days[n], key.id);
        assert key.due !in days[..n];
      }
    }
  }

  lemma {:induction false} DayByDaySorted(keys: seq<OrderKey>, days: seq<Date>)
    requires forall i, j | 0 <= i < j < |days| :: days[i] < days[j]
    ensures Sorted(KeyLe, DayByDay(keys, days))
    ensures forall k | k in DayByDay(keys, days) :: k.due in days
  {
    if |days| > 0 {
      var n := |days| - 1;
      DayByDaySorted(keys, days[..n]);
      var earlier := DayByDay(keys, days[..n]);
      var ids := SortBy(StrLe, IdsOn(keys, days[n]));
      StrLeOrder();
      SortBySorts(StrLe, IdsOn(keys, days[n]));
      var today := Tag(days[n], ids);
      assert Sorted(KeyLe, today) by {
        forall i, j | 0 <= i < j < |today| ensures KeyLe(today[i], today[j]) { assert StrLe(ids[i], ids[j]); }
      }
      forall i, j | 0 <= i < j < |earlier + today| ensures KeyLe((earlier + today)[i], (earlier + today)[j]) {
        if i < |earlier| && j >= |earlier| {
          assert earlier[i] in earlier;
          assert earlier[i].due in days[..n];
        }
      }
    }
  }

  /** Visiting the days in order is visiting the orders by (due date, id). */
  lemma DayByDayIsDueOrder(keys: seq<OrderKey>, days: seq<Date>)
    requires forall i, j | 0 <= i < j < |days| :: days[i] < days[j]
    requires forall k | k in keys :: k.due in days
    ensures DayByDay(keys, days) == SortBy(KeyLe, keys)
  {
    KeyLeOrder();
    SortBySorts(KeyLe, keys);
    DayByDaySorted(keys, days);
    forall key ensures multiset(DayByDay(keys, days))[key] == multiset(keys)[key] {
      DayByDayCount(keys, days, key);
      if key in keys { assert key.due in days; } else { assert multiset(keys)[key] == 0; }
    }
    assert multiset(DayByDay(keys, days)) == multiset(keys);
    SortedUnique(KeyLe, DayByDay(keys, days), SortBy(KeyLe, keys));
  }
}
