/** `calculate_exposure`: orders, customers and money at risk, and its agreement with the allocator. */
module ExposureCalculation {
  import opened Basics
  import opened Ordering
  import opened Supply
  import opened SupplyLaws
  import opened Exposure

  function Usable(p: InventoryPosition): int { Max(0, p.onHand - p.qualityHold - p.protectedAllocation) }

  function UsableAt(positions: seq<InventoryPosition>, part: string, plant: string): int {
    if |positions| == 0 then 0
    else
      var n := |positions| - 1;
      UsableAt(positions[..n], part, plant)
        + if positions[n].partId == part && positions[n].plantId == plant then Usable(positions[n]) else 0
  }

  lemma {:induction false} UsableIsNonNegative(positions: seq<InventoryPosition>, part: string, plant: string)
    ensures UsableAt(positions, part, plant) >= 0
  {
    if |positions| > 0 { UsableIsNonNegative(positions[..|positions| - 1], part, plant); }
  }

  /** The dictionary from order id to demand: the last entry for an id stays. */
  function DemandById(demand: seq<TimedQuantity>): map<string, int> {
    if |demand| == 0 then map[]
    else DemandById(demand[..|demand| - 1])[demand[|demand| - 1].sourceId := demand[|demand| - 1].quantity]
  }

  function KeysOf(orders: seq<ProductionOrder>, needs: map<string, int>): seq<OrderKey> {
    if |orders| == 0 then []
    else
      var last := orders[|orders| - 1];
      KeysOf(orders[..|orders| - 1], needs) + if last.id in needs then [OrderKey(last.due, last.id)] else []
  }

  ghost predicate Known(keys: seq<OrderKey>, needs: map<string, int>) { forall k | k in keys :: k.id in needs }

  lemma {:induction false} KeysAreKnown(orders: seq<ProductionOrder>, needs: map<string, int>)
    ensures Known(KeysOf(orders, needs), needs)
  {
    if |orders| > 0 { KeysAreKnown(orders[..|orders| - 1], needs); }
  }

  function NeedsFor(keys: seq<OrderKey>, needs: map<string, int>): seq<TimedQuantity>
    requires Known(keys, needs)
  {
    seq(|keys|, i requires 0 <= i < |keys| => TimedQuantity(keys[i].due, needs[keys[i].id], keys[i].id))
  }

  function AffectedIds(p: Plan, k: nat): seq<string>
    requires k <= |p.needs|
  {
    if k == 0 then []
    else AffectedIds(p, k - 1) + if Affected(p, k - 1) then [p.needs[k - 1].sourceId] else []
  }

  /** The demands of the exposed orders, by (due date, id). */
  ghost function DuePlan(start: int, receipts: seq<TimedQuantity>, transfers: seq<TimedQuantity>,
                         orders: seq<ProductionOrder>, demand: seq<TimedQuantity>): Plan
  {
    var needs := DemandById(demand);
    var keys := SortBy(KeyLe, KeysOf(orders, needs));
    DueKeysAreKnown(orders, needs);
    Plan(start, receipts + transfers, NeedsFor(keys, needs))
  }

  lemma DueKeysAreKnown(orders: seq<ProductionOrder>, needs: map<string, int>)
    ensures Known(SortBy(KeyLe, KeysOf(orders, needs)), needs)
  {
    KeysAreKnown(orders, needs);
    KeyLeOrder();
    SortBySorts(KeyLe, KeysOf(orders, needs));
  }

  lemma {:induction false} AffectedPrefix(p: Plan, q: Plan, k: nat)
    requires p.start == q.start && p.supply == q.supply
    requires k <= |p.needs| && k <= |q.needs| && p.needs[..k] == q.needs[..k]
    ensures AffectedIds(p, k) == AffectedIds(q, k) && p.Demanded(k) == q.Demanded(k)
  {
    if k > 0 {
      assert p.needs[k - 1] == p.needs[..k][k - 1] == q.needs[..k][k - 1] == q.needs[k - 1];
      assert p.needs[..k - 1] == p.needs[..k][..k - 1] == q.needs[..k][..k - 1] == q.needs[..k - 1];
      AffectedPrefix(p, q, k - 1);
    }
  }

  /** The state of the running balance after the given orders were visited. */
  ghost predicate Visited(start: int, supply: seq<TimedQuantity>, needs: map<string, int>, done: seq<OrderKey>,
                          arrived: int, balance: int, affected: seq<string>)
  {
    && Known(done, needs)
    && var p := Plan(start, supply, NeedsFor(done, needs));
       && balance == start + arrived - p.Demanded(|done|)
       && affected == AffectedIds(p, |done|)
  }

  lemma VisitNext(start: int, supply: seq<TimedQuantity>, needs: map<string, int>, done: seq<OrderKey>,
                  day: Date, id: string, balance: int, affected: seq<string>)
    requires Visited(start, supply, needs, done, Arrived(supply, day), balance, affected)
    requires id in needs
    ensures Visited(start, supply, needs, done + [OrderKey(day, id)], Arrived(supply, day), balance - needs[id],
                    if balance < needs[id] then affected + [id] else affected)
  {
    var done' := done + [OrderKey(day, id)];
    var p := Plan(start, supply, NeedsFor(done, needs));
    var q := Plan(start, supply, NeedsFor(done', needs));
    assert q.needs[..|done|] == p.needs == p.needs[..|done|];
    AffectedPrefix(p, q, |done|);
    assert q.needs[|done|] == TimedQuantity(day, needs[id], id);
  }

  lemma TaggedNone(done: seq<OrderKey>, day: Date, ids: seq<string>)
    ensures done + Tag(day, ids[..0]) == done
  {
  }

  lemma TaggedNext(done: seq<OrderKey>, day: Date, ids: seq<string>, i: nat)
    requires i < |ids|
    ensures done + Tag(day, ids[..i + 1]) == (done + Tag(day, ids[..i])) + [OrderKey(day, ids[i])]
  {
  }

  /** Visits one day's orders by id. */
  method VisitDay(start: int, ghost supply: seq<TimedQuantity>, needs: map<string, int>, ghost done: seq<OrderKey>,
                  ghost day: Date, ids: seq<string>, balance0: int, affected0: seq<string>)
    returns (balance: int, affected: seq<string>)
    requires Visited(start, supply, needs, done, Arrived(supply, day), balance0, affected0)
    requires forall id | id in ids :: id in needs
    ensures Visited(start, supply, needs, done + Tag(day, ids), Arrived(supply, day), balance, affected)
  {
    hide Visited, Tag;
    balance, affected := balance0, affected0;
    TaggedNone(done, day, ids);
    for i := 0 to |ids|
      invariant Visited(start, supply, needs, done + Tag(day, ids[..i]), Arrived(supply, day), balance, affected)
    {
      assert ids[i] in ids;
      var need := needs[ids[i]];
      VisitNext(start, supply, needs, done + Tag(day, ids[..i]), day, ids[i], balance, affected);
      TaggedNext(done, day, ids, i);
      if balance < need { affected := affected + [ids[i]]; }
      balance := balance - need;
    }
    assert ids[..|ids|] == ids;
  }

  function Dues(keys: seq<OrderKey>): set<Date> { set k | k in keys :: k.due }

  lemma IdsOnNext(keys: seq<OrderKey>, key: OrderKey, day: Date)
    ensures IdsOn(keys + [key], day) == IdsOn(keys, day) + if key.due == day then [key.id] else []
  {
    assert (keys + [key])[..|keys|] == keys;
  }

  lemma {:induction false} IdsOnKnown(keys: seq<OrderKey>, needs: map<string, int>, day: Date)
    requires Known(keys, needs)
    ensures forall id | id in IdsOn(keys, day) :: id in needs
  {
    if |keys| > 0 {
      assert keys == keys[..|keys| - 1] + [keys[|keys| - 1]];
      IdsOnKnown(keys[..|keys| - 1], needs, day);
    }
  }

  lemma {:induction false} IdsOnNone(keys: seq<OrderKey>, day: Date)
    requires day !in Dues(keys)
    ensures IdsOn(keys, day) == []
  {
    if |keys| > 0 {
      assert keys == keys[..|keys| - 1] + [keys[|keys| - 1]];
      assert Dues(keys) == Dues(keys[..|keys| - 1]) + {keys[|keys| - 1].due};
      IdsOnNone(keys[..|keys| - 1], day);
    }
  }

  /** The dictionary from each due date to the ids of its orders, in listed order. */
  ghost predicate Grouped(byDate: map<Date, seq<string>>, keys: seq<OrderKey>) {
    byDate.Keys == Dues(keys) && forall d | d in byDate :: byDate[d] == IdsOn(keys, d)
  }

  lemma GroupNext(byDate: map<Date, seq<string>>, keys: seq<OrderKey>, key: OrderKey)
    requires Grouped(byDate, keys)
    ensures var earlier := if key.due in byDate then byDate[key.due] else [];
      Grouped(byDate[key.due := earlier + [key.id]], keys + [key])
  {
    hide Dues, IdsOn;
    var earlier := if key.due in byDate then byDate[key.due] else [];
    var byDate' := byDate[key.due := earlier + [key.id]];
    DuesNext(keys, key);
    forall d | d in byDate' ensures byDate'[d] == IdsOn(keys + [key], d) {
      IdsOnNext(keys, key, d);
      if d !in byDate { IdsOnNone(keys, d); }
    }
  }

  lemma DuesNext(keys: seq<OrderKey>, key: OrderKey)
    ensures Dues(keys + [key]) == Dues(keys) + {key.due}
  {
  }

  /** `orders_by_date`: the exposed orders' ids under their due dates, in input order. */
  method GroupByDueDate(orders: seq<ProductionOrder>, needs: map<string, int>)
    returns (byDate: map<Date, seq<string>>)
    ensures Grouped(byDate, KeysOf(orders, needs))
  {
    byDate := map[];
    ghost var keys: seq<OrderKey> := [];
    assert Grouped(byDate, keys);
    hide Grouped;
    for i := 0 to |orders|
      invariant keys == KeysOf(orders[..i], needs) && Grouped(byDate, keys)
    {
      var order := orders[i];
      assert orders[..i + 1][..i] == orders[..i];
      if order.id in needs {
        GroupNext(byDate, keys, OrderKey(order.due, order.id));
        keys := keys + [OrderKey(order.due, order.id)];
        byDate := byDate[order.due := (if order.due in byDate then byDate[order.due] else []) + [order.id]];
      }
    }
    assert orders[..|orders|] == orders;
  }

  // --- The whole calculation -------------------------------------------------

  function AffectedCustomers(customers: seq<CustomerOrder>, affected: seq<string>): seq<CustomerOrder> {
    if |customers| == 0 then []
    else
      var n := |customers| - 1;
      AffectedCustomers(customers[..n], affected)
        + if customers[n].productionOrderId.Some? && customers[n].productionOrderId.value in affected
          then [customers[n]] else []
  }

  function Revenue(customers: seq<CustomerOrder>): int {
    if |customers| == 0 then 0
    else
      var last := customers[|customers| - 1];
      Revenue(customers[..|customers| - 1]) + last.unitRevenue * last.quantity
  }

  function Margin(customers: seq<CustomerOrder>): int {
    if |customers| == 0 then 0
    else
      var last := customers[|customers| - 1];
      Margin(customers[..|customers| - 1]) + last.unitMargin * last.quantity
  }

  function LineIds(customers: seq<CustomerOrder>): seq<string> {
    seq(|customers|, i requires 0 <= i < |customers| => customers[i].lineId)
  }

  /** Everything with a date: receipts, transfers and the exposed orders. */
  function Dated(receipts: seq<TimedQuantity>, transfers: seq<TimedQuantity>, keys: seq<OrderKey>): seq<TimedQuantity> {
    receipts + transfers + DueItems(keys)
  }

  lemma ArrivalsCount(start: int, supply: seq<TimedQuantity>, needs: map<string, int>, done: seq<OrderKey>,
                      arrived: int, balance: int, affected: seq<string>, received: int)
    requires Visited(start, supply, needs, done, arrived, balance, affected)
    ensures Visited(start, supply, needs, done, arrived + received, balance + received, affected)
  {
  }

  /** Adds the arrivals of day j, then visits its orders. */
  method VisitDate(start: int, receipts: seq<TimedQuantity>, transfers: seq<TimedQuantity>,
                   ghost keys: seq<OrderKey>, needs: map<string, int>, days: seq<Date>, j: nat,
                   received: int, ids: seq<string>, balance0: int, affected0: seq<string>)
    returns (balance: int, affected: seq<string>)
    requires Known(keys, needs) && days == SortedDates(Dated(receipts, transfers, keys)) && j < |days|
    requires received == SumOn(receipts, days[j]) + SumOn(transfers, days[j])
    requires ids == IdsOn(keys, days[j])
    requires Visited(start, receipts + transfers, needs, DayByDay(keys, days[..j]),
                     Arrived(receipts + transfers, Before(days, j)), balance0, affected0)
    ensures Visited(start, receipts + transfers, needs, DayByDay(keys, days[..j + 1]),
                    Arrived(receipts + transfers, Before(days, j + 1)), balance, affected)
  {
    hide Visited, Arrived, SumOn, Tag, IdsOn, StrLe, SortBy;
    NextArrivals(receipts, transfers, Dated(receipts, transfers, keys), j);
    IdsOnKnown(keys, needs, days[j]);
    SortByRearranges(StrLe, ids);
    assert days[..j + 1][..j] == days[..j];
    ArrivalsCount(start, receipts + transfers, needs, DayByDay(keys, days[..j]),
                  Arrived(receipts + transfers, Before(days, j)), balance0, affected0, received);
    balance, affected := VisitDay(start, receipts + transfers, needs, DayByDay(keys, days[..j]), days[j],
                                  SortBy(StrLe, ids), balance0 + received, affected0);
  }

  /** The orders that the running balance cannot serve, visited day by day and by id within a day. */
  method AffectedOrders(start: int, receipts: seq<TimedQuantity>, transfers: seq<TimedQuantity>,
                        orders: seq<ProductionOrder>, demand: seq<TimedQuantity>)
    returns (affected: seq<string>)
    ensures var p := DuePlan(start, receipts, transfers, orders, demand); affected == AffectedIds(p, |p.needs|)
  {
    var needs := DemandById(demand);
    var receiptByDate := TotalByDate(receipts);
    var transferByDate := TotalByDate(transfers);
    var idsByDate := GroupByDueDate(orders, needs);
    var keys := KeysOf(orders, needs);
    KeysAreKnown(orders, needs);
    var days := SortedDates(Dated(receipts, transfers, keys));
    var balance := start;
    affected := [];
    NoArrivalsYet(receipts, transfers, Dated(receipts, transfers, keys), days);
    for j := 0 to |days|
      invariant Visited(start, receipts + transfers, needs, DayByDay(keys, days[..j]),
                        Arrived(receipts + transfers, Before(days, j)), balance, affected)
    {
      OrZeroIsSum(receiptByDate, receipts, days[j]);
      OrZeroIsSum(transferByDate, transfers, days[j]);
      if days[j] !in idsByDate { IdsOnNone(keys, days[j]); }
      balance, affected := VisitDate(
        start, receipts, transfers, keys, needs, days, j,
        OrZero(receiptByDate, days[j]) + OrZero(transferByDate, days[j]),
        if days[j] in idsByDate then idsByDate[days[j]] else [], balance, affected);
    }
    AllDaysVisited(receipts, transfers, keys, days);
  }

  lemma AllDaysVisited(receipts: seq<TimedQuantity>, transfers: seq<TimedQuantity>, keys: seq<OrderKey>,
                       days: seq<Date>)
    requires days == SortedDates(Dated(receipts, transfers, keys))
    ensures DayByDay(keys, days[..|days|]) == SortBy(KeyLe, keys)
  {
    var dated := Dated(receipts, transfers, keys);
    assert days[..|days|] == days;
    SortedDatesAscend(dated);
    DueItemDates(keys);
    forall k | k in keys ensures k.due in days {
      assert k.due in Dues(keys);
      var t :| t in DueItems(keys) && t.date == k.due;
      assert t in dated;
    }
    DayByDayIsDueOrder(keys, days);
  }

  function DueItems(keys: seq<OrderKey>): seq<TimedQuantity> {
    seq(|keys|, i requires 0 <= i < |keys| => TimedQuantity(keys[i].due, 0, keys[i].id))
  }

  lemma DueItemDates(keys: seq<OrderKey>)
    ensures Dates(DueItems(keys)) == Dues(keys)
  {
    forall k | k in keys ensures k.due in Dates(DueItems(keys)) {
      var i :| 0 <= i < |keys| && keys[i] == k;
      assert DueItems(keys)[i] in DueItems(keys);
    }
  }

  lemma NoArrivalsYet(receipts: seq<TimedQuantity>, transfers: seq<TimedQuantity>, dated: seq<TimedQuantity>,
                      days: seq<Date>)
    requires receipts + transfers <= dated && days == SortedDates(dated)
    ensures Arrived(receipts + transfers, Before(days, 0)) == 0
  {
    SortedDatesAscend(dated);
    forall t | t in receipts + transfers ensures Before(days, 0) < t.date {
      assert t in dated;
      assert t.date in Dates(dated);
    }
    ArrivedNone(receipts + transfers, Before(days, 0));
  }

  lemma NextArrivals(receipts: seq<TimedQuantity>, transfers: seq<TimedQuantity>, dated: seq<TimedQuantity>, j: nat)
    requires receipts + transfers <= dated && j < |SortedDates(dated)|
    ensures var days := SortedDates(dated);
      Arrived(receipts + transfers, days[j])
      == Arrived(receipts + transfers, Before(days, j)) + SumOn(receipts, days[j]) + SumOn(transfers, days[j])
  {
    var days := SortedDates(dated);
    SortedDatesAscend(dated);
    forall t | t in receipts + transfers ensures t.date <= Before(days, j) || days[j] <= t.date {
      assert t in dated;
      assert t.date in Dates(dated);
      assert t.date in days;
    }
    assert forall t | t in receipts || t in transfers :: t in receipts + transfers;
    ArrivedAppend(receipts, transfers, days[j]);
    ArrivedAppend(receipts, transfers, Before(days, j));
    ArrivedStep(receipts, Before(days, j), days[j]);
    ArrivedStep(transfers, Before(days, j), days[j]);
  }

  function SourceId(t: TimedQuantity): string { t.sourceId }

  /** The ids of the positions and of everything dated that the calculation used, each once, in order. */
  function LineageOf(positions: seq<InventoryPosition>, part: string, plant: string,
                     items: seq<TimedQuantity>): seq<string> {
    SortedSet(Map(PositionId, Filter(HeldAt(part, plant), positions)) + Map(SourceId, items))
  }

  method CalculateExposure(
    part: string, plant: string, positions: seq<InventoryPosition>, receipts: seq<TimedQuantity>,
    transfers: seq<TimedQuantity>, boms: seq<BomComponent>, orders: seq<ProductionOrder>,
    customers: seq<CustomerOrder>, responseCost: int, assumptions: seq<string>, remainingUncertainty: seq<string>)
    returns (r: ExposureResult)
    ensures var usable := UsableAt(positions, part, plant);
      var demand := PartDemand(part, plant, boms, orders);
      var p := DuePlan(usable, receipts, transfers, orders, demand);
      var points := Projection(usable, receipts, transfers, demand);
      var affected := AffectedIds(p, |p.needs|);
      var lines := AffectedCustomers(customers, affected);
      r == ExposureResult(usable, points, FirstStockout(points), WorstShortage(points), affected, LineIds(lines),
                          Revenue(lines), Margin(lines), |lines|, responseCost, 0, assumptions, remainingUncertainty,
                          LineageOf(positions, part, plant, receipts + transfers + demand))
  {
    var usable := 0;
    for i := 0 to |positions|
      invariant usable == UsableAt(positions[..i], part, plant)
    {
      assert positions[..i + 1][..i] == positions[..i];
      if positions[i].partId == part && positions[i].plantId == plant {
        usable := usable + Usable(positions[i]);
      }
    }
    assert positions[..|positions|] == positions;
    var demand := ComponentDemandForPart(part, plant, boms, orders);
    var points := ProjectInventory(usable, receipts, transfers, demand);
    var firstStockout, shortage := ReadStockouts(points);
    var affected := AffectedOrders(usable, receipts, transfers, orders, demand);
    var lines: seq<CustomerOrder> := [];
    for i := 0 to |customers|
      invariant lines == AffectedCustomers(customers[..i], affected)
    {
      assert customers[..i + 1][..i] == customers[..i];
      if customers[i].productionOrderId.Some? && customers[i].productionOrderId.value in affected {
        lines := lines + [customers[i]];
      }
    }
    assert customers[..|customers|] == customers;
    r := ExposureResult(usable, points, firstStockout, shortage, affected, LineIds(lines), Revenue(lines),
                        Margin(lines), |lines|, responseCost, 0, assumptions, remainingUncertainty,
                        LineageOf(positions, part, plant, receipts + transfers + demand));
  }
}
