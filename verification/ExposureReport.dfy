/** What the exposure calculation reports, as sums and selections of its own inputs
    (services/exposure/calculator.py). */
module ExposureReport {
  import opened Basics
  import opened Ordering
  import opened Supply
  import opened SupplyLaws
  import opened Exposure
  import opened ExposureCalculation
  import opened ExposureLaws

  function Quantity(): TimedQuantity -> int { (t: TimedQuantity) => t.quantity }

  function Till(day: Date): TimedQuantity -> bool { (t: TimedQuantity) => t.date <= day }

  function On(day: Date): TimedQuantity -> bool { (t: TimedQuantity) => t.date == day }

  /** What is dated up to the day, and what is dated on it. */
  lemma {:induction false} DatedSums(items: seq<TimedQuantity>, day: Date)
    ensures Arrived(items, day) == Sum(Quantity(), Filter(Till(day), items))
    ensures SumOn(items, day) == Sum(Quantity(), Filter(On(day), items))
  {
    if |items| > 0 {
      DatedSums(items[1..], day);
      SumSplit(Quantity(), if items[0].date <= day then [items[0]] else [], Filter(Till(day), items[1..]));
      SumSplit(Quantity(), if items[0].date == day then [items[0]] else [], Filter(On(day), items[1..]));
    }
  }

  lemma SumOfLast<T>(f: T -> int, keep: T -> bool, xs: seq<T>)
    requires |xs| > 0
    ensures var n := |xs| - 1;
      Sum(f, Filter(keep, xs)) == Sum(f, Filter(keep, xs[..n])) + if keep(xs[n]) then f(xs[n]) else 0
  {
    var n := |xs| - 1;
    assert xs == xs[..n] + [xs[n]];
    FilterSplit(keep, xs[..n], [xs[n]]);
    assert Filter(keep, [xs[n]]) == if keep(xs[n]) then [xs[n]] else [];
    SumSplit(f, Filter(keep, xs[..n]), Filter(keep, [xs[n]]));
  }

  /** The usable inventory: the free units of each position of the part at the plant, none of them below zero. */
  lemma {:induction false} UsableIs(positions: seq<InventoryPosition>, part: string, plant: string)
    ensures UsableAt(positions, part, plant)
         == Sum((p: InventoryPosition) => var free := p.onHand - p.qualityHold - p.protectedAllocation;
                                          if free > 0 then free else 0,
                Filter((p: InventoryPosition) => p.partId == part && p.plantId == plant, positions))
  {
    if |positions| > 0 {
      UsableIs(positions[..|positions| - 1], part, plant);
      SumOfLast((p: InventoryPosition) => var free := p.onHand - p.qualityHold - p.protectedAllocation;
                                          if free > 0 then free else 0,
                (p: InventoryPosition) => p.partId == part && p.plantId == plant, positions);
    }
  }

  /** How much of the part one unit of the product takes. */
  lemma {:induction false} QuantityPerIs(boms: seq<BomComponent>, part: string, product: string)
    ensures QuantityPer(boms, part, product)
         == Sum((b: BomComponent) => b.quantityPer,
                Filter((b: BomComponent) => b.componentPartId == part && b.productId == product, boms))
  {
    if |boms| > 0 {
      QuantityPerIs(boms[..|boms| - 1], part, product);
      SumOfLast((b: BomComponent) => b.quantityPer,
                (b: BomComponent) => b.componentPartId == part && b.productId == product, boms);
    }
  }

  /** The plant's orders whose product takes any of the part. */
  function Takes(part: string, plant: string, boms: seq<BomComponent>): ProductionOrder -> bool {
    (o: ProductionOrder) => o.plantId == plant && QuantityPer(boms, part, o.productId) > 0
  }

  function NeedOf(part: string, boms: seq<BomComponent>): ProductionOrder -> TimedQuantity {
    (o: ProductionOrder) => TimedQuantity(o.due, o.quantity * QuantityPer(boms, part, o.productId), o.id)
  }

  lemma MapOfLast<T, U>(f: T -> U, keep: T -> bool, xs: seq<T>)
    requires |xs| > 0
    ensures var n := |xs| - 1;
      Map(f, Filter(keep, xs)) == Map(f, Filter(keep, xs[..n])) + if keep(xs[n]) then [f(xs[n])] else []
  {
    var n := |xs| - 1;
    assert xs == xs[..n] + [xs[n]];
    FilterSplit(keep, xs[..n], [xs[n]]);
    assert Filter(keep, [xs[n]]) == if keep(xs[n]) then [xs[n]] else [];
    MapSplit(f, Filter(keep, xs[..n]), Filter(keep, [xs[n]]));
  }

  /** The demand: for each such order in turn, its quantity times the part it takes, due when the order is. */
  lemma {:induction false} PartDemandIs(part: string, plant: string, boms: seq<BomComponent>,
                                        orders: seq<ProductionOrder>)
    ensures PartDemand(part, plant, boms, orders)
         == Map(NeedOf(part, boms), Filter(Takes(part, plant, boms), orders))
  {
    hide QuantityPer;
    if |orders| > 0 {
      PartDemandIs(part, plant, boms, orders[..|orders| - 1]);
      MapOfLast(NeedOf(part, boms), Takes(part, plant, boms), orders);
    }
  }

  /** The customer lines of the affected orders, in listed order. */
  lemma {:induction false} LinesAre(customers: seq<CustomerOrder>, affected: seq<string>)
    ensures AffectedCustomers(customers, affected)
         == Filter((l: CustomerOrder) => l.productionOrderId.Some? && l.productionOrderId.value in affected, customers)
  {
    if |customers| > 0 {
      var n := |customers| - 1;
      var hit := (l: CustomerOrder) => l.productionOrderId.Some? && l.productionOrderId.value in affected;
      LinesAre(customers[..n], affected);
      assert customers == customers[..n] + [customers[n]];
      FilterSplit(hit, customers[..n], [customers[n]]);
      assert Filter(hit, [customers[n]]) == if hit(customers[n]) then [customers[n]] else [];
    }
  }

  /** The revenue and the margin at risk: each line's own per unit, times its quantity. */
  lemma {:induction false} MoneyIs(lines: seq<CustomerOrder>)
    ensures Revenue(lines) == Sum((l: CustomerOrder) => l.unitRevenue * l.quantity, lines)
    ensures Margin(lines) == Sum((l: CustomerOrder) => l.unitMargin * l.quantity, lines)
  {
    if |lines| > 0 {
      var n := |lines| - 1;
      MoneyIs(lines[..n]);
      assert lines == lines[..n] + [lines[n]];
      SumSplit((l: CustomerOrder) => l.unitRevenue * l.quantity, lines[..n], [lines[n]]);
      SumSplit((l: CustomerOrder) => l.unitMargin * l.quantity, lines[..n], [lines[n]]);
    }
  }

  /** The first stockout is the first day of the projection whose balance is negative. */
  lemma {:induction false} FirstStockoutIs(points: seq<ProjectionPoint>)
    ensures FirstStockout(points).None? <==> forall i | 0 <= i < |points| :: points[i].balance >= 0
    ensures FirstStockout(points).Some? ==>
      exists i :: 0 <= i < |points| && points[i].balance < 0 && FirstStockout(points) == Some(points[i].date)
                  && forall j | 0 <= j < i :: points[j].balance >= 0
  {
    if |points| > 0 && points[0].balance >= 0 {
      FirstStockoutIs(points[1..]);
      if FirstStockout(points[1..]).Some? {
        var i :| 0 <= i < |points[1..]| && points[1..][i].balance < 0
          && FirstStockout(points[1..]) == Some(points[1..][i].date)
          && forall j | 0 <= j < i :: points[1..][j].balance >= 0;
        assert points[i + 1].balance < 0;
        assert forall j | 0 < j < i + 1 :: points[j] == points[1..][j - 1];
      }
    }
  }

  /** The affected orders: those for which what has arrived by their due date, less what the orders before them need, is
      less than they need. */
  lemma {:induction false} AffectedAre(p: Plan, n: nat)
    requires n <= |p.needs|
    ensures forall id :: id in AffectedIds(p, n) <==>
              exists k :: 0 <= k < n && p.needs[k].sourceId == id
                          && p.start + Arrived(p.supply, p.needs[k].date) - p.Demanded(k) < p.needs[k].quantity
  {
    if n > 0 {
      AffectedAre(p, n - 1);
      assert Affected(p, n - 1)
          <==> p.start + Arrived(p.supply, p.needs[n - 1].date) - p.Demanded(n - 1) < p.needs[n - 1].quantity;
    }
  }

  /** The orders before an order: earlier due, or due the same day with an id not after its own. */
  lemma NeedsInTurn(start: int, receipts: seq<TimedQuantity>, transfers: seq<TimedQuantity>,
                    orders: seq<ProductionOrder>,
                    demand: seq<TimedQuantity>)
    ensures var p := DuePlan(start, receipts, transfers, orders, demand);
      && p.start == start && p.supply == receipts + transfers
      && forall i, j | 0 <= i < j < |p.needs| ::
           || p.needs[i].date < p.needs[j].date
           || (p.needs[i].date == p.needs[j].date && StrLe(p.needs[i].sourceId, p.needs[j].sourceId))
  {
    KeyLeOrder();
    SortBySorts(KeyLe, KeysOf(orders, DemandById(demand)));
    DueKeysAreKnown(orders, DemandById(demand));
  }

  /** What the orders before the k-th need. */
  lemma {:induction false} DemandedIs(p: Plan, k: nat)
    requires k <= |p.needs|
    ensures p.Demanded(k) == Sum(Quantity(), p.needs[..k])
  {
    if k > 0 {
      DemandedIs(p, k - 1);
      TakeNext(p.needs, k - 1);
      SumSplit(Quantity(), p.needs[..k - 1], [p.needs[k - 1]]);
    }
  }

  /** What is dated up to the day, in all. */
  function DatedTill(items: seq<TimedQuantity>, day: Date): int { Sum(Quantity(), Filter(Till(day), items)) }

  /** One point for each day with an event, in order of the days; its balance is the opening stock and all arrivals,
      less all demand, up to that day. */
  lemma ProjectedAre(start: int, receipts: seq<TimedQuantity>, transfers: seq<TimedQuantity>,
                     demand: seq<TimedQuantity>)
    ensures var points := Projection(start, receipts, transfers, demand);
      && (forall i, j | 0 <= i < j < |points| :: points[i].date < points[j].date)
      && forall i | 0 <= i < |points| :: points[i].balance
           == start + DatedTill(receipts, points[i].date) + DatedTill(transfers, points[i].date)
              - DatedTill(demand, points[i].date)
    ensures forall t | t in receipts + transfers + demand ::
              exists p :: p in Projection(start, receipts, transfers, demand) && p.date == t.date
    ensures forall p | p in Projection(start, receipts, transfers, demand) ::
              exists t :: t in receipts + transfers + demand && t.date == p.date
  {
    hide Arrived, SumOn, Filter, Sum, SortedDates, Till;
    var all := receipts + transfers + demand;
    var points, days := Projection(start, receipts, transfers, demand), SortedDates(all);
    SortedDatesAscend(all);
    forall i | 0 <= i < |points|
      ensures points[i].balance == start + DatedTill(receipts, points[i].date) + DatedTill(transfers, points[i].date)
                                   - DatedTill(demand, points[i].date)
    {
      DatedSums(receipts, points[i].date);
      DatedSums(transfers, points[i].date);
      DatedSums(demand, points[i].date);
    }
    forall t | t in all ensures exists p :: p in points && p.date == t.date {
      assert t.date in Dates(all) && t.date in days;
      var i :| 0 <= i < |days| && days[i] == t.date;
      assert points[i] in points && points[i].date == t.date;
    }
    forall p | p in points ensures exists t :: t in all && t.date == p.date {
      var i :| 0 <= i < |points| && points[i] == p;
      assert days[i] in days && p.date in Dates(all);
    }
  }

  /** The sources the report names: the part's positions at the plant and everything dated, each once, in order. */
  lemma LineageIs(positions: seq<InventoryPosition>, part: string, plant: string, items: seq<TimedQuantity>)
    ensures var lineage := LineageOf(positions, part, plant, items);
      && Sorted(StrLe, lineage) && Distinct(lineage)
      && forall id :: id in lineage <==>
           || (exists p :: p in positions && p.partId == part && p.plantId == plant && p.id == id)
           || exists t :: t in items && t.sourceId == id
  {
    var held := Filter(HeldAt(part, plant), positions);
    SortedSetSorts(Map(PositionId, held) + Map(SourceId, items));
    hide SortedSet, Sorted, Distinct;
    FilterMembers(HeldAt(part, plant), positions);
    MapMembers(PositionId, held);
    MapMembers(SourceId, items);
  }
}
