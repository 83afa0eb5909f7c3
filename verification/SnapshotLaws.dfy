/** The two analyses start from different stocks: the exposure calculation clamps every position at zero
    (services/exposure/calculator.py:21-24), the snapshot behind the allocator does not (data/synthetic/rl001.py:49-54).
    What the allocator misses and what the exposure calculation reports, from the same positions and demands. */
module SnapshotLaws {
  import opened Basics
  import opened Ordering
  import opened Supply
  import opened SupplyLaws
  import opened Exposure
  import opened ExposureCalculation
  import opened ExposureLaws
  import opened ResponseOptions

  /** Every position of the part at the plant has at least what it holds back. */
  predicate HoldsAreCovered(positions: seq<InventoryPosition>, part: string, plant: string) {
    forall p | p in positions && p.partId == part && p.plantId == plant ::
      p.onHand >= p.qualityHold + p.protectedAllocation
  }

  lemma {:induction false} StockIsUsableWhenCovered(positions: seq<InventoryPosition>, part: string, plant: string)
    ensures StockAt(positions, part, plant) <= UsableAt(positions, part, plant)
    ensures StockAt(positions, part, plant) == UsableAt(positions, part, plant)
       <==> HoldsAreCovered(positions, part, plant)
  {
    if |positions| > 0 {
      var n := |positions| - 1;
      assert positions == positions[..n] + [positions[n]];
      StockIsUsableWhenCovered(positions[..n], part, plant);
      StockSplits(positions[..n], [positions[n]], part, plant);
    }
  }

  // --- The same demands from less stock -----------------------------------------

  lemma {:induction false} BacklogFromLess(p: Plan, stock: int, k: nat)
    requires k <= |p.needs|
    ensures var q := p.(start := stock);
      q.Demanded(k) == p.Demanded(k) && (k > 0 ==> q.Shortfall(k) == p.Shortfall(k) + p.start - stock)
  {
    if k > 0 {
      BacklogFromLess(p, stock, k - 1);
      HorizonFromLess(p, stock, k);
    }
  }

  lemma {:induction false} HorizonFromLess(p: Plan, stock: int, k: nat)
    requires 0 < k <= |p.needs|
    ensures p.(start := stock).Horizon(k) == p.Horizon(k)
  {
    if k > 1 { HorizonFromLess(p, stock, k - 1); }
  }

  ghost predicate NoShortfall(p: Plan) { forall k | 0 < k <= |p.needs| :: p.Shortfall(k) <= 0 }

  /** From less stock the greedy misses as much exactly when it misses nothing. */
  lemma MissesFromLess(p: Plan, stock: int)
    requires p.start <= stock
    ensures var n, q := |p.needs|, p.(start := stock);
      q.TotalUncovered(n) == p.TotalUncovered(n) <==> (p.start == stock || NoShortfall(p))
    ensures NoShortfall(p) ==> p.TotalUncovered(|p.needs|) == 0
  {
    var n, q := |p.needs|, p.(start := stock);
    ReflectionIdentity(p, n);
    ReflectionIdentity(q, n);
    PeakAttained(p, n);
    PeakAttained(q, n);
    forall k | 0 < k <= n ensures q.Shortfall(k) == p.Shortfall(k) + p.start - stock { BacklogFromLess(p, stock, k); }
  }

  /** For all positions, supply and demands, in any processing order: the allocator misses from the snapshot's stock
      what it misses from the usable inventory exactly when no relevant position holds back more than it has, or
      demand never runs ahead of stock and supply. */
  lemma SnapshotMissesAsUsable(positions: seq<InventoryPosition>, part: string, plant: string,
                               supply: seq<TimedQuantity>, needs: seq<TimedQuantity>)
    ensures var n := |needs|;
      var p := Plan(StockAt(positions, part, plant), supply, needs);
      var q := Plan(UsableAt(positions, part, plant), supply, needs);
      p.TotalUncovered(n) == q.TotalUncovered(n) <==> (HoldsAreCovered(positions, part, plant) || NoShortfall(p))
  {
    StockIsUsableWhenCovered(positions, part, plant);
    MissesFromLess(Plan(StockAt(positions, part, plant), supply, needs), UsableAt(positions, part, plant));
  }

  // --- Against what the exposure calculation reports -----------------------------

  /** From the snapshot's stock, on the exposure calculation's own demands: the misses are the maximum shortage it
      reports exactly under that condition, and then the same orders are unprotected. */
  lemma SnapshotAgreesWithExposure(
    part: string, plant: string, positions: seq<InventoryPosition>, receipts: seq<TimedQuantity>,
    transfers: seq<TimedQuantity>, boms: seq<BomComponent>, orders: seq<ProductionOrder>)
    requires DistinctIds(orders) && NonNegative(receipts + transfers) && forall o | o in orders :: o.quantity >= 0
    ensures var usable := UsableAt(positions, part, plant);
      var demand := PartDemand(part, plant, boms, orders);
      var p := DuePlan(StockAt(positions, part, plant), receipts, transfers, orders, demand);
      var n := |p.needs|;
      && (p.TotalUncovered(n) == WorstShortage(Projection(usable, receipts, transfers, demand))
          <==> (HoldsAreCovered(positions, part, plant) || NoShortfall(p)))
      && (HoldsAreCovered(positions, part, plant) || NoShortfall(p) ==>
            UnprotectedIds(p, n) == UnprotectedIds(p.(start := usable), n))
  {
    var usable := UsableAt(positions, part, plant);
    var demand := PartDemand(part, plant, boms, orders);
    var p := DuePlan(StockAt(positions, part, plant), receipts, transfers, orders, demand);
    var q := DuePlan(usable, receipts, transfers, orders, demand);
    assert q == p.(start := usable);
    ExposureAgreesWithAllocation(part, plant, positions, receipts, transfers, boms, orders);
    SnapshotMissesAsUsable(positions, part, plant, p.supply, p.needs);
    StockIsUsableWhenCovered(positions, part, plant);
    if NoShortfall(p) {
      MissesFromLess(p, usable);
      DuePlanInDueOrder(p.start, receipts, transfers, orders, demand);
      DuePlanInDueOrder(usable, receipts, transfers, orders, demand);
      AffectedListsAgree(p, |p.needs|);
      AffectedListsAgree(q, |q.needs|);
    }
  }

  lemma {:induction false} ScheduledNeeds(orders: seq<ProductionOrder>)
    requires DemandsKnown(orders)
    ensures var due := Scheduled(orders, false);
      DemandsKnown(due) && multiset(NeedsOf(due)) == multiset(NeedsOf(orders))
      && forall i, j | 0 <= i < j < |due| :: NeedsOf(due)[i].date <= NeedsOf(due)[j].date
  {
    OrderKeysAreOrders();
    SortBySorts(DueLe, orders);
    var due := SortBy(DueLe, orders);
    forall i, j | 0 <= i < j < |due| ensures NeedsOf(due)[i].date <= NeedsOf(due)[j].date {
      assert DueLe(due[i], due[j]);
    }
    NeedsAreMapped(orders);
    NeedsAreMapped(due);
    MapPermutation(NeedOf, orders, due);
  }

  function NeedOf(o: ProductionOrder): TimedQuantity {
    TimedQuantity(o.due, if o.componentDemand.Some? then o.componentDemand.value else 0, o.id)
  }

  lemma NeedsAreMapped(orders: seq<ProductionOrder>)
    requires DemandsKnown(orders)
    ensures NeedsOf(orders) == Map(NeedOf, orders)
  {
    MapIndex(NeedOf, orders);
    forall i | 0 <= i < |orders| ensures orders[i].componentDemand.Some? { assert orders[i] in orders; }
  }

  /** End to end, for a snapshot whose orders carry the demands of the bill of materials: the uncovered demand predicted
      in due order is the maximum shortage the exposure calculation reports for the same supply exactly when no relevant
      position holds back more than it has, or demand never runs ahead of the snapshot's stock and the supply. */
  lemma OutcomeAgreesWithExposure(s: Snapshot, receipts: seq<TimedQuantity>, transfers: seq<TimedQuantity>,
                                  boms: seq<BomComponent>, cost: int)
    requires InterventionOutcome(s, receipts + transfers, false, cost).Ok?
    requires DemandsKnown(s.orders)
    requires multiset(NeedsOf(s.orders)) == multiset(PartDemand(s.disruptedPart, s.disruptedPlant, boms, s.orders))
    requires NonNegative(receipts + transfers) && NonNegative(NeedsOf(s.orders))
    ensures var part, plant := s.disruptedPart, s.disruptedPlant;
      var demand := PartDemand(part, plant, boms, s.orders);
      var due := Scheduled(s.orders, false);
      && DemandsKnown(due)
      && (InterventionOutcome(s, receipts + transfers, false, cost).value.uncovered
            == WorstShortage(Projection(UsableAt(s.positions, part, plant), receipts, transfers, demand))
          <==> (HoldsAreCovered(s.positions, part, plant)
                || NoShortfall(Plan(StockAt(s.positions, part, plant), receipts + transfers, NeedsOf(due)))))
  {
    var part, plant := s.disruptedPart, s.disruptedPlant;
    var demand := PartDemand(part, plant, boms, s.orders);
    ScheduledNeeds(s.orders);
    var needs := NeedsOf(Scheduled(s.orders, false));
    var q := Plan(UsableAt(s.positions, part, plant), receipts + transfers, needs);
    forall t | t in needs ensures t.quantity >= 0 { assert t in multiset(NeedsOf(s.orders)); }
    UsableIsNonNegative(s.positions, part, plant);
    GreedyMissIsMaximumShortage(q, receipts, transfers, demand);
    SnapshotMissesAsUsable(s.positions, part, plant, receipts + transfers, needs);
  }

  // --- Where they differ -----------------------------------------------------------

  const HELD := [InventoryPosition("I", "P", "L", 0, 10, 0)]
  const BOM := [BomComponent("X", "P", 1)]
  const ORDER := ProductionOrder("A", "X", "L", 1, 5, Some(1), None, None, None, None)

  /** Ten units held for quality where none are on hand, one unit needed, nothing to come: the exposure calculation
      reports a shortage of one, and the allocator misses eleven. */
  lemma HeldStockSeparatesTheViews()
    ensures var demand := PartDemand("P", "L", BOM, [ORDER]);
      && DemandsKnown([ORDER]) && demand == NeedsOf([ORDER])
      && WorstShortage(Projection(UsableAt(HELD, "P", "L"), [], [], demand)) == 1
      && Plan(StockAt(HELD, "P", "L"), [], NeedsOf([ORDER])).TotalUncovered(1) == 11
  {
    var need := TimedQuantity(5, 1, "A");
    assert HELD[..0] == [] && BOM[..0] == [] && [ORDER][..0] == [];
    assert QuantityPer(BOM, "P", "X") == 1;
    assert PartDemand("P", "L", BOM, [ORDER]) == [need] == NeedsOf([ORDER]);
    assert UsableAt(HELD, "P", "L") == 0 && StockAt(HELD, "P", "L") == -10;
    MissesTheDemand(0, need);
    MissesTheDemand(-10, need);
    var p := Plan(0, [], [need]);
    assert [] + [] == p.supply;
    GreedyMissIsMaximumShortage(p, [], [], [need]);
  }

  lemma MissesTheDemand(stock: int, need: TimedQuantity)
    requires stock <= 0 <= need.quantity
    ensures Plan(stock, [], [need]).TotalUncovered(1) == need.quantity - stock
  {
    var p := Plan(stock, [], [need]);
    assert p.Received(1) == 0 && p.Received(0) == 0 && p.Leftover(0) == stock;
    assert p.Allocated(0) == stock;
    assert p.TotalUncovered(1) == p.TotalUncovered(0) + p.Uncovered(0);
  }
}
