/** What a predicted outcome says about the orders themselves (services/analysis/options.py:51-127 and 254-287). */
module OutcomeLaws {
  import opened Basics
  import opened Ordering
  import opened Supply
  import opened SupplyLaws
  import opened Exposure
  import opened ExposureLaws
  import opened ResponseOptions

  // --- The processing order -------------------------------------------------------------------

  predicate EarlierDue(a: ProductionOrder, b: ProductionOrder) {
    a.due < b.due || (a.due == b.due && StrLe(a.id, b.id))
  }

  predicate MoreUrgent(a: ProductionOrder, b: ProductionOrder) {
    match (a.priority, b.priority)
    case (Some(x), Some(y)) => x < y || (x == y && StrLe(a.id, b.id))
    case _ => StrLe(a.id, b.id)
  }

  /** The snapshot's orders, each once, by due date and id, or by priority and id: the smaller number first. */
  lemma ScheduleIs(orders: seq<ProductionOrder>, byPriority: bool)
    requires byPriority ==> PrioritiesComparable(orders)
    ensures multiset(Scheduled(orders, byPriority)) == multiset(orders)
    ensures |Scheduled(orders, byPriority)| == |orders|
    ensures forall i, j | 0 <= i < j < |orders| :: var s := Scheduled(orders, byPriority);
      if byPriority then MoreUrgent(s[i], s[j]) else EarlierDue(s[i], s[j])
  {
    OrderKeysAreOrders();
    hide SortBy;
    SortBySorts(DueLe, orders);
    SortBySorts(PriorityLe, orders);
    var s := Scheduled(orders, byPriority);
    forall i, j | 0 <= i < j < |orders| ensures if byPriority then MoreUrgent(s[i], s[j]) else EarlierDue(s[i], s[j]) {
      assert s[i] in s && s[j] in s;
      assert if byPriority then PriorityLe(s[i], s[j]) else DueLe(s[i], s[j]);
    }
  }

  // --- From the allocation to the orders ---------------------------------------------------------

  /** With distinct ids the dictionary keeps every order's own outcome. */
  lemma {:induction false} OutcomeKept(p: Plan, orders: seq<ProductionOrder>, k: nat)
    requires DistinctIds(orders) && DemandsKnown(orders) && p.needs == NeedsOf(orders) && k <= |orders|
    ensures forall i | 0 <= i < k :: orders[i].id in p.ByOrder(k) && p.ByOrder(k)[orders[i].id] == p.Outcome(i)
  {
    if k > 0 { OutcomeKept(p, orders, k - 1); }
  }

  /** Served in full from what had arrived. */
  predicate OnTime(p: Plan, i: nat)
    requires i < |p.needs|
  {
    p.Uncovered(i) == 0
  }

  function LateCount(p: Plan, k: nat): nat
    requires k <= |p.needs|
  {
    if k == 0 then 0 else LateCount(p, k - 1) + if OnTime(p, k - 1) then 0 else 1
  }

  /** The amounts of the first k orders that are not on time. */
  function LateMoney(p: Plan, amounts: seq<Option<int>>, k: nat): int
    requires k <= |p.needs| == |amounts|
  {
    if k == 0 then 0
    else
      var own := match amounts[k - 1] case Some(amount) => (if OnTime(p, k - 1) then 0 else amount) case None => 0;
      LateMoney(p, amounts, k - 1) + own
  }

  /** The customer orders of the first k orders that are on time. */
  function OnTimeCustomers(p: Plan, customers: seq<Option<string>>, k: nat): seq<string>
    requires k <= |p.needs| == |customers|
  {
    if k == 0 then []
    else
      var own := match customers[k - 1] case Some(id) => (if OnTime(p, k - 1) then [id] else []) case None => [];
      OnTimeCustomers(p, customers, k - 1) + own
  }

  lemma {:induction false} CountSplits(byOrder: map<string, OrderAllocation>, xs: seq<ProductionOrder>,
                                       ys: seq<ProductionOrder>)
    ensures ProtectedCount(byOrder, xs + ys) == ProtectedCount(byOrder, xs) + ProtectedCount(byOrder, ys)
  {
    if |xs| == 0 {
      assert xs + ys == ys;
    } else {
      HeadAndTail(xs, ys);
      CountSplits(byOrder, xs[1..], ys);
    }
  }

  lemma {:induction false} CustomersSplit(byOrder: map<string, OrderAllocation>, xs: seq<ProductionOrder>,
                                          ys: seq<ProductionOrder>)
    ensures ProtectedCustomers(byOrder, xs + ys) == ProtectedCustomers(byOrder, xs) + ProtectedCustomers(byOrder, ys)
  {
    if |xs| == 0 {
      assert xs + ys == ys;
    } else {
      hide Protected;
      HeadAndTail(xs, ys);
      CustomersSplit(byOrder, xs[1..], ys);
      var own := if Protected(byOrder, xs[0]) && xs[0].customerOrderId.Some? then [xs[0].customerOrderId.value] else [];
      Regroup(own, ProtectedCustomers(byOrder, xs[1..]), ProtectedCustomers(byOrder, ys));
    }
  }

  lemma {:induction false} RiskSplits(byOrder: map<string, OrderAllocation>, xs: seq<ProductionOrder>,
                                      ys: seq<ProductionOrder>, money: ProductionOrder -> Option<int>)
    requires AtRisk(byOrder, xs + ys, money).Some?
    ensures AtRisk(byOrder, xs, money).Some? && AtRisk(byOrder, ys, money).Some?
    ensures AtRisk(byOrder, xs + ys, money).value == AtRisk(byOrder, xs, money).value + AtRisk(byOrder, ys, money).value
  {
    if |xs| == 0 {
      assert xs + ys == ys;
    } else {
      HeadAndTail(xs, ys);
      RiskSplits(byOrder, xs[1..], ys, money);
    }
  }

  /** The outcome dictionary of the plan for these orders. */
  ghost predicate Agrees(byOrder: map<string, OrderAllocation>, p: Plan, orders: seq<ProductionOrder>) {
    |p.needs| == |orders| && forall i | 0 <= i < |orders| :: Protected(byOrder, orders[i]) <==> OnTime(p, i)
  }

  lemma {:induction false} CountsAgree(byOrder: map<string, OrderAllocation>, p: Plan, orders: seq<ProductionOrder>,
                                       k: nat)
    requires Agrees(byOrder, p, orders) && k <= |orders|
    ensures ProtectedCount(byOrder, orders[..k]) == k - LateCount(p, k)
  {
    if k > 0 {
      CountsAgree(byOrder, p, orders, k - 1);
      TakeNext(orders, k - 1);
      CountSplits(byOrder, orders[..k - 1], [orders[k - 1]]);
    }
  }

  function Amounts(orders: seq<ProductionOrder>, money: ProductionOrder -> Option<int>): seq<Option<int>> {
    seq(|orders|, i requires 0 <= i < |orders| => money(orders[i]))
  }

  function Revenues(orders: seq<ProductionOrder>): seq<Option<int>> {
    seq(|orders|, i requires 0 <= i < |orders| => orders[i].revenue)
  }

  function Margins(orders: seq<ProductionOrder>): seq<Option<int>> {
    seq(|orders|, i requires 0 <= i < |orders| => orders[i].margin)
  }

  function CustomersOf(orders: seq<ProductionOrder>): seq<Option<string>> {
    seq(|orders|, i requires 0 <= i < |orders| => orders[i].customerOrderId)
  }

  lemma {:induction false} MoneyAgrees(byOrder: map<string, OrderAllocation>, p: Plan, orders: seq<ProductionOrder>,
                                       money: ProductionOrder -> Option<int>, k: nat)
    requires Agrees(byOrder, p, orders) && k <= |orders| && AtRisk(byOrder, orders[..k], money).Some?
    ensures AtRisk(byOrder, orders[..k], money).value == LateMoney(p, Amounts(orders, money), k)
    ensures forall i | 0 <= i < k && !OnTime(p, i) :: money(orders[i]).Some?
  {
    if k > 0 {
      TakeNext(orders, k - 1);
      RiskSplits(byOrder, orders[..k - 1], [orders[k - 1]], money);
      MoneyAgrees(byOrder, p, orders, money, k - 1);
      assert AtRisk(byOrder, [orders[k - 1]][1..], money) == Some(0);
    }
  }

  lemma {:induction false} CustomersAgree(byOrder: map<string, OrderAllocation>, p: Plan,
                                          orders: seq<ProductionOrder>, k: nat)
    requires Agrees(byOrder, p, orders) && k <= |orders|
    ensures ProtectedCustomers(byOrder, orders[..k]) == OnTimeCustomers(p, CustomersOf(orders), k)
  {
    if k > 0 {
      CustomersAgree(byOrder, p, orders, k - 1);
      TakeNext(orders, k - 1);
      CustomersSplit(byOrder, orders[..k - 1], [orders[k - 1]]);
      assert ProtectedCustomers(byOrder, [orders[k - 1]][1..]) == [];
    }
  }

  /** A whole number of points, rounded down. */
  lemma PointsRoundDown(late: nat, n: nat)
    requires n > 0
    ensures 100 * late / n * n <= 100 * late < (100 * late / n + 1) * n
  {
    var x := 100 * late;
    assert x == n * (x / n) + x % n;
    assert (x / n + 1) * n == n * (x / n) + n;
  }

  lemma OtifLossIs(byOrder: map<string, OrderAllocation>, p: Plan, orders: seq<ProductionOrder>)
    requires Agrees(byOrder, p, orders) && |orders| > 0
    ensures var loss := OtifLoss(byOrder, orders);
      loss * |orders| <= 100 * LateCount(p, |orders|) < (loss + 1) * |orders|
  {
    TakeAll(orders);
    CountsAgree(byOrder, p, orders, |orders|);
    PointsRoundDown(LateCount(p, |orders|), |orders|);
  }

  lemma AmountsAt(orders: seq<ProductionOrder>, money: ProductionOrder -> Option<int>)
    ensures |Amounts(orders, money)| == |orders|
    ensures forall i | 0 <= i < |orders| :: Amounts(orders, money)[i] == money(orders[i])
  {
  }

  lemma AmountsAre(orders: seq<ProductionOrder>)
    ensures Amounts(orders, RevenueOf) == Revenues(orders) && Amounts(orders, MarginOf) == Margins(orders)
  {
    AmountsAt(orders, RevenueOf);
    AmountsAt(orders, MarginOf);
  }

  /** Served in a given order, the outcome says: all that is missed; how many of a hundred orders are late, rounded
      down; the revenue and the margin of exactly the late ones, all of them known; the customers of exactly the
      others, in order. */
  lemma OutcomeMeans(start: int, supply: seq<TimedQuantity>, orders: seq<ProductionOrder>, cost: int)
    requires DistinctIds(orders) && ServedOutcome(start, supply, orders, cost).Ok?
    ensures DemandsKnown(orders) && |orders| > 0
    ensures var r := ServedOutcome(start, supply, orders, cost).value;
      var p, n := Plan(start, supply, NeedsOf(orders)), |orders|;
      && r.uncovered == p.TotalUncovered(n)
      && r.otifLoss * n <= 100 * LateCount(p, n) < (r.otifLoss + 1) * n
      && r.revenueAtRisk == LateMoney(p, Revenues(orders), n)
      && r.marginAtRisk == LateMoney(p, Margins(orders), n)
      && (forall i | 0 <= i < n && !OnTime(p, i) :: orders[i].revenue.Some? && orders[i].margin.Some?)
      && r.responseCost == cost
      && r.protectedCustomerOrders == OnTimeCustomers(p, CustomersOf(orders), n)
  {
    var p, n := Plan(start, supply, NeedsOf(orders)), |orders|;
    var byOrder := p.ByOrder(n);
    OutcomeKept(p, orders, n);
    assert Agrees(byOrder, p, orders);
    hide Agrees, DistinctIds, AtRisk, ProtectedCount, ProtectedCustomers, LateCount, LateMoney, OnTimeCustomers,
      Protected, OtifLoss, Amounts, Revenues, Margins, CustomersOf;
    TakeAll(orders);
    OtifLossIs(byOrder, p, orders);
    MoneyAgrees(byOrder, p, orders, RevenueOf, n);
    MoneyAgrees(byOrder, p, orders, MarginOf, n);
    AmountsAre(orders);
    CustomersAgree(byOrder, p, orders, n);
  }

  lemma {:induction false} RiskIsKnown(byOrder: map<string, OrderAllocation>, orders: seq<ProductionOrder>,
                                       money: ProductionOrder -> Option<int>)
    ensures AtRisk(byOrder, orders, money).Some? <==> forall o | o in orders && !Protected(byOrder, o) :: money(o).Some?
  {
    if |orders| > 0 {
      RiskIsKnown(byOrder, orders[1..], money);
      HeadOrTail(orders);
    }
  }

  /** There is an outcome exactly when every order's demand is known, there is an order, and the revenue and margin of
      each late one are known. */
  lemma OutcomeExists(start: int, supply: seq<TimedQuantity>, orders: seq<ProductionOrder>, cost: int)
    requires DistinctIds(orders)
    ensures ServedOutcome(start, supply, orders, cost).Ok? <==>
      && (forall o | o in orders :: o.componentDemand.Some?) && |orders| > 0
      && forall i | 0 <= i < |orders| ::
           OnTime(Plan(start, supply, NeedsOf(orders)), i) || (orders[i].revenue.Some? && orders[i].margin.Some?)
  {
    if DemandsKnown(orders) && |orders| > 0 {
      var p := Plan(start, supply, NeedsOf(orders));
      var byOrder := p.ByOrder(|orders|);
      OutcomeKept(p, orders, |orders|);
      assert Agrees(byOrder, p, orders);
      hide ProtectedCount, ProtectedCustomers, Protected, OnTime, AtRisk, OtifLoss;
      RiskIsKnown(byOrder, orders, RevenueOf);
      RiskIsKnown(byOrder, orders, MarginOf);
    }
  }

  // --- The supply, the order and the cost of each choice ----------------------------------------------

  predicate Expedites(c: Choice) { c == Expedite || c == Combined }

  predicate Transfers(c: Choice) { c == Transfer || c == Combined }

  predicate Reorders(c: Choice) { c == Resequence || c == Combined }

  /** The dated supply a choice adds: the offered partial shipment, then the transfer. */
  function AddedSupply(s: Snapshot, c: Choice): seq<TimedQuantity> {
    (match s.alpha
     case Some(offer) => (if Expedites(c) then [TimedQuantity(offer.due, offer.quantity, offer.receiptId)] else [])
     case None => [])
    + (if Transfers(c) then [TimedQuantity(s.transfer.arrival, s.transfer.quantity, s.transfer.transferId)] else [])
  }

  /** What it costs: the units it moves at their price. */
  function AddedCost(s: Snapshot, c: Choice): int {
    (match s.alpha case Some(offer) => (if Expedites(c) then offer.quantity * offer.unitCost else 0) case None => 0)
    + (if Transfers(c) then s.transfer.quantity * s.transfer.unitCost else 0)
  }

  /** Units of a part at a plant that are neither held nor protected. */
  function FreeUnits(positions: seq<InventoryPosition>, part: string, plant: string): int {
    Sum((p: InventoryPosition) => p.onHand - p.qualityHold - p.protectedAllocation,
        Filter((p: InventoryPosition) => p.partId == part && p.plantId == plant, positions))
  }

  lemma {:induction false} StockIsFreeUnits(positions: seq<InventoryPosition>, part: string, plant: string)
    ensures StockAt(positions, part, plant) == FreeUnits(positions, part, plant)
  {
    if |positions| > 0 {
      StockIsFreeUnits(positions[1..], part, plant);
      var free := (p: InventoryPosition) => p.onHand - p.qualityHold - p.protectedAllocation;
      var here := (p: InventoryPosition) => p.partId == part && p.plantId == plant;
      SumSplit(free, if here(positions[0]) then [positions[0]] else [], Filter(here, positions[1..]));
    }
  }

  lemma AddedSupplyIs(s: Snapshot)
    ensures AddedSupply(s, Expedite) == AlphaReceipt(s) && AddedSupply(s, Transfer) == DallasTransfer(s)
    ensures AddedSupply(s, Combined) == AlphaReceipt(s) + DallasTransfer(s)
    ensures forall c | !Expedites(c) && !Transfers(c) :: AddedSupply(s, c) == []
  {
    assert AlphaReceipt(s) + [] == AlphaReceipt(s) && [] + DallasTransfer(s) == DallasTransfer(s);
  }

  /** A choice is served from the free units of the disrupted part and what the choice adds, by due date unless it
      reorders, at the choice's cost. */
  lemma ChoiceIsServed(s: Snapshot, c: Choice)
    requires OptionOutcome(s, c).Ok?
    ensures Reorders(c) ==> PrioritiesComparable(s.orders)
    ensures OptionOutcome(s, c)
         == ServedOutcome(FreeUnits(s.positions, s.disruptedPart, s.disruptedPlant), AddedSupply(s, c),
                          Scheduled(s.orders, Reorders(c)), AddedCost(s, c))
  {
    hide ServedOutcome, Scheduled, FreeUnits;
    AddedSupplyIs(s);
    StockIsFreeUnits(s.positions, s.disruptedPart, s.disruptedPlant);
  }
}
