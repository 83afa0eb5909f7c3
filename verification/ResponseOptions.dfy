/** Predicted outcomes of the response options (services/analysis/options.py). */
module ResponseOptions {
  import opened Basics
  import opened Ordering
  import opened Supply
  import opened SupplyLaws
  import opened Exposure

  datatype SupplyReceiptOption = SupplyReceiptOption(receiptId: string, quantity: int, due: Date, unitCost: int)

  datatype InventoryTransfer = InventoryTransfer(
    transferId: string, partId: string, source: string, destination: string, quantity: int, arrival: Date,
    unitCost: int)

  /** The operational snapshot; `header` stands for its scalar fields that no calculation reads. */
  datatype Snapshot = Snapshot(
    header: string, positions: seq<InventoryPosition>, orders: seq<ProductionOrder>, customers: seq<CustomerOrder>,
    disruptedPart: string, disruptedPlant: string, disruptionRef: string, recoveryKnown: bool,
    alpha: Option<SupplyReceiptOption>, transfer: InventoryTransfer, betaApproved: bool, betaRef: string)

  datatype PredictedOutcome = PredictedOutcome(
    uncovered: int, otifLoss: int, revenueAtRisk: int, marginAtRisk: int, responseCost: int,
    protectedCustomerOrders: seq<string>)

  datatype Choice = NoMitigation | Expedite | Transfer | Resequence | AlternateSource | Combined

  datatype EvidenceRequirement = EvidenceRequirement(evidenceId: string, authorityScope: set<string>)

  datatype ResponseOption = ResponseOption(
    id: string, kind: Choice, executable: bool, activeMitigation: bool, predicted: Option<PredictedOutcome>,
    evidenceRequirements: seq<EvidenceRequirement>, blockingCodes: seq<string>, prerequisiteRoles: seq<string>,
    sourceDataLineage: seq<string>, approvalBurden: int, executionRisk: int)

  datatype OutcomeError =
    | MixedPriorities                 // sorting compares None with a number
    | NoDemand(orderId: string)       // an order lacks its component demand
    | NoOrders                        // the OTIF percentage divides by zero
    | NoMoney                         // an order at risk lacks its revenue or margin

  // --- Orders of processing --------------------------------------------------

  predicate DueLe(a: ProductionOrder, b: ProductionOrder) {
    a.due < b.due || (a.due == b.due && StrLe(a.id, b.id))
  }

  function Rank(o: ProductionOrder): int { match o.priority case None => 0 case Some(p) => p }

  predicate PriorityLe(a: ProductionOrder, b: ProductionOrder) {
    Rank(a) < Rank(b) || (Rank(a) == Rank(b) && StrLe(a.id, b.id))
  }

  /** Python can order the keys: all priorities are numbers, or none is. */
  predicate PrioritiesComparable(orders: seq<ProductionOrder>) {
    (forall o | o in orders :: o.priority.Some?) || (forall o | o in orders :: o.priority.None?)
  }

  lemma OrderKeysAreOrders()
    ensures TotalPreorder(DueLe) && TotalPreorder(PriorityLe)
    ensures forall a: ProductionOrder, b: ProductionOrder | DueLe(a, b) && DueLe(b, a) :: a.id == b.id
    ensures forall a: ProductionOrder, b: ProductionOrder | PriorityLe(a, b) && PriorityLe(b, a) :: a.id == b.id
  {
    StrLeOrder();
  }

  function Scheduled(orders: seq<ProductionOrder>, byPriority: bool): seq<ProductionOrder> {
    if byPriority then SortBy(PriorityLe, orders) else SortBy(DueLe, orders)
  }

  // --- One outcome -----------------------------------------------------------

  predicate Protected(byOrder: map<string, OrderAllocation>, o: ProductionOrder) {
    o.id in byOrder && byOrder[o.id].fullAndOnTime
  }

  function ProtectedCount(byOrder: map<string, OrderAllocation>, orders: seq<ProductionOrder>): nat {
    if |orders| == 0 then 0
    else (if Protected(byOrder, orders[0]) then 1 else 0) + ProtectedCount(byOrder, orders[1..])
  }

  function OtifLoss(byOrder: map<string, OrderAllocation>, orders: seq<ProductionOrder>): int
    requires |orders| > 0
  {
    100 * (|orders| - ProtectedCount(byOrder, orders)) / |orders|
  }

  function ProtectedCustomers(byOrder: map<string, OrderAllocation>, orders: seq<ProductionOrder>): seq<string> {
    if |orders| == 0 then []
    else
      (if Protected(byOrder, orders[0]) && orders[0].customerOrderId.Some? then [orders[0].customerOrderId.value]
       else [])
      + ProtectedCustomers(byOrder, orders[1..])
  }

  /** Money of the orders that are not protected; a missing amount makes the sum fail. */
  function AtRisk(byOrder: map<string, OrderAllocation>, orders: seq<ProductionOrder>,
                  money: ProductionOrder -> Option<int>): Option<int>
  {
    if |orders| == 0 then Some(0)
    else
      var rest := AtRisk(byOrder, orders[1..], money);
      if Protected(byOrder, orders[0]) then rest
      else if rest.Some? && money(orders[0]).Some? then Some(rest.value + money(orders[0]).value)
      else None
  }

  function RevenueOf(o: ProductionOrder): Option<int> { o.revenue }

  function MarginOf(o: ProductionOrder): Option<int> { o.margin }

  function FirstWithoutDemand(orders: seq<ProductionOrder>): string
    requires !DemandsKnown(orders)
  {
    if orders[0].componentDemand.None? then orders[0].id else FirstWithoutDemand(orders[1..])
  }

  /** The predicted outcome of serving the orders, in the given order, from stock and dated supply. */
  function ServedOutcome(start: int, supply: seq<TimedQuantity>, orders: seq<ProductionOrder>, cost: int)
    : Result<PredictedOutcome, OutcomeError>
  {
    if !DemandsKnown(orders) then Err(NoDemand(FirstWithoutDemand(orders)))
    else if |orders| == 0 then Err(NoOrders)
    else
      var p := Plan(start, supply, NeedsOf(orders));
      var byOrder := p.ByOrder(|orders|);
      var revenue, margin := AtRisk(byOrder, orders, RevenueOf), AtRisk(byOrder, orders, MarginOf);
      if revenue.None? || margin.None? then Err(NoMoney)
      else Ok(PredictedOutcome(
        p.TotalUncovered(|orders|),
        OtifLoss(byOrder, orders),
        revenue.value, margin.value, cost, ProtectedCustomers(byOrder, orders)))
  }

  function InterventionOutcome(snapshot: Snapshot, supply: seq<TimedQuantity>, byPriority: bool, cost: int)
    : Result<PredictedOutcome, OutcomeError>
  {
    if byPriority && !PrioritiesComparable(snapshot.orders) then Err(MixedPriorities)
    else
      ServedOutcome(StockAt(snapshot.positions, snapshot.disruptedPart, snapshot.disruptedPlant),
                    supply, Scheduled(snapshot.orders, byPriority), cost)
  }

  /** `OperationalSnapshot.usable_inventory`: not clamped, unlike the exposure calculation's. */
  function StockAt(positions: seq<InventoryPosition>, part: string, plant: string): int {
    if |positions| == 0 then 0
    else
      (if positions[0].partId == part && positions[0].plantId == plant
       then positions[0].onHand - positions[0].qualityHold - positions[0].protectedAllocation else 0)
      + StockAt(positions[1..], part, plant)
  }

  lemma {:induction false} StockSplits(xs: seq<InventoryPosition>, ys: seq<InventoryPosition>, part: string,
                                       plant: string)
    ensures StockAt(xs + ys, part, plant) == StockAt(xs, part, plant) + StockAt(ys, part, plant)
  {
    if |xs| == 0 {
      assert xs + ys == ys;
    } else {
      assert (xs + ys)[1..] == xs[1..] + ys;
      StockSplits(xs[1..], ys, part, plant);
    }
  }

  lemma {:induction false} FirstWithoutDemandIs(orders: seq<ProductionOrder>, i: nat)
    requires i < |orders| && DemandsKnown(orders[..i]) && orders[i].componentDemand.None?
    ensures !DemandsKnown(orders) && FirstWithoutDemand(orders) == orders[i].id
  {
    assert orders[i] in orders;
    if i > 0 {
      assert orders[0] == orders[..i][0];
      assert orders[1..][..i - 1] == orders[..i][1..];
      FirstWithoutDemandIs(orders[1..], i - 1);
    }
  }

  method CalculateInterventionOutcome(snapshot: Snapshot, receipts: seq<TimedQuantity>, transfers: seq<TimedQuantity>,
                                      byPriority: bool, cost: int)
    returns (r: Result<PredictedOutcome, OutcomeError>)
    ensures r == InterventionOutcome(snapshot, receipts + transfers, byPriority, cost)
  {
    if byPriority && !PrioritiesComparable(snapshot.orders) { return Err(MixedPriorities); }
    var orders := Scheduled(snapshot.orders, byPriority);
    var stock := StockAt(snapshot.positions, snapshot.disruptedPart, snapshot.disruptedPlant);
    var allocation := AllocateComponentSupply(stock, receipts, transfers, orders);
    if allocation.Err? {
      ghost var i :| 0 <= i < |orders| && DemandsKnown(orders[..i]) && orders[i].componentDemand.None?
                     && allocation.error.orderId == orders[i].id;
      FirstWithoutDemandIs(orders, i);
      return Err(NoDemand(allocation.error.orderId));
    }
    if |orders| == 0 { return Err(NoOrders); }
    var byOrder := allocation.value.byOrder;
    var revenue, margin := AtRisk(byOrder, orders, RevenueOf), AtRisk(byOrder, orders, MarginOf);
    if revenue.None? || margin.None? { return Err(NoMoney); }
    r := Ok(PredictedOutcome(allocation.value.uncovered,
                             100 * (|orders| - ProtectedCount(byOrder, orders)) / |orders|,
                             revenue.value, margin.value, cost, ProtectedCustomers(byOrder, orders)));
  }

  // --- The options -----------------------------------------------------------

  function AlphaReceipt(s: Snapshot): seq<TimedQuantity> {
    match s.alpha
    case None => []
    case Some(a) => [TimedQuantity(a.due, a.quantity, a.receiptId)]
  }

  function DallasTransfer(s: Snapshot): seq<TimedQuantity> {
    [TimedQuantity(s.transfer.arrival, s.transfer.quantity, s.transfer.transferId)]
  }

  function ExpediteCost(s: Snapshot): int {
    match s.alpha case None => 0 case Some(a) => a.quantity * a.unitCost
  }

  function TransferCost(s: Snapshot): int { s.transfer.quantity * s.transfer.unitCost }

  /** The alternate source has no confirmed receipt, so its outcome is the baseline's. */
  function OptionOutcome(s: Snapshot, c: Choice): Result<PredictedOutcome, OutcomeError> {
    match c
    case NoMitigation | AlternateSource => InterventionOutcome(s, [], false, 0)
    case Expedite => InterventionOutcome(s, AlphaReceipt(s), false, ExpediteCost(s))
    case Transfer => InterventionOutcome(s, DallasTransfer(s), false, TransferCost(s))
    case Resequence => InterventionOutcome(s, [], true, 0)
    case Combined => InterventionOutcome(s, AlphaReceipt(s) + DallasTransfer(s), true,
                                         ExpediteCost(s) + TransferCost(s))
  }

  // --- Comparing outcomes ----------------------------------------------------

  /** At least as good on the four measures that supply can improve. */
  predicate NoWorse(a: PredictedOutcome, b: PredictedOutcome) {
    && a.uncovered <= b.uncovered && a.otifLoss <= b.otifLoss
    && a.revenueAtRisk <= b.revenueAtRisk && a.marginAtRisk <= b.marginAtRisk
  }

  ghost predicate ProtectsMore(better: map<string, OrderAllocation>, worse: map<string, OrderAllocation>,
                               orders: seq<ProductionOrder>)
  {
    forall o | o in orders :: Protected(worse, o) ==> Protected(better, o)
  }

  ghost predicate MoneyNonNegative(orders: seq<ProductionOrder>, money: ProductionOrder -> Option<int>) {
    forall o | o in orders && money(o).Some? :: money(o).value >= 0
  }

  lemma {:induction false} RiskShrinks(better: map<string, OrderAllocation>, worse: map<string, OrderAllocation>,
                                       orders: seq<ProductionOrder>, money: ProductionOrder -> Option<int>)
    requires ProtectsMore(better, worse, orders) && MoneyNonNegative(orders, money)
    ensures ProtectedCount(better, orders) >= ProtectedCount(worse, orders)
    ensures ProtectedCount(better, orders) <= |orders|
    ensures AtRisk(worse, orders, money).Some? ==>
      AtRisk(better, orders, money).Some?
        && 0 <= AtRisk(better, orders, money).value <= AtRisk(worse, orders, money).value
  {
    if |orders| > 0 {
      assert orders[0] in orders && forall o | o in orders[1..] :: o in orders;
      RiskShrinks(better, worse, orders[1..], money);
    }
  }

  lemma MulCancels(n: int, a: int, b: int)
    requires n > 0 && n * a < n * b
    ensures a < b
  {
  }

  lemma PercentageShrinks(a: nat, b: nat, n: nat)
    requires a <= b && n > 0
    ensures 100 * a / n <= 100 * b / n
  {
    var x, y := 100 * a, 100 * b;
    assert x == n * (x / n) + x % n && y == n * (y / n) + y % n;
    assert n * (y / n + 1) == n * (y / n) + n;
    MulCancels(n, x / n, y / n + 1);
  }

  ghost predicate PlausibleMoney(orders: seq<ProductionOrder>) {
    MoneyNonNegative(orders, RevenueOf) && MoneyNonNegative(orders, MarginOf)
  }

  lemma {:induction false} ServedKeys(p: Plan, orders: seq<ProductionOrder>, k: nat)
    requires DemandsKnown(orders) && p.needs == NeedsOf(orders) && k <= |orders|
    ensures forall i | 0 <= i < k :: orders[i].id in p.ByOrder(k)
  {
    if k > 0 { ServedKeys(p, orders, k - 1); }
  }

  lemma MoreSupplyProtectsOrders(p: Plan, extra: seq<TimedQuantity>, orders: seq<ProductionOrder>)
    requires NonNegative(extra) && DemandsKnown(orders) && p.needs == NeedsOf(orders)
    ensures ProtectsMore(WithSupply(p, extra).ByOrder(|orders|), p.ByOrder(|orders|), orders)
    ensures WithSupply(p, extra).TotalUncovered(|orders|) <= p.TotalUncovered(|orders|)
  {
    MoreSupplyProtectsMore(p, extra, |orders|);
    ServedKeys(p, orders, |orders|);
  }

  lemma LossesShrink(better: map<string, OrderAllocation>, worse: map<string, OrderAllocation>,
                     orders: seq<ProductionOrder>)
    requires |orders| > 0 && ProtectsMore(better, worse, orders) && PlausibleMoney(orders)
    ensures OtifLoss(better, orders) <= OtifLoss(worse, orders)
  {
    RiskShrinks(better, worse, orders, RevenueOf);
    RiskShrinks(worse, worse, orders, RevenueOf);
    var n := |orders|;
    PercentageShrinks(n - ProtectedCount(better, orders), n - ProtectedCount(worse, orders), n);
  }

  /** Extra supply keeps the outcome defined and improves it, whatever the processing order. */
  lemma ExtraSupplyIsNoWorse(start: int, extra: seq<TimedQuantity>, orders: seq<ProductionOrder>, cost: int, cost': int)
    requires NonNegative(extra) && PlausibleMoney(orders)
    requires ServedOutcome(start, [], orders, cost).Ok?
    ensures ServedOutcome(start, extra, orders, cost').Ok?
    ensures NoWorse(ServedOutcome(start, extra, orders, cost').value, ServedOutcome(start, [], orders, cost).value)
  {
    var p := Plan(start, [], NeedsOf(orders));
    var q := Plan(start, extra, NeedsOf(orders));
    assert [] + extra == extra;
    assert q == WithSupply(p, extra);
    MoreSupplyProtectsOrders(p, extra, orders);
    var better, worse := q.ByOrder(|orders|), p.ByOrder(|orders|);
    RiskShrinks(better, worse, orders, RevenueOf);
    RiskShrinks(better, worse, orders, MarginOf);
    LossesShrink(better, worse, orders);
  }

  lemma ScheduledKeepsMoney(orders: seq<ProductionOrder>, byPriority: bool)
    requires PlausibleMoney(orders)
    ensures PlausibleMoney(Scheduled(orders, byPriority))
  {
    OrderKeysAreOrders();
    SortBySorts(DueLe, orders);
    SortBySorts(PriorityLe, orders);
  }

  lemma AddingSupplyHelps(s: Snapshot, extra: seq<TimedQuantity>, byPriority: bool, cost: int)
    requires PlausibleMoney(s.orders) && NonNegative(extra)
    ensures InterventionOutcome(s, [], byPriority, 0).Ok? ==>
      && InterventionOutcome(s, extra, byPriority, cost).Ok?
      && NoWorse(InterventionOutcome(s, extra, byPriority, cost).value, InterventionOutcome(s, [], byPriority, 0).value)
  {
    if InterventionOutcome(s, [], byPriority, 0).Ok? {
      ScheduledKeepsMoney(s.orders, byPriority);
      ExtraSupplyIsNoWorse(StockAt(s.positions, s.disruptedPart, s.disruptedPlant), extra,
                           Scheduled(s.orders, byPriority), 0, cost);
    }
  }

  /** The options that add supply are never worse than the ones they extend: expedite and transfer
      against no mitigation, the combination against resequencing alone. */
  lemma OptionsThatAddSupplyAreNoWorse(s: Snapshot)
    requires PlausibleMoney(s.orders) && s.transfer.quantity >= 0 && (s.alpha.Some? ==> s.alpha.value.quantity >= 0)
    ensures OptionOutcome(s, NoMitigation).Ok? ==>
      && OptionOutcome(s, Expedite).Ok?
      && NoWorse(OptionOutcome(s, Expedite).value, OptionOutcome(s, NoMitigation).value)
      && OptionOutcome(s, Transfer).Ok?
      && NoWorse(OptionOutcome(s, Transfer).value, OptionOutcome(s, NoMitigation).value)
    ensures OptionOutcome(s, Resequence).Ok? ==>
      && OptionOutcome(s, Combined).Ok? && NoWorse(OptionOutcome(s, Combined).value, OptionOutcome(s, Resequence).value)
  {
    hide InterventionOutcome, NoWorse;
    AddingSupplyHelps(s, AlphaReceipt(s), false, ExpediteCost(s));
    AddingSupplyHelps(s, DallasTransfer(s), false, TransferCost(s));
    AddingSupplyHelps(s, AlphaReceipt(s) + DallasTransfer(s), true, ExpediteCost(s) + TransferCost(s));
  }
}
