/** The exposure calculation and the allocator, written independently, agree on the same demands. */
module ExposureLaws {
  import opened Basics
  import opened Ordering
  import opened Supply
  import opened SupplyLaws
  import opened Exposure
  import opened ExposureCalculation

  lemma {:induction false} ArrivedSplit(xs: seq<TimedQuantity>, i: nat, day: Date)
    requires i < |xs|
    ensures Arrived(xs, day) == Arrived(xs[..i] + xs[i + 1..], day) + if xs[i].date <= day then xs[i].quantity else 0
  {
    if i > 0 {
      ArrivedSplit(xs[1..], i - 1, day);
      assert xs[1..][..i - 1] + xs[1..][i..] == (xs[..i] + xs[i + 1..])[1..];
    } else {
      assert xs[..0] + xs[1..] == xs[1..];
    }
  }

  lemma {:induction false} ArrivedPermutation(xs: seq<TimedQuantity>, ys: seq<TimedQuantity>, day: Date)
    requires multiset(xs) == multiset(ys)
    ensures Arrived(xs, day) == Arrived(ys, day)
  {
    if |xs| == 0 {
      assert |multiset(ys)| == 0;
    } else {
      assert xs[0] in multiset(ys);
      var i :| 0 <= i < |ys| && ys[i] == xs[0];
      ArrivedSplit(ys, i, day);
      TailMultiset(xs);
      assert ys == ys[..i] + [ys[i]] + ys[i + 1..];
      ArrivedPermutation(xs[1..], ys[..i] + ys[i + 1..], day);
    }
  }

  /** The first k demands in due order are all that is due by day d, when k counts them. */
  lemma {:induction false} DemandedIsArrived(p: Plan, k: nat, day: Date)
    requires k <= |p.needs| && forall i | 0 <= i < k :: p.needs[i].date <= day
    ensures p.Demanded(k) == Arrived(p.needs[..k], day)
  {
    if k > 0 {
      DemandedIsArrived(p, k - 1, day);
      assert p.needs[..k] == p.needs[..k - 1] + [p.needs[k - 1]];
      ArrivedAppend(p.needs[..k - 1], [p.needs[k - 1]], day);
    }
  }

  lemma DemandedBelow(p: Plan, k: nat, day: Date)
    requires k <= |p.needs| && NonNegative(p.needs) && forall i | 0 <= i < k :: p.needs[i].date <= day
    ensures p.Demanded(k) <= Arrived(p.needs, day)
    ensures (forall i | k <= i < |p.needs| :: day < p.needs[i].date) ==> p.Demanded(k) == Arrived(p.needs, day)
  {
    DemandedIsArrived(p, k, day);
    assert p.needs == p.needs[..k] + p.needs[k..];
    ArrivedAppend(p.needs[..k], p.needs[k..], day);
    assert forall t | t in p.needs[k..] :: t in p.needs;
    ArrivedGrows(p.needs[k..], day, day);
    if forall i | k <= i < |p.needs| :: day < p.needs[i].date {
      assert forall t | t in p.needs[k..] :: day < t.date;
      ArrivedNone(p.needs[k..], day);
    }
  }

  lemma {:induction false} DueCount(p: Plan, day: Date, n: nat) returns (k: nat)
    requires p.InDueOrder() && n <= |p.needs|
    requires forall i | n <= i < |p.needs| :: day < p.needs[i].date
    ensures k <= n
    ensures forall i | 0 <= i < k :: p.needs[i].date <= day
    ensures forall i | k <= i < |p.needs| :: day < p.needs[i].date
  {
    if n > 0 && day < p.needs[n - 1].date { k := DueCount(p, day, n - 1); } else { k := n; }
  }

  lemma {:induction false} WorstIsLargest(points: seq<ProjectionPoint>)
    ensures WorstShortage(points) >= 0
    ensures forall j | 0 <= j < |points| :: -points[j].balance <= WorstShortage(points)
    ensures WorstShortage(points) == 0 || exists j :: 0 <= j < |points| && -points[j].balance == WorstShortage(points)
  {
    if |points| > 0 {
      var n := |points| - 1;
      WorstIsLargest(points[..n]);
      forall j | 0 <= j < |points| ensures -points[j].balance <= WorstShortage(points) {
        if j < n { assert points[..n][j] == points[j]; }
      }
      if WorstShortage(points) > 0 && WorstShortage(points) != -points[n].balance {
        var j :| 0 <= j < n && -points[..n][j].balance == WorstShortage(points[..n]);
        assert points[j] == points[..n][j];
      }
    }
  }

  /** The allocator and the projection look at the same quantities. */
  ghost predicate SameData(p: Plan, receipts: seq<TimedQuantity>, transfers: seq<TimedQuantity>,
                           demand: seq<TimedQuantity>) {
    && p.supply == receipts + transfers
    && multiset(p.needs) == multiset(demand)
    && NonNegative(p.supply) && NonNegative(p.needs) && p.InDueOrder()
  }

  function Days(receipts: seq<TimedQuantity>, transfers: seq<TimedQuantity>, demand: seq<TimedQuantity>): seq<Date> {
    SortedDates(receipts + transfers + demand)
  }

  lemma BalanceFromPlan(p: Plan, receipts: seq<TimedQuantity>, transfers: seq<TimedQuantity>,
                        demand: seq<TimedQuantity>, day: Date)
    requires SameData(p, receipts, transfers, demand)
    ensures Balance(p.start, receipts, transfers, demand, day)
         == p.start + Arrived(p.supply, day) - Arrived(p.needs, day)
  {
    ArrivedAppend(receipts, transfers, day);
    ArrivedPermutation(p.needs, demand, day);
  }

  lemma EventDayIsProjected(start: int, receipts: seq<TimedQuantity>, transfers: seq<TimedQuantity>,
                            demand: seq<TimedQuantity>, t: TimedQuantity)
    requires t in receipts + transfers + demand
    ensures -Balance(start, receipts, transfers, demand, t.date)
         <= WorstShortage(Projection(start, receipts, transfers, demand))
  {
    var all := receipts + transfers + demand;
    SortedDatesAscend(all);
    assert t.date in Dates(all);
    var days := SortedDates(all);
    assert t.date in days;
    var j :| 0 <= j < |days| && days[j] == t.date;
    var points := Projection(start, receipts, transfers, demand);
    WorstIsLargest(points);
    assert points[j].balance == Balance(start, receipts, transfers, demand, t.date);
  }

  lemma MissShowsInProjection(p: Plan, receipts: seq<TimedQuantity>, transfers: seq<TimedQuantity>,
                              demand: seq<TimedQuantity>)
    requires SameData(p, receipts, transfers, demand)
    ensures p.TotalUncovered(|p.needs|) <= WorstShortage(Projection(p.start, receipts, transfers, demand))
  {
    WorstIsLargest(Projection(p.start, receipts, transfers, demand));
    ReflectionIdentity(p, |p.needs|);
    PeakAttained(p, |p.needs|);
    if p.Peak(|p.needs|) > 0 {
      var k :| 0 < k <= |p.needs| && p.Shortfall(k) == p.Peak(|p.needs|);
      var last := p.needs[k - 1];
      HorizonInDueOrder(p, k);
      DemandedBelow(p, k, last.date);
      BalanceFromPlan(p, receipts, transfers, demand, last.date);
      assert last in multiset(demand);
      EventDayIsProjected(p.start, receipts, transfers, demand, last);
    }
  }

  lemma ProjectionShowsOnlyMisses(p: Plan, receipts: seq<TimedQuantity>, transfers: seq<TimedQuantity>,
                                  demand: seq<TimedQuantity>, j: nat)
    requires SameData(p, receipts, transfers, demand) && j < |Days(receipts, transfers, demand)|
    ensures var days := Days(receipts, transfers, demand);
      -Balance(p.start, receipts, transfers, demand, days[j])
      <= Max(p.TotalUncovered(|p.needs|), -Balance(p.start, receipts, transfers, demand, days[0]))
    ensures p.start >= 0 ==>
      -Balance(p.start, receipts, transfers, demand, Days(receipts, transfers, demand)[j])
      <= p.TotalUncovered(|p.needs|)
  {
    var days := Days(receipts, transfers, demand);
    var day := days[j];
    SortedDatesAscend(receipts + transfers + demand);
    BalanceFromPlan(p, receipts, transfers, demand, day);
    BalanceFromPlan(p, receipts, transfers, demand, days[0]);
    ReflectionIdentity(p, |p.needs|);
    PeakAttained(p, |p.needs|);
    var k := DueCount(p, day, |p.needs|);
    DemandedBelow(p, k, day);
    ArrivedGrows(p.supply, days[0], day);
    ArrivedGrows(p.needs, days[0], days[0]);
    if k > 0 {
      HorizonInDueOrder(p, k);
      ArrivedGrows(p.supply, p.needs[k - 1].date, day);
      assert p.Shortfall(k) == Arrived(p.needs, day) - p.start - Arrived(p.supply, p.needs[k - 1].date);
      assert p.Shortfall(k) <= p.Peak(|p.needs|);
    }
  }

  /** One identity for both views: the worst projected shortage is the larger of what the greedy
      misses and the deficit on the very first dated day. */
  lemma ShortageFormula(p: Plan, receipts: seq<TimedQuantity>, transfers: seq<TimedQuantity>,
                        demand: seq<TimedQuantity>)
    requires SameData(p, receipts, transfers, demand)
    ensures var days := Days(receipts, transfers, demand);
      WorstShortage(Projection(p.start, receipts, transfers, demand))
      == if days == [] then p.TotalUncovered(|p.needs|)
         else Max(p.TotalUncovered(|p.needs|), -Balance(p.start, receipts, transfers, demand, days[0]))
  {
    var days := Days(receipts, transfers, demand);
    var points := Projection(p.start, receipts, transfers, demand);
    MissShowsInProjection(p, receipts, transfers, demand);
    WorstIsLargest(points);
    if days != [] { assert points[0].balance == Balance(p.start, receipts, transfers, demand, days[0]); }
    if j :| 0 <= j < |points| && -points[j].balance == WorstShortage(points) {
      ProjectionShowsOnlyMisses(p, receipts, transfers, demand, j);
    }
    ReflectionIdentity(p, |p.needs|);
    PeakAttained(p, |p.needs|);
  }

  /** From one starting stock the greedy's misses equal the maximum projected shortage exactly when the first dated day
      ends without a deficit, or some later backlog is at least as large as that deficit; a stock that is not negative,
      which the exposure calculation always has, is enough. */
  lemma GreedyMissIsMaximumShortage(p: Plan, receipts: seq<TimedQuantity>, transfers: seq<TimedQuantity>,
                                    demand: seq<TimedQuantity>)
    requires SameData(p, receipts, transfers, demand)
    ensures var days := Days(receipts, transfers, demand);
      WorstShortage(Projection(p.start, receipts, transfers, demand)) == p.TotalUncovered(|p.needs|)
      <==> (days == [] || var first := Balance(p.start, receipts, transfers, demand, days[0]);
                          first >= 0 || exists k :: 0 < k <= |p.needs| && p.Shortfall(k) >= -first)
    ensures p.start >= 0 ==>
      WorstShortage(Projection(p.start, receipts, transfers, demand)) == p.TotalUncovered(|p.needs|)
  {
    var days := Days(receipts, transfers, demand);
    ShortageFormula(p, receipts, transfers, demand);
    ReflectionIdentity(p, |p.needs|);
    PeakAttained(p, |p.needs|);
    if p.start >= 0 && days != [] { ProjectionShowsOnlyMisses(p, receipts, transfers, demand, 0); }
  }

  // --- From the calculation's own inputs ------------------------------------

  ghost predicate DistinctIds(orders: seq<ProductionOrder>) {
    forall i, j | 0 <= i < j < |orders| :: orders[i].id != orders[j].id
  }

  function KeysOfDemand(demand: seq<TimedQuantity>): seq<OrderKey> {
    seq(|demand|, i requires 0 <= i < |demand| => OrderKey(demand[i].date, demand[i].sourceId))
  }

  /** Each demand comes from an order, and carries its id. */
  lemma {:induction false} OwnerOf(part: string, plant: string, boms: seq<BomComponent>,
                                   orders: seq<ProductionOrder>, t: TimedQuantity) returns (i: nat)
    requires t in PartDemand(part, plant, boms, orders)
    ensures i < |orders| && DemandOf(part, plant, boms, orders[i]) == [t] && t.sourceId == orders[i].id
  {
    var n := |orders| - 1;
    if t in PartDemand(part, plant, boms, orders[..n]) {
      i := OwnerOf(part, plant, boms, orders[..n], t);
    } else {
      i := n;
    }
  }

  lemma {:induction false} DemandIsListed(part: string, plant: string, boms: seq<BomComponent>,
                                          orders: seq<ProductionOrder>, i: nat)
    requires i < |orders| && DemandOf(part, plant, boms, orders[i]) != []
    ensures DemandOf(part, plant, boms, orders[i])[0] in PartDemand(part, plant, boms, orders)
  {
    var n := |orders| - 1;
    if i < n { DemandIsListed(part, plant, boms, orders[..n], i); }
  }

  lemma {:induction false} DemandByIdFinds(demand: seq<TimedQuantity>)
    requires DistinctSources(demand)
    ensures forall i | 0 <= i < |demand| ::
      demand[i].sourceId in DemandById(demand) && DemandById(demand)[demand[i].sourceId] == demand[i].quantity
  {
    if |demand| > 0 {
      var n := |demand| - 1;
      DemandByIdFinds(demand[..n]);
      forall i | 0 <= i < n
        ensures demand[i].sourceId in DemandById(demand) && DemandById(demand)[demand[i].sourceId] == demand[i].quantity
      {
        assert demand[..n][i] == demand[i];
      }
    }
  }

  lemma {:induction false} DemandByIdKeys(demand: seq<TimedQuantity>)
    ensures forall id :: id in DemandById(demand) <==> exists t :: t in demand && t.sourceId == id
  {
    if |demand| > 0 {
      var n := |demand| - 1;
      DemandByIdKeys(demand[..n]);
      assert demand == demand[..n] + [demand[n]];
    }
  }

  ghost predicate DistinctSources(demand: seq<TimedQuantity>) {
    forall i, j | 0 <= i < j < |demand| :: demand[i].sourceId != demand[j].sourceId
  }

  lemma {:induction false} DemandIdsDistinct(part: string, plant: string, boms: seq<BomComponent>,
                                             orders: seq<ProductionOrder>)
    requires DistinctIds(orders)
    ensures DistinctSources(PartDemand(part, plant, boms, orders))
  {
    if |orders| > 0 {
      var n := |orders| - 1;
      var earlier, own := PartDemand(part, plant, boms, orders[..n]), DemandOf(part, plant, boms, orders[n]);
      DemandIdsDistinct(part, plant, boms, orders[..n]);
      forall t | t in earlier ensures t.sourceId != orders[n].id {
        var i := OwnerOf(part, plant, boms, orders[..n], t);
        assert orders[..n][i] == orders[i];
      }
      assert PartDemand(part, plant, boms, orders) == earlier + own;
    }
  }

  lemma UnmatchedIsUndemanded(part: string, plant: string, boms: seq<BomComponent>, orders: seq<ProductionOrder>,
                              n: nat)
    requires DistinctIds(orders) && n < |orders|
    ensures orders[n].id in DemandById(PartDemand(part, plant, boms, orders))
       <==> DemandOf(part, plant, boms, orders[n]) != []
  {
    var demand := PartDemand(part, plant, boms, orders);
    DemandByIdKeys(demand);
    if DemandOf(part, plant, boms, orders[n]) != [] {
      DemandIsListed(part, plant, boms, orders, n);
    } else {
      forall t | t in demand ensures t.sourceId != orders[n].id {
        var i := OwnerOf(part, plant, boms, orders, t);
      }
    }
  }

  lemma {:induction false} KeysFollowDemand(part: string, plant: string, boms: seq<BomComponent>,
                                            orders: seq<ProductionOrder>, needs: map<string, int>)
    requires forall o | o in orders :: o.id in needs <==> DemandOf(part, plant, boms, o) != []
    ensures KeysOf(orders, needs) == KeysOfDemand(PartDemand(part, plant, boms, orders))
  {
    if |orders| > 0 {
      var n := |orders| - 1;
      assert orders[n] in orders && forall o | o in orders[..n] :: o in orders;
      KeysFollowDemand(part, plant, boms, orders[..n], needs);
    }
  }

  lemma {:induction false} NeedsForCount(keys: seq<OrderKey>, needs: map<string, int>, t: TimedQuantity)
    requires Known(keys, needs)
    ensures multiset(NeedsFor(keys, needs))[t]
         == if t.sourceId in needs && needs[t.sourceId] == t.quantity then multiset(keys)[OrderKey(t.date, t.sourceId)]
           else 0
  {
    if |keys| > 0 {
      assert keys == [keys[0]] + keys[1..];
      NeedsForCount(keys[1..], needs, t);
      assert NeedsFor(keys, needs) == [TimedQuantity(keys[0].due, needs[keys[0].id], keys[0].id)] +
        NeedsFor(keys[1..], needs);
    }
  }

  /** The exposed orders' needs, in listed order, are the demand. */
  lemma NeedsAreDemand(part: string, plant: string, boms: seq<BomComponent>, orders: seq<ProductionOrder>)
    requires DistinctIds(orders)
    ensures var demand := PartDemand(part, plant, boms, orders);
      var needs := DemandById(demand);
      Known(KeysOf(orders, needs), needs) && NeedsFor(KeysOf(orders, needs), needs) == demand
  {
    hide PartDemand, DemandById, KeysOf, DistinctIds, DemandOf;
    var demand := PartDemand(part, plant, boms, orders);
    var needs := DemandById(demand);
    forall o | o in orders ensures o.id in needs <==> DemandOf(part, plant, boms, o) != [] {
      var i :| 0 <= i < |orders| && orders[i] == o;
      UnmatchedIsUndemanded(part, plant, boms, orders, i);
    }
    KeysFollowDemand(part, plant, boms, orders, needs);
    DemandIdsDistinct(part, plant, boms, orders);
    DemandByIdFinds(demand);
    KeysAreKnown(orders, needs);
  }

  lemma DueNeedsArePermutedDemand(part: string, plant: string, boms: seq<BomComponent>, orders: seq<ProductionOrder>,
                                  start: int, receipts: seq<TimedQuantity>, transfers: seq<TimedQuantity>)
    requires DistinctIds(orders)
    ensures var demand := PartDemand(part, plant, boms, orders);
      multiset(DuePlan(start, receipts, transfers, orders, demand).needs) == multiset(demand)
  {
    var demand := PartDemand(part, plant, boms, orders);
    var needs := DemandById(demand);
    var keys := KeysOf(orders, needs);
    NeedsAreDemand(part, plant, boms, orders);
    hide PartDemand, DemandById, KeysOf, NeedsFor, SortBy, KeyLe;
    KeyLeOrder();
    SortBySorts(KeyLe, keys);
    DueKeysAreKnown(orders, needs);
    var sorted := NeedsFor(SortBy(KeyLe, keys), needs);
    forall t ensures multiset(sorted)[t] == multiset(demand)[t] {
      NeedsForCount(keys, needs, t);
      NeedsForCount(SortBy(KeyLe, keys), needs, t);
    }
  }

  lemma DuePlanInDueOrder(start: int, receipts: seq<TimedQuantity>, transfers: seq<TimedQuantity>,
                          orders: seq<ProductionOrder>, demand: seq<TimedQuantity>)
    ensures DuePlan(start, receipts, transfers, orders, demand).InDueOrder()
  {
    KeyLeOrder();
    SortBySorts(KeyLe, KeysOf(orders, DemandById(demand)));
    DueKeysAreKnown(orders, DemandById(demand));
  }

  function UnprotectedIds(p: Plan, k: nat): seq<string>
    requires k <= |p.needs|
  {
    if k == 0 then []
    else UnprotectedIds(p, k - 1) + if Unprotected(p, k - 1) then [p.needs[k - 1].sourceId] else []
  }

  /** Everything in the second list is in the first, and their first entries are the same, if there are any. */
  ghost predicate SameFirst(affected: seq<string>, unprotected: seq<string>) {
    && (forall id | id in unprotected :: id in affected)
    && (affected == [] <==> unprotected == [])
    && (affected != [] ==> affected[0] == unprotected[0])
  }

  lemma SameFirstNext(affected: seq<string>, unprotected: seq<string>, id: string,
                      isAffected: bool, isUnprotected: bool)
    requires SameFirst(affected, unprotected)
    requires (isUnprotected ==> isAffected) && (affected == [] ==> (isAffected <==> isUnprotected))
    ensures SameFirst(affected + (if isAffected then [id] else []), unprotected + (if isUnprotected then [id] else []))
  {
  }

  lemma {:induction false} NothingMissedIsNothingAffected(p: Plan, k: nat)
    requires p.InDueOrder() && k <= |p.needs|
    ensures p.TotalUncovered(k) >= 0
    ensures AffectedIds(p, k) == [] <==> p.TotalUncovered(k) == 0
  {
    if k > 0 {
      NothingMissedIsNothingAffected(p, k - 1);
      AffectedIsShortfall(p, k - 1);
      MissIsExcessShortfall(p, k - 1);
    }
  }

  lemma {:induction false} AffectedListsAgree(p: Plan, k: nat)
    requires p.InDueOrder() && k <= |p.needs|
    ensures SameFirst(AffectedIds(p, k), UnprotectedIds(p, k))
    ensures AffectedIds(p, k) == [] <==> p.TotalUncovered(k) == 0
  {
    hide SameFirst;
    NothingMissedIsNothingAffected(p, k);
    if k == 0 {
      NoneAreTheSame();
    } else {
      AffectedListsAgree(p, k - 1);
      AffectedIsShortfall(p, k - 1);
      SameFirstNext(AffectedIds(p, k - 1), UnprotectedIds(p, k - 1), p.needs[k - 1].sourceId,
                    Affected(p, k - 1), Unprotected(p, k - 1));
    }
  }

  lemma NoneAreTheSame()
    ensures SameFirst([], [])
  {
  }

  lemma DemandIsNonNegative(part: string, plant: string, boms: seq<BomComponent>, orders: seq<ProductionOrder>,
                            t: TimedQuantity)
    requires t in PartDemand(part, plant, boms, orders) && forall o | o in orders :: o.quantity >= 0
    ensures t.quantity >= 0
  {
    var i := OwnerOf(part, plant, boms, orders, t);
    assert orders[i] in orders;
  }

  lemma DuePlanSharesData(part: string, plant: string, start: int, receipts: seq<TimedQuantity>,
                          transfers: seq<TimedQuantity>, boms: seq<BomComponent>, orders: seq<ProductionOrder>)
    requires DistinctIds(orders) && NonNegative(receipts + transfers) && forall o | o in orders :: o.quantity >= 0
    ensures var demand := PartDemand(part, plant, boms, orders);
      SameData(DuePlan(start, receipts, transfers, orders, demand), receipts, transfers, demand)
  {
    var demand := PartDemand(part, plant, boms, orders);
    var p := DuePlan(start, receipts, transfers, orders, demand);
    DueNeedsArePermutedDemand(part, plant, boms, orders, start, receipts, transfers);
    DuePlanInDueOrder(start, receipts, transfers, orders, demand);
    forall t | t in p.needs ensures t.quantity >= 0 {
      assert t in multiset(demand);
      DemandIsNonNegative(part, plant, boms, orders, t);
    }
  }

  /** From any inventory, receipts, bill of materials and orders with distinct ids: the maximum shortage reported is
      what the allocator misses from the usable inventory on the same demands in (due date, id) order; every order it
      leaves unprotected is reported affected; the first reported order is the first unprotected one. */
  lemma ExposureAgreesWithAllocation(
    part: string, plant: string, positions: seq<InventoryPosition>, receipts: seq<TimedQuantity>,
    transfers: seq<TimedQuantity>, boms: seq<BomComponent>, orders: seq<ProductionOrder>)
    requires DistinctIds(orders) && NonNegative(receipts + transfers) && forall o | o in orders :: o.quantity >= 0
    ensures var usable := UsableAt(positions, part, plant);
      var demand := PartDemand(part, plant, boms, orders);
      var p := DuePlan(usable, receipts, transfers, orders, demand);
      var n := |p.needs|;
      && multiset(p.needs) == multiset(demand)
      && WorstShortage(Projection(usable, receipts, transfers, demand)) == p.TotalUncovered(n)
      && SameFirst(AffectedIds(p, n), UnprotectedIds(p, n))
      && (AffectedIds(p, n) == [] <==> p.TotalUncovered(n) == 0)
  {
    var usable := UsableAt(positions, part, plant);
    var demand := PartDemand(part, plant, boms, orders);
    var p := DuePlan(usable, receipts, transfers, orders, demand);
    UsableIsNonNegative(positions, part, plant);
    DuePlanSharesData(part, plant, usable, receipts, transfers, boms, orders);
    GreedyMissIsMaximumShortage(p, receipts, transfers, demand);
    AffectedListsAgree(p, |p.needs|);
  }
}
