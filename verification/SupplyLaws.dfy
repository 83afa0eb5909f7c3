/** What the greedy allocation achieves: a reflection identity, on-time feasibility,
    optimality, and monotonicity in the supply. */
module SupplyLaws {
  import opened Basics
  import opened Supply

  /** Nothing is created or lost: stock, receipts, demand and misses balance after every order. */
  lemma {:induction false} Conservation(p: Plan, k: nat)
    requires k <= |p.needs|
    ensures p.TotalAllocated(k) + p.TotalUncovered(k) == p.Demanded(k)
    ensures p.start + p.Received(k) == p.TotalAllocated(k) + p.Leftover(k)
  {
    if k > 0 { Conservation(p, k - 1); }
  }

  /** The greedy, which drops what it cannot serve, misses exactly the running maximum of the
      backlog that a projection which never drops anything would show. Holds for any order. */
  lemma {:induction false} ReflectionIdentity(p: Plan, k: nat)
    requires k <= |p.needs|
    ensures p.TotalUncovered(k) == p.Peak(k)
  {
    if k > 0 {
      ReflectionIdentity(p, k - 1);
      MissIsExcessShortfall(p, k - 1);
    }
  }

  lemma MissIsExcessShortfall(p: Plan, k: nat)
    requires k < |p.needs|
    ensures p.Uncovered(k) == Max(0, p.Shortfall(k + 1) - p.TotalUncovered(k))
  {
    Conservation(p, k);
    assert p.Available(k) == p.start + p.Received(k + 1) - p.TotalAllocated(k);
    assert p.Demanded(k + 1) == p.Demanded(k) + p.needs[k].quantity;
  }

  lemma {:induction false} HorizonInDueOrder(p: Plan, k: nat)
    requires 0 < k <= |p.needs| && p.InDueOrder()
    ensures p.Horizon(k) == p.needs[k - 1].date
  {
    if k > 1 { HorizonInDueOrder(p, k - 1); }
  }

  lemma {:induction false} PeakAttained(p: Plan, n: nat)
    requires n <= |p.needs|
    ensures p.Peak(n) >= 0
    ensures forall k | 0 < k <= n :: p.Shortfall(k) <= p.Peak(n)
    ensures p.Peak(n) == 0 || exists k :: 0 < k <= n && p.Shortfall(k) == p.Peak(n)
  {
    if n > 0 { PeakAttained(p, n - 1); }
  }

  // --- Feasibility and optimality -------------------------------------------

  function Total(xs: seq<int>, k: nat): int
    requires k <= |xs|
  {
    if k == 0 then 0 else Total(xs, k - 1) + xs[k - 1]
  }

  /** Serves at most each demand, and every prefix only from what its due date has seen arrive. */
  ghost predicate TimeFeasible(p: Plan, served: seq<int>) {
    && |served| == |p.needs|
    && (forall k | 0 <= k < |served| :: 0 <= served[k] <= p.needs[k].quantity)
    && (forall k | 0 < k <= |served| :: Total(served, k) <= p.start + Arrived(p.supply, p.needs[k - 1].date))
  }

  function GreedyServed(p: Plan): seq<int> {
    seq(|p.needs|, k requires 0 <= k < |p.needs| => p.Allocated(k))
  }

  lemma {:induction false} GreedyTotals(p: Plan, k: nat)
    requires k <= |p.needs|
    ensures Total(GreedyServed(p), k) == p.TotalAllocated(k)
  {
    if k > 0 { GreedyTotals(p, k - 1); }
  }

  /** Stock and the arrivals by the first due date are not negative together. */
  predicate StartsCovered(p: Plan) {
    |p.needs| > 0 ==> p.start + Arrived(p.supply, p.needs[0].date) >= 0
  }

  lemma {:induction false} StockStaysNonNegative(p: Plan, k: nat)
    requires StartsCovered(p) && NonNegative(p.supply) && NonNegative(p.needs)
    requires k <= |p.needs|
    ensures k > 0 ==> p.Leftover(k) >= 0
    ensures k < |p.needs| ==> 0 <= p.Allocated(k)
  {
    if k > 0 { StockStaysNonNegative(p, k - 1); }
    if k < |p.needs| {
      if k > 0 { ArrivedGrows(p.supply, p.Horizon(k), p.Horizon(k + 1)); }
      assert p.needs[k] in p.needs;
    }
  }

  /** In due order every prefix is served from what had arrived by its due date exactly when the stock and the
      arrivals by the first due date are not negative together; a stock that is not negative is enough. */
  lemma GreedyIsTimeFeasible(p: Plan)
    requires NonNegative(p.supply) && NonNegative(p.needs) && p.InDueOrder()
    ensures TimeFeasible(p, GreedyServed(p)) <==> StartsCovered(p)
    ensures p.start >= 0 ==> TimeFeasible(p, GreedyServed(p))
  {
    if p.start >= 0 && |p.needs| > 0 { ArrivedGrows(p.supply, p.needs[0].date, p.needs[0].date); }
    if StartsCovered(p) {
      CoveredIsTimeFeasible(p);
    } else {
      assert p.needs[0] in p.needs;
      assert GreedyServed(p)[0] == p.Allocated(0) < 0;
    }
  }

  lemma CoveredIsTimeFeasible(p: Plan)
    requires StartsCovered(p) && NonNegative(p.supply) && NonNegative(p.needs) && p.InDueOrder()
    ensures TimeFeasible(p, GreedyServed(p))
  {
    forall k | 0 <= k < |p.needs| ensures 0 <= p.Allocated(k) <= p.needs[k].quantity {
      StockStaysNonNegative(p, k);
    }
    forall k | 0 < k <= |p.needs|
      ensures Total(GreedyServed(p), k) <= p.start + Arrived(p.supply, p.needs[k - 1].date)
    {
      GreedyTotals(p, k);
      Conservation(p, k);
      StockStaysNonNegative(p, k);
      HorizonInDueOrder(p, k);
    }
  }

  /** In due order the greedy is on time whenever any allocation is. */
  lemma GreedyIsFeasibleIfAnyIs(p: Plan, served: seq<int>)
    requires NonNegative(p.supply) && NonNegative(p.needs) && p.InDueOrder() && TimeFeasible(p, served)
    ensures TimeFeasible(p, GreedyServed(p))
  {
    if |p.needs| > 0 {
      assert Total(served, 1) == Total(served, 0) + served[0];
      assert Total(served, 1) <= p.start + Arrived(p.supply, p.needs[1 - 1].date);
    }
    CoveredIsTimeFeasible(p);
  }

  lemma {:induction false} MissedAtLeastPrefix(p: Plan, served: seq<int>, k: nat, n: nat)
    requires |served| == |p.needs| && k <= n <= |p.needs|
    requires forall i | 0 <= i < |served| :: served[i] <= p.needs[i].quantity
    ensures p.Demanded(n) - Total(served, n) >= p.Demanded(k) - Total(served, k)
  {
    if k < n { MissedAtLeastPrefix(p, served, k, n - 1); }
  }

  /** No on-time allocation of the same supply misses fewer units, after any number of orders. */
  lemma GreedyIsOptimal(p: Plan, served: seq<int>, n: nat)
    requires p.InDueOrder() && TimeFeasible(p, served) && n <= |p.needs|
    ensures p.Demanded(n) - Total(served, n) >= p.TotalUncovered(n)
  {
    ReflectionIdentity(p, n);
    PeakAttained(p, n);
    MissedAtLeastPrefix(p, served, 0, n);
    if p.Peak(n) > 0 {
      var k :| 0 < k <= n && p.Shortfall(k) == p.Peak(n);
      HorizonInDueOrder(p, k);
      MissedAtLeastPrefix(p, served, k, n);
    }
  }

  // --- The processing order that on-time service needs ------------------------

  predicate Ascending(dates: seq<Date>) { forall i, j | 0 <= i < j < |dates| :: dates[i] <= dates[j] }

  /** A plan that serves demands due on the given dates, in that order, from stock and supply that are not negative. */
  ghost predicate PlanFor(p: Plan, dates: seq<Date>) {
    && |p.needs| == |dates| && (forall k | 0 <= k < |dates| :: p.needs[k].date == dates[k])
    && p.start >= 0 && NonNegative(p.supply) && NonNegative(p.needs)
  }

  /** Demand j is marked on time although nothing is in stock and nothing has arrived by its due date. */
  ghost predicate ServedLate(p: Plan, j: nat) {
    && j < |p.needs| && p.needs[j].quantity > 0 && p.Outcome(j).fullAndOnTime
    && p.start == 0 && Arrived(p.supply, p.needs[j].date) == 0
  }

  /** One unit that arrives on date i, and one unit needed on date j. */
  function LatePlan(dates: seq<Date>, i: nat, j: nat): Plan
    requires i < |dates|
  {
    Plan(0, [TimedQuantity(dates[i], 1, "R")],
         seq(|dates|, k requires 0 <= k < |dates| => TimedQuantity(dates[k], if k == j then 1 else 0, "A")))
  }

  /** Up to demand j nothing is demanded; from then on the unit has arrived, as far as the greedy can tell. */
  lemma {:induction false} LatePlanBacklog(dates: seq<Date>, i: nat, j: nat, k: nat)
    requires i < j < |dates| && k <= |dates|
    ensures var p := LatePlan(dates, i, j);
      && p.Demanded(k) == (if j < k then 1 else 0)
      && (i < k ==> p.Horizon(k) >= dates[i])
      && p.Peak(k) == 0
  {
    var p := LatePlan(dates, i, j);
    if k > 0 {
      LatePlanBacklog(dates, i, j, k - 1);
      assert Arrived(p.supply, p.Horizon(k)) == if dates[i] <= p.Horizon(k) then 1 else 0;
    }
  }

  lemma LatePlanMissesNothing(dates: seq<Date>, i: nat, j: nat)
    requires i < j < |dates|
    ensures var p := LatePlan(dates, i, j); p.Uncovered(j) == 0 && p.TotalAllocated(j + 1) == 1
  {
    var p := LatePlan(dates, i, j);
    LatePlanBacklog(dates, i, j, j);
    LatePlanBacklog(dates, i, j, j + 1);
    ReflectionIdentity(p, j);
    ReflectionIdentity(p, j + 1);
    Conservation(p, j + 1);
  }

  lemma LatePlanServesLate(dates: seq<Date>, i: nat, j: nat)
    requires i < j < |dates| && dates[j] < dates[i]
    ensures var p := LatePlan(dates, i, j);
      PlanFor(p, dates) && ServedLate(p, j) && !TimeFeasible(p, GreedyServed(p))
  {
    var p := LatePlan(dates, i, j);
    assert p.needs[j].date == dates[j] && Arrived(p.supply, dates[j]) == 0;
    LatePlanMissesNothing(dates, i, j);
    GreedyTotals(p, j + 1);
    assert Total(GreedyServed(p), j + 1) > p.start + Arrived(p.supply, p.needs[j + 1 - 1].date);
  }

  /** The greedy is on time for every stock, supply and quantities that are not negative exactly when it processes the
      demands in due order; in any other order it marks some order on time for which nothing had arrived by then. */
  lemma OnTimeNeedsDueOrder(dates: seq<Date>)
    ensures Ascending(dates) <==> forall p | PlanFor(p, dates) :: TimeFeasible(p, GreedyServed(p))
    ensures Ascending(dates) <==> !exists p, j: nat :: PlanFor(p, dates) && ServedLate(p, j)
  {
    if Ascending(dates) {
      forall p | PlanFor(p, dates) ensures TimeFeasible(p, GreedyServed(p)) {
        assert p.InDueOrder();
        GreedyIsTimeFeasible(p);
      }
      forall p, j: nat | PlanFor(p, dates) ensures !ServedLate(p, j) {
        if j < |dates| { NeverLateInDueOrder(p, j); }
      }
    } else {
      var i, j :| 0 <= i < j < |dates| && dates[j] < dates[i];
      LatePlanServesLate(dates, i, j);
    }
  }

  lemma NeverLateInDueOrder(p: Plan, j: nat)
    requires p.start >= 0 && NonNegative(p.supply) && NonNegative(p.needs) && p.InDueOrder() && j < |p.needs|
    ensures !ServedLate(p, j)
  {
    ArrivedGrows(p.supply, p.needs[0].date, p.needs[0].date);
    StockStaysNonNegative(p, j + 1);
    HorizonInDueOrder(p, j + 1);
    Conservation(p, j + 1);
    AllocatedNothingNegative(p, j);
  }

  lemma {:induction false} AllocatedNothingNegative(p: Plan, k: nat)
    requires StartsCovered(p) && NonNegative(p.supply) && NonNegative(p.needs) && k <= |p.needs|
    ensures p.TotalAllocated(k) >= 0
  {
    if k > 0 {
      AllocatedNothingNegative(p, k - 1);
      StockStaysNonNegative(p, k - 1);
    }
  }

  /** For example: by priority, an order due on day 1 is served from what arrives on day 10. */
  lemma PriorityOrderMayServeLate()
    ensures
      var late := TimedQuantity(10, 5, "R");
      var p := Plan(0, [late], [TimedQuantity(10, 1, "A"), TimedQuantity(1, 4, "B")]);
      p.Outcome(1).fullAndOnTime && !TimeFeasible(p, GreedyServed(p))
  {
    var late := TimedQuantity(10, 5, "R");
    var p := Plan(0, [late], [TimedQuantity(10, 1, "A"), TimedQuantity(1, 4, "B")]);
    assert p.Horizon(1) == 10 && p.Horizon(2) == 10;
    assert Arrived(p.supply, 10) == 5 && Arrived(p.supply, 1) == 0;
    assert p.Received(0) == 0 && p.Received(1) == 5 && p.Received(2) == 5;
    assert p.Leftover(0) == 0 && p.Available(0) == 5 && p.Allocated(0) == 1;
    assert p.Leftover(1) == 4 && p.Available(1) == 4 && p.Allocated(1) == 4;
    var served := GreedyServed(p);
    assert served == [1, 4];
    assert Total(served, 1) == 1 && Total(served, 2) == 5;
  }

  // --- Unprotected orders against the backlogged view ------------------------

  /** `balance < need` in the running balance of the exposure calculation. */
  predicate Affected(p: Plan, k: nat)
    requires k < |p.needs|
  {
    p.start + Arrived(p.supply, p.needs[k].date) - p.Demanded(k) < p.needs[k].quantity
  }

  predicate Unprotected(p: Plan, k: nat)
    requires k < |p.needs|
  {
    p.Uncovered(k) > 0
  }

  lemma AffectedIsShortfall(p: Plan, k: nat)
    requires k < |p.needs| && p.InDueOrder()
    ensures Affected(p, k) <==> p.Shortfall(k + 1) > 0
    ensures Unprotected(p, k) <==> p.Shortfall(k + 1) > p.TotalUncovered(k)
    ensures Unprotected(p, k) ==> Affected(p, k)
  {
    HorizonInDueOrder(p, k + 1);
    MissIsExcessShortfall(p, k);
    ReflectionIdentity(p, k);
    PeakAttained(p, k);
  }

  /** The two analyses flag the same first order; everything the allocator misses is also flagged
      by the exposure calculation; and the one flags something exactly when the other does. */
  lemma ExposureAndAllocationAgree(p: Plan)
    requires p.InDueOrder()
    ensures forall k | 0 <= k < |p.needs| :: Unprotected(p, k) ==> Affected(p, k)
    ensures forall k | 0 <= k < |p.needs| ::
      (forall j | 0 <= j < k :: !Affected(p, j)) ==> (Affected(p, k) <==> Unprotected(p, k))
    ensures (exists k :: 0 <= k < |p.needs| && Affected(p, k))
       <==> (exists k :: 0 <= k < |p.needs| && Unprotected(p, k))
  {
    forall k | 0 <= k < |p.needs| ensures Unprotected(p, k) ==> Affected(p, k) { AffectedIsShortfall(p, k); }
    forall k | 0 <= k < |p.needs| && forall j | 0 <= j < k :: !Affected(p, j)
      ensures Affected(p, k) <==> Unprotected(p, k)
    {
      AffectedIsShortfall(p, k);
      NothingMissedBefore(p, k);
    }
    if k :| 0 <= k < |p.needs| && Affected(p, k) {
      var first := FirstAffected(p, k);
      assert Unprotected(p, first);
    }
  }

  lemma {:induction false} NothingMissedBefore(p: Plan, k: nat)
    requires k <= |p.needs| && p.InDueOrder()
    requires forall j | 0 <= j < k :: !Affected(p, j)
    ensures p.TotalUncovered(k) == 0
  {
    if k > 0 {
      NothingMissedBefore(p, k - 1);
      AffectedIsShortfall(p, k - 1);
      ReflectionIdentity(p, k);
      ReflectionIdentity(p, k - 1);
    }
  }

  lemma {:induction false} FirstAffected(p: Plan, k: nat) returns (first: nat)
    requires k < |p.needs| && Affected(p, k)
    ensures first <= k && Affected(p, first) && forall j | 0 <= j < first :: !Affected(p, j)
  {
    if j :| 0 <= j < k && Affected(p, j) { first := FirstAffected(p, j); } else { first := k; }
  }

  // --- More supply never hurts ----------------------------------------------

  function WithSupply(p: Plan, extra: seq<TimedQuantity>): Plan { p.(supply := p.supply + extra) }

  lemma {:induction false} MoreSupplyMoreStock(p: Plan, extra: seq<TimedQuantity>, k: nat)
    requires NonNegative(extra) && k <= |p.needs|
    ensures var q := WithSupply(p, extra);
      && (k > 0 ==> q.Horizon(k) == p.Horizon(k))
      && q.Leftover(k) >= p.Leftover(k)
      && (k < |p.needs| ==> q.Available(k) >= p.Available(k) && q.Uncovered(k) <= p.Uncovered(k))
  {
    if k > 0 {
      MoreSupplyMoreStock(p, extra, k - 1);
      SameHorizon(p, extra, k);
    }
    if k < |p.needs| { MoreArrives(p, extra, k); }
  }

  /** The extra supply only adds to what arrives between two demands. */
  lemma MoreArrives(p: Plan, extra: seq<TimedQuantity>, k: nat)
    requires NonNegative(extra) && k < |p.needs|
    ensures var q := WithSupply(p, extra); q.Received(k + 1) - q.Received(k) >= p.Received(k + 1) - p.Received(k)
  {
    SameHorizon(p, extra, k + 1);
    ArrivedAppend(p.supply, extra, p.Horizon(k + 1));
    if k == 0 {
      ArrivedGrows(extra, p.Horizon(1), p.Horizon(1));
    } else {
      SameHorizon(p, extra, k);
      ArrivedAppend(p.supply, extra, p.Horizon(k));
      ArrivedGrows(extra, p.Horizon(k), p.Horizon(k + 1));
    }
  }

  lemma {:induction false} SameHorizon(p: Plan, extra: seq<TimedQuantity>, k: nat)
    requires 0 < k <= |p.needs|
    ensures WithSupply(p, extra).Horizon(k) == p.Horizon(k)
  {
    if k > 1 { SameHorizon(p, extra, k - 1); }
  }

  /** Extra dated supply never un-protects an order and never raises a miss, for any processing order. */
  lemma {:induction false} MoreSupplyProtectsMore(p: Plan, extra: seq<TimedQuantity>, k: nat)
    requires NonNegative(extra) && k <= |p.needs|
    ensures var q := WithSupply(p, extra);
      && q.TotalUncovered(k) <= p.TotalUncovered(k)
      && q.ByOrder(k).Keys == p.ByOrder(k).Keys
      && forall id | id in p.ByOrder(k) ::
           && q.ByOrder(k)[id].uncovered <= p.ByOrder(k)[id].uncovered
           && (p.ByOrder(k)[id].fullAndOnTime ==> q.ByOrder(k)[id].fullAndOnTime)
  {
    if k > 0 {
      MoreSupplyProtectsMore(p, extra, k - 1);
      MoreSupplyMoreStock(p, extra, k - 1);
    }
  }
}
