/** The recommendation on the options' own numbers: seven nested comparisons with their tolerances, then the id
    (services/analysis/ranking.py:18-27 and 59-135). */
module RankingPolicy {
  import opened Basics
  import opened Ordering
  import opened ResponseOptions
  import opened Ranking
  import opened RankingLaws

  // --- The numbers ---------------------------------------------------------------------------

  function Number(o: ResponseOption, of: PredictedOutcome -> int): int {
    if o.predicted.Some? then of(o.predicted.value) else 0
  }

  function Uncovered(o: ResponseOption): int { Number(o, (p: PredictedOutcome) => p.uncovered) }

  function OtifPoints(o: ResponseOption): int { Number(o, (p: PredictedOutcome) => p.otifLoss) }

  function RevenueCents(o: ResponseOption): int { Number(o, (p: PredictedOutcome) => p.revenueAtRisk) }

  function MarginCents(o: ResponseOption): int { Number(o, (p: PredictedOutcome) => p.marginAtRisk) }

  function CostCents(o: ResponseOption): int { Number(o, (p: PredictedOutcome) => p.responseCost) }

  function Approvals(o: ResponseOption): int { o.approvalBurden }

  function Risks(o: ResponseOption): int { o.executionRisk }

  /** Those whose value is at most the tolerance above every other's. */
  ghost function Near(s: set<ResponseOption>, value: ResponseOption -> int, tolerance: nat): set<ResponseOption> {
    set o | o in s && forall x | x in s :: value(o) <= value(x) + tolerance
  }

  ghost function Candidates(options: seq<ResponseOption>): set<ResponseOption> {
    set o | o in options && o.activeMitigation && o.executable && o.predicted.Some? && o.blockingCodes == []
  }

  /** What is left after the first n comparisons: uncovered demand to 500 units, OTIF loss to 10 points, revenue at
      risk to 50,000 USD, margin at risk to 25,000 USD, response cost to 10,000 USD, approval burden and execution risk
      exactly. */
  ghost function Left(n: nat, options: seq<ResponseOption>): set<ResponseOption>
    requires n <= 7
  {
    if n == 0 then Candidates(options)
    else if n == 1 then Near(Left(0, options), Uncovered, 500)
    else if n == 2 then Near(Left(1, options), OtifPoints, 10)
    else if n == 3 then Near(Left(2, options), RevenueCents, 50_000_00)
    else if n == 4 then Near(Left(3, options), MarginCents, 25_000_00)
    else if n == 5 then Near(Left(4, options), CostCents, 10_000_00)
    else if n == 6 then Near(Left(5, options), Approvals, 0)
    else Near(Left(6, options), Risks, 0)
  }

  // --- The stages are these comparisons ---------------------------------------------------------

  /** A numeric stage keeps the members near its least value. */
  lemma StageIsNear(c: Comparator, input: seq<ResponseOption>, value: ResponseOption -> int, tolerance: nat)
    requires c != OptionId && |input| > 0 && Predicted(input) && Threshold(c) == tolerance
    requires forall o | o in input :: NumericValue(o, c) == value(o)
    ensures SetOf(Retain(c, input)) == Near(SetOf(input), value, tolerance)
  {
    hide Retain, Best, NumericValue;
    RetainKeeps(c, input);
    BestIsLeast(c, input);
    var least :| least in input && NumericValue(least, c) == Best(c, input);
    forall o ensures o in SetOf(Retain(c, input)) <==> o in Near(SetOf(input), value, tolerance) {
      assert least in SetOf(input);
    }
  }

  lemma NextIsNear(n: nat, c: Comparator, options: seq<ResponseOption>, value: ResponseOption -> int, tolerance: nat)
    requires n < 7 && COMPARATORS[n] == c && c != OptionId && |options| > 0 && Predicted(options)
    requires Threshold(c) == tolerance
    requires forall o: ResponseOption | o.predicted.Some? :: NumericValue(o, c) == value(o)
    ensures SetOf(StageInput(n + 1, options)) == Near(SetOf(StageInput(n, options)), value, tolerance)
  {
    hide Retain, NumericValue;
    StageIsNear(c, StageInput(n, options), value, tolerance);
  }

  lemma {:induction false} StagesAreComparisons(n: nat, options: seq<ResponseOption>)
    requires n <= 7 && |EligibleInOrder(options)| > 0
    ensures Predicted(EligibleInOrder(options))
    ensures SetOf(StageInput(n, EligibleInOrder(options))) == Left(n, options)
  {
    hide StageInput, EligibleInOrder, Near, Candidates;
    var eligible := EligibleInOrder(options);
    EligibleArePredicted(options);
    if n == 0 {
      EligibleAreCandidates(options);
    } else {
      StagesAreComparisons(n - 1, options);
      if n == 1 { NextIsNear(0, UncoveredPartDemand, eligible, Uncovered, 500); }
      if n == 2 { NextIsNear(1, OtifLossPercentage, eligible, OtifPoints, 10); }
      if n == 3 { NextIsNear(2, RevenueAtRisk, eligible, RevenueCents, 50_000_00); }
      if n == 4 { NextIsNear(3, MarginAtRisk, eligible, MarginCents, 25_000_00); }
      if n == 5 { NextIsNear(4, ResponseCost, eligible, CostCents, 10_000_00); }
      if n == 6 { NextIsNear(5, ApprovalBurden, eligible, Approvals, 0); }
      if n == 7 { NextIsNear(6, ExecutionRisk, eligible, Risks, 0); }
    }
  }

  lemma EligibleAreCandidates(options: seq<ResponseOption>)
    requires |EligibleInOrder(options)| > 0
    ensures Predicted(EligibleInOrder(options))
    ensures SetOf(StageInput(0, EligibleInOrder(options))) == Candidates(options)
  {
    EligibleArePredicted(options);
  }

  // --- The recommendation ---------------------------------------------------------------------

  /** The recommendation is the first by id of those left after the seven comparisons, and there is none exactly when no
      active mitigation is executable, predicted and unblocked. */
  lemma RecommendationIsLeftLast(options: seq<ResponseOption>)
    ensures RankingOf(options).recommended.None? <==> Candidates(options) == {}
    ensures forall id: string :: RankingOf(options).recommended == Some(id) <==>
      exists w :: w in Left(7, options) && w.id == id && forall x | x in Left(7, options) :: StrLe(id, x.id)
  {
    hide StageInput, EligibleInOrder, Left, Survivors, Stages;
    EligibleArePredicted(options);
    var eligible := EligibleInOrder(options);
    if |eligible| == 0 {
      NobodyLeft(options);
    } else {
      OneSurvivor(0, eligible);
      StagesAreComparisons(7, options);
      LastIsFirstById(eligible);
      assert eligible[0] in eligible;
      assert eligible[0] in Candidates(options);
      StrLeOrder();
    }
  }

  lemma NobodyLeft(options: seq<ResponseOption>)
    requires |EligibleInOrder(options)| == 0
    ensures Candidates(options) == {} && Left(7, options) == {}
  {
    EligibleArePredicted(options);
    assert forall o :: o in Candidates(options) ==> o in EligibleInOrder(options);
    EmptyStays(7, options);
  }

  lemma {:induction false} EmptyStays(n: nat, options: seq<ResponseOption>)
    requires n <= 7 && Candidates(options) == {}
    ensures Left(n, options) == {}
  {
    if n > 0 { EmptyStays(n - 1, options); }
  }

  lemma LastIsFirstById(eligible: seq<ResponseOption>)
    requires |eligible| > 0 && Predicted(eligible)
    ensures |Survivors(0, eligible)| == 1 && Survivors(0, eligible)[0] in StageInput(7, eligible)
    ensures forall x | x in StageInput(7, eligible) :: StrLe(Survivors(0, eligible)[0].id, x.id)
  {
    hide Survivors;
    OneSurvivor(0, eligible);
    WinnerEnters(eligible, Survivors(0, eligible)[0]);
    FirstByIdIsLeast(StageInput(7, eligible));
    assert COMPARATORS[7] == OptionId;
  }

  /** The recommended option's uncovered demand is within 500 units of every candidate's, whatever they cost. */
  lemma RecommendedCoversDemand(options: seq<ResponseOption>, w: ResponseOption, x: ResponseOption)
    requires DistinctOptionIds(options) && w in options && RankingOf(options).recommended == Some(w.id)
    requires x in Candidates(options)
    ensures w in Candidates(options) && w.predicted.value.uncovered <= x.predicted.value.uncovered + 500
  {
    hide Left;
    RecommendationIsLeftLast(options);
    var v :| v in Left(7, options) && v.id == w.id;
    LeftShrinks(7, 1, options);
    LeftShrinks(7, 0, options);
    assert v in Left(1, options) && v in Left(0, options);
    FirstComparison(options);
    SameIdSameOption(options, v, w);
  }

  lemma FirstComparison(options: seq<ResponseOption>)
    ensures Left(0, options) == Candidates(options) && Left(1, options) == Near(Candidates(options), Uncovered, 500)
  {
  }

  lemma {:induction false} LeftShrinks(n: nat, m: nat, options: seq<ResponseOption>)
    requires m <= n <= 7
    ensures Left(n, options) <= Left(m, options)
  {
    if m < n { LeftShrinks(n - 1, m, options); }
  }

  /** A candidate that alone comes within 500 units of the least uncovered demand is recommended, whatever it costs. */
  lemma AloneOnDemandIsRecommended(options: seq<ResponseOption>, o: ResponseOption)
    requires o in Candidates(options)
    requires forall x | x in Candidates(options) && x != o ::
      exists y :: y in Candidates(options) && x.predicted.value.uncovered > y.predicted.value.uncovered + 500
    ensures RankingOf(options).recommended == Some(o.id)
  {
    hide Left;
    RecommendationIsLeftLast(options);
    var id := RankingOf(options).recommended.value;
    var w :| w in Left(7, options) && w.id == id;
    LeftShrinks(7, 1, options);
    FirstComparison(options);
    forall x | x in Candidates(options) && x != o ensures x !in Near(Candidates(options), Uncovered, 500) {
      var y :| y in Candidates(options) && x.predicted.value.uncovered > y.predicted.value.uncovered + 500;
      assert Uncovered(x) > Uncovered(y) + 500;
    }
  }

  // --- What is recorded about the stages ---------------------------------------------------------

  const POLICY: seq<(Comparator, nat)> :=
    [(UncoveredPartDemand, 500), (OtifLossPercentage, 10), (RevenueAtRisk, 50_000_00), (MarginAtRisk, 25_000_00),
     (ResponseCost, 10_000_00), (ApprovalBurden, 0), (ExecutionRisk, 0), (OptionId, 0)]

  lemma PolicyIs(k: nat)
    requires k < 8
    ensures |COMPARATORS| == 8 && COMPARATORS[k] == POLICY[k].0 && Threshold(COMPARATORS[k]) == POLICY[k].1
  {
  }

  /** Stages from the k-th comparator on, the first over these ids, each later one over what the one before retained. */
  ghost predicate Chained(k: nat, stages: seq<RankingStage>, ids: seq<string>) {
    && k + |stages| <= |COMPARATORS| && (|stages| > 0 ==> stages[0].inputIds == ids)
    && (forall j | 0 <= j < |stages| ::
          stages[j].comparator == COMPARATORS[k + j] && stages[j].threshold == Threshold(COMPARATORS[k + j]))
    && forall j | 0 < j < |stages| :: stages[j].inputIds == stages[j - 1].retainedIds
  }

  lemma {:induction false} StagesFollow(k: nat, options: seq<ResponseOption>)
    requires k <= |COMPARATORS| && |options| > 0 && Predicted(options)
    ensures Chained(k, Stages(k, options), Ids(options))
    ensures k < |COMPARATORS| ==> |Stages(k, options)| > 0
    decreases |COMPARATORS| - k
  {
    hide Retain, StageValues, Filter, Threshold, Chained, Map;
    if k == |COMPARATORS| {
      NothingChained(k, Ids(options));
    } else {
      RetainKeeps(COMPARATORS[k], options);
      var retained := Retain(COMPARATORS[k], options);
      StageRecorded(k, options);
      if |retained| == 1 { NothingChained(k + 1, Ids(retained)); } else { StagesFollow(k + 1, retained); }
      ChainedOnto(k, StageOf(COMPARATORS[k], options), if |retained| == 1 then [] else Stages(k + 1, retained));
    }
  }

  lemma NothingChained(k: nat, ids: seq<string>)
    requires k <= |COMPARATORS|
    ensures Chained(k, [], ids)
  {
  }

  lemma ChainedOnto(k: nat, stage: RankingStage, later: seq<RankingStage>)
    requires k < |COMPARATORS| && stage.comparator == COMPARATORS[k] && stage.threshold == Threshold(COMPARATORS[k])
    requires Chained(k + 1, later, stage.retainedIds)
    ensures Chained(k, [stage] + later, stage.inputIds)
  {
    var all := [stage] + later;
    forall j | 0 <= j < |all|
      ensures all[j].comparator == COMPARATORS[k + j] && all[j].threshold == Threshold(COMPARATORS[k + j])
      ensures j > 0 ==> all[j].inputIds == all[j - 1].retainedIds
    {
      if j > 0 { assert all[j] == later[j - 1]; }
      if j > 1 { assert all[j - 1] == later[j - 2]; }
    }
  }

  /** The recorded stages name the comparators of the policy in its order with its tolerances, the first takes all
      eligible options, and each later one what the one before retained. */
  lemma StagesFollowThePolicy(options: seq<ResponseOption>)
    ensures var r := RankingOf(options);
      && |r.stages| <= 8 && (r.recommended.Some? ==> |r.stages| > 0 && r.stages[0].inputIds == r.eligibleIds)
      && forall j | 0 <= j < |r.stages| ::
           && (r.stages[j].comparator, r.stages[j].threshold) == POLICY[j]
           && (j > 0 ==> r.stages[j].inputIds == r.stages[j - 1].retainedIds)
  {
    hide Stages, Survivors, EligibleInOrder, Threshold;
    EligibleArePredicted(options);
    var eligible := EligibleInOrder(options);
    if |eligible| > 0 {
      OneSurvivor(0, eligible);
      StagesFollow(0, eligible);
      forall j | 0 <= j < |Stages(0, eligible)|
        ensures (Stages(0, eligible)[j].comparator, Stages(0, eligible)[j].threshold) == POLICY[j]
      {
        PolicyIs(j);
      }
    }
  }
}
