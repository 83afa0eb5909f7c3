/** Hard feasibility, then the thresholded lexicographic comparator policy
    (services/analysis/ranking.py). */
module Ranking {
  import opened Basics
  import opened Ordering
  import opened ResponseOptions

  datatype Comparator =
    | UncoveredPartDemand | OtifLossPercentage | RevenueAtRisk | MarginAtRisk | ResponseCost
    | ApprovalBurden | ExecutionRisk | OptionId

  const COMPARATORS: seq<Comparator> :=
    [UncoveredPartDemand, OtifLossPercentage, RevenueAtRisk, MarginAtRisk, ResponseCost,
     ApprovalBurden, ExecutionRisk, OptionId]

  /** Units, percentage points and counts as they are; money in cents. */
  function Threshold(c: Comparator): nat {
    match c
    case UncoveredPartDemand => 500
    case OtifLossPercentage => 10
    case RevenueAtRisk => 5_000_000
    case MarginAtRisk => 2_500_000
    case ResponseCost => 1_000_000
    case ApprovalBurden | ExecutionRisk | OptionId => 0
  }

  datatype StageValue = Number(optionId: string, value: int) | Name(optionId: string, value': string)

  datatype RankingStage = RankingStage(
    comparator: Comparator, threshold: nat, inputIds: seq<string>, values: seq<StageValue>,
    retainedIds: seq<string>, eliminatedIds: seq<string>)

  datatype RankingResult = RankingResult(
    eligibleIds: seq<string>, infeasibleIds: seq<string>, excludedBaselineIds: seq<string>,
    stages: seq<RankingStage>, recommended: Option<string>, noFeasibleMitigation: bool)

  datatype RankingError = DuplicateOptionIds

  function NumericValue(o: ResponseOption, c: Comparator): int
    requires c != OptionId && o.predicted.Some?
  {
    match c
    case UncoveredPartDemand => o.predicted.value.uncovered
    case OtifLossPercentage => o.predicted.value.otifLoss
    case RevenueAtRisk => o.predicted.value.revenueAtRisk
    case MarginAtRisk => o.predicted.value.marginAtRisk
    case ResponseCost => o.predicted.value.responseCost
    case ApprovalBurden => o.approvalBurden
    case ExecutionRisk => o.executionRisk
  }

  predicate Eligible(o: ResponseOption) {
    o.activeMitigation && o.executable && o.predicted.Some? && o.blockingCodes == []
  }

  predicate Infeasible(o: ResponseOption) {
    o.activeMitigation && (!o.executable || o.predicted.None? || o.blockingCodes != [])
  }

  predicate IdLe(a: ResponseOption, b: ResponseOption) { StrLe(a.id, b.id) }

  function IdOf(o: ResponseOption): string { o.id }

  function Ids(options: seq<ResponseOption>): seq<string> { Map(IdOf, options) }

  ghost predicate Predicted(options: seq<ResponseOption>) { forall o | o in options :: o.predicted.Some? }

  // --- One stage -------------------------------------------------------------

  function Best(c: Comparator, options: seq<ResponseOption>): int
    requires c != OptionId && |options| > 0 && forall o | o in options :: o.predicted.Some?
  {
    if |options| == 1 then NumericValue(options[0], c)
    else Min(NumericValue(options[0], c), Best(c, options[1..]))
  }

  function FirstById(options: seq<ResponseOption>): ResponseOption
    requires |options| > 0
  {
    if |options| == 1 then options[0]
    else
      var rest := FirstById(options[1..]);
      if StrLe(options[0].id, rest.id) then options[0] else rest
  }

  function WithinOf(c: Comparator, limit: int): ResponseOption -> bool
    requires c != OptionId
  {
    (o: ResponseOption) => o.predicted.Some? && NumericValue(o, c) <= limit
  }

  function Retain(c: Comparator, options: seq<ResponseOption>): seq<ResponseOption>
    requires |options| > 0 && forall o | o in options :: o.predicted.Some?
  {
    if c == OptionId then [FirstById(options)]
    else Filter(WithinOf(c, Best(c, options) + Threshold(c)), options)
  }

  function StageValues(c: Comparator, options: seq<ResponseOption>): seq<StageValue>
    requires forall o | o in options :: o.predicted.Some?
  {
    if |options| == 0 then []
    else
      [if c == OptionId then Name(options[0].id, options[0].id) else Number(options[0].id, NumericValue(options[0], c))]
      + StageValues(c, options[1..])
  }

  function NotIn(ids: seq<string>): string -> bool { (id: string) => id !in ids }

  function StageOf(c: Comparator, options: seq<ResponseOption>): RankingStage
    requires |options| > 0 && forall o | o in options :: o.predicted.Some?
  {
    var retained := Ids(Retain(c, options));
    RankingStage(c, Threshold(c), Ids(options), StageValues(c, options), retained,
                 Filter(NotIn(retained), Ids(options)))
  }

  lemma {:induction false} BestIsLeast(c: Comparator, options: seq<ResponseOption>)
    requires c != OptionId && |options| > 0 && Predicted(options)
    ensures forall o | o in options :: Best(c, options) <= NumericValue(o, c)
    ensures exists o :: o in options && NumericValue(o, c) == Best(c, options)
  {
    assert options[0] in options;
    if |options| > 1 {
      BestIsLeast(c, options[1..]);
      var o :| o in options[1..] && NumericValue(o, c) == Best(c, options[1..]);
      assert o in options;
      forall x | x in options ensures Best(c, options) <= NumericValue(x, c) {
        if x != options[0] { assert x in options[1..]; }
      }
    }
  }

  lemma {:induction false} FirstByIdIsLeast(options: seq<ResponseOption>)
    requires |options| > 0
    ensures FirstById(options) in options
    ensures forall o | o in options :: StrLe(FirstById(options).id, o.id)
  {
    StrLeOrder();
    if |options| > 1 {
      FirstByIdIsLeast(options[1..]);
      forall o | o in options ensures StrLe(FirstById(options).id, o.id) {
        if o != options[0] { assert o in options[1..]; }
      }
    }
  }

  lemma NumericRetainKeeps(c: Comparator, options: seq<ResponseOption>)
    requires c != OptionId && |options| > 0 && Predicted(options)
    ensures 0 < |Retain(c, options)| <= |options|
    ensures forall o :: o in Retain(c, options) <==>
      o in options && NumericValue(o, c) <= Best(c, options) + Threshold(c)
  {
    var keep := WithinOf(c, Best(c, options) + Threshold(c));
    FilterMembers(keep, options);
    BestIsLeast(c, options);
    var o :| o in options && NumericValue(o, c) == Best(c, options);
    assert o in Filter(keep, options);
  }

  /** A stage keeps some of its input, and everything within the threshold of its best. */
  lemma RetainKeeps(c: Comparator, options: seq<ResponseOption>)
    requires |options| > 0 && Predicted(options)
    ensures 0 < |Retain(c, options)| <= |options|
    ensures forall o | o in Retain(c, options) :: o in options
    ensures c != OptionId ==> forall o ::
      o in Retain(c, options) <==> o in options && NumericValue(o, c) <= Best(c, options) + Threshold(c)
  {
    if c == OptionId { FirstByIdIsLeast(options); } else { NumericRetainKeeps(c, options); }
  }

  /** Retained and eliminated ids divide the stage's input. */
  lemma StageDivides(c: Comparator, options: seq<ResponseOption>)
    requires |options| > 0 && Predicted(options)
    ensures var s := StageOf(c, options);
      && (forall id :: id in s.inputIds <==> id in s.retainedIds || id in s.eliminatedIds)
      && (forall id | id in s.retainedIds :: id !in s.eliminatedIds)
      && |s.values| == |s.inputIds| && forall i | 0 <= i < |s.values| :: s.values[i].optionId == s.inputIds[i]
  {
    hide Retain, Best, StageValues, Filter;
    RetainKeeps(c, options);
    var retained := Retain(c, options);
    FilterMembers(NotIn(Ids(retained)), Ids(options));
    MapIndex(IdOf, options);
    MapIndex(IdOf, retained);
    StageValueIds(c, options);
    forall id | id in Ids(retained) ensures id in Ids(options) {
      var i :| 0 <= i < |retained| && Ids(retained)[i] == id;
      assert retained[i] in options;
      var j :| 0 <= j < |options| && options[j] == retained[i];
      assert Ids(options)[j] == id;
    }
  }

  lemma {:induction false} StageValueIds(c: Comparator, options: seq<ResponseOption>)
    requires Predicted(options)
    ensures |StageValues(c, options)| == |options|
    ensures forall i | 0 <= i < |options| :: StageValues(c, options)[i].optionId == options[i].id
  {
    if |options| > 0 {
      assert options[0] in options && forall o | o in options[1..] :: o in options;
      StageValueIds(c, options[1..]);
    }
  }

  // --- The whole policy ------------------------------------------------------

  /** The policy without early exit: every remaining comparator filters in turn. */
  function Survivors(k: nat, options: seq<ResponseOption>): seq<ResponseOption>
    requires k <= |COMPARATORS| && |options| > 0 && forall o | o in options :: o.predicted.Some?
    decreases |COMPARATORS| - k, |options|
  {
    if k == |COMPARATORS| then options
    else
      RetainKeeps(COMPARATORS[k], options);
      Survivors(k + 1, Retain(COMPARATORS[k], options))
  }

  /** The stages recorded when the loop stops at a single survivor. */
  function Stages(k: nat, options: seq<ResponseOption>): seq<RankingStage>
    requires k <= |COMPARATORS| && |options| > 0 && forall o | o in options :: o.predicted.Some?
    decreases |COMPARATORS| - k, |options|
  {
    if k == |COMPARATORS| then []
    else
      RetainKeeps(COMPARATORS[k], options);
      var retained := Retain(COMPARATORS[k], options);
      [StageOf(COMPARATORS[k], options)] + if |retained| == 1 then [] else Stages(k + 1, retained)
  }

  lemma {:induction false} SingletonSurvives(k: nat, o: ResponseOption)
    requires k <= |COMPARATORS| && o.predicted.Some?
    ensures Survivors(k, [o]) == [o]
    decreases |COMPARATORS| - k
  {
    hide Retain;
    if k < |COMPARATORS| {
      RetainKeeps(COMPARATORS[k], [o]);
      var retained := Retain(COMPARATORS[k], [o]);
      assert retained[0] in retained;
      assert retained == [o];
      SingletonSurvives(k + 1, o);
    }
  }

  lemma LastRetainsOne(options: seq<ResponseOption>)
    requires |options| > 0 && Predicted(options)
    ensures COMPARATORS[|COMPARATORS| - 1] == OptionId && |Retain(OptionId, options)| == 1
    ensures Retain(OptionId, options)[0] in options
  {
    FirstByIdIsLeast(options);
  }

  /** The last comparator leaves exactly one option, so the full filter decides. */
  lemma {:induction false} OneSurvivor(k: nat, options: seq<ResponseOption>)
    requires k < |COMPARATORS| && |options| > 0 && Predicted(options)
    ensures |Survivors(k, options)| == 1 && Survivors(k, options)[0] in options
    decreases |COMPARATORS| - k
  {
    hide Retain;
    var retained := Retain(COMPARATORS[k], options);
    RetainKeeps(COMPARATORS[k], options);
    if k + 1 < |COMPARATORS| {
      OneSurvivor(k + 1, retained);
    } else {
      LastRetainsOne(options);
      assert Survivors(k + 1, retained) == retained;
    }
  }

  function EligibleInOrder(options: seq<ResponseOption>): seq<ResponseOption> {
    SortBy(IdLe, Filter(Eligible, options))
  }

  lemma EligibleArePredicted(options: seq<ResponseOption>)
    ensures forall o :: o in EligibleInOrder(options) <==> o in options && Eligible(o)
    ensures Predicted(EligibleInOrder(options))
  {
    StrLeOrder();
    FilterMembers(Eligible, options);
    SortBySorts(IdLe, Filter(Eligible, options));
  }

  function NotActive(o: ResponseOption): bool { !o.activeMitigation }

  /** What ranking the options records, as a function of the options alone. */
  function RankingOf(options: seq<ResponseOption>): RankingResult {
    var infeasible := SortBy(StrLe, Ids(Filter(Infeasible, options)));
    var excluded := SortBy(StrLe, Ids(Filter(NotActive, options)));
    var eligible := EligibleInOrder(options);
    EligibleArePredicted(options);
    if |eligible| == 0 then RankingResult([], infeasible, excluded, [], None, true)
    else
      OneSurvivor(0, eligible);
      RankingResult(Ids(eligible), infeasible, excluded, Stages(0, eligible), Some(Survivors(0, eligible)[0].id), false)
  }

  ghost predicate DistinctOptionIds(options: seq<ResponseOption>) { Distinct(Ids(options)) }

  /** The set has fewer elements than the list exactly when an id repeats. */
  predicate HasDuplicates(ids: seq<string>) { exists i, j | 0 <= i < j < |ids| :: ids[i] == ids[j] }

  /** What the loop knows before stage k: the filters still to come decide as all of them would. */
  ghost predicate Narrowed(all: seq<RankingStage>, winners: seq<ResponseOption>,
                           stages: seq<RankingStage>, remaining: seq<ResponseOption>, k: nat)
  {
    && k <= |COMPARATORS| && |remaining| > 0 && Predicted(remaining)
    && winners == Survivors(k, remaining) && all == stages + Stages(k, remaining)
  }

  lemma StageDecides(k: nat, options: seq<ResponseOption>)
    requires k < |COMPARATORS| && |options| > 0 && Predicted(options)
    ensures |Retain(COMPARATORS[k], options)| > 0 && Predicted(Retain(COMPARATORS[k], options))
    ensures var retained := Retain(COMPARATORS[k], options);
      Survivors(k, options) == if |retained| == 1 then retained else Survivors(k + 1, retained)
  {
    var c := COMPARATORS[k];
    RetainKeeps(c, options);
    var retained := Retain(c, options);
    if |retained| == 1 {
      assert retained[0] in retained;
      assert retained == [retained[0]];
      SingletonSurvives(k + 1, retained[0]);
    }
  }

  lemma StageRecorded(k: nat, options: seq<ResponseOption>)
    requires k < |COMPARATORS| && |options| > 0 && Predicted(options)
    requires |Retain(COMPARATORS[k], options)| > 0 && Predicted(Retain(COMPARATORS[k], options))
    ensures var retained := Retain(COMPARATORS[k], options);
      Stages(k, options) == [StageOf(COMPARATORS[k], options)] + if |retained| == 1 then [] else Stages(k + 1, retained)
  {
  }

  lemma StageNarrows(all: seq<RankingStage>, winners: seq<ResponseOption>,
                     stages: seq<RankingStage>, remaining: seq<ResponseOption>, k: nat)
    requires k < |COMPARATORS| && Narrowed(all, winners, stages, remaining, k)
    ensures var retained := Retain(COMPARATORS[k], remaining);
      var stages' := stages + [StageOf(COMPARATORS[k], remaining)];
      && |retained| > 0
      && (if |retained| == 1 then all == stages' && winners == retained
          else Narrowed(all, winners, stages', retained, k + 1))
  {
    StageDecides(k, remaining);
    StageRecorded(k, remaining);
    var retained, stage := Retain(COMPARATORS[k], remaining), StageOf(COMPARATORS[k], remaining);
    var rest := if |retained| == 1 then [] else Stages(k + 1, retained);
    assert stages + ([stage] + rest) == stages + [stage] + rest;
  }

  lemma NarrowedAtStart(eligible: seq<ResponseOption>) returns (all: seq<RankingStage>, winners: seq<ResponseOption>)
    requires |eligible| > 0 && Predicted(eligible)
    ensures all == Stages(0, eligible) && winners == Survivors(0, eligible) && |winners| == 1
    ensures Narrowed(all, winners, [], eligible, 0)
  {
    all, winners := Stages(0, eligible), Survivors(0, eligible);
    OneSurvivor(0, eligible);
    assert all == [] + all;
  }

  /** The loop that stops early chooses what all eight stages would. */
  method Choose(eligible: seq<ResponseOption>) returns (stages: seq<RankingStage>, recommended: ResponseOption)
    requires |eligible| > 0 && forall o | o in eligible :: o.predicted.Some?
    ensures stages == Stages(0, eligible)
    ensures [recommended] == Survivors(0, eligible)
  {
    var remaining := eligible;
    stages := [];
    var k := 0;
    ghost var all, winners := NarrowedAtStart(eligible);
    while k < |COMPARATORS|
      invariant k <= |COMPARATORS|
      invariant Narrowed(all, winners, stages, remaining, k)
    {
      StageNarrows(all, winners, stages, remaining, k);
      var c := COMPARATORS[k];
      stages := stages + [StageOf(c, remaining)];
      remaining := Retain(c, remaining);
      if |remaining| == 1 {
        assert [remaining[0]] == remaining;
        return stages, remaining[0];
      }
      k := k + 1;
    }
    recommended := remaining[0];
  }

  method RankOptions(options: seq<ResponseOption>) returns (r: Result<RankingResult, RankingError>)
    ensures r.Ok? <==> DistinctOptionIds(options)
    ensures r.Ok? ==> r.value == RankingOf(options)
  {
    if HasDuplicates(Ids(options)) { return Err(DuplicateOptionIds); }
    var excluded := SortBy(StrLe, Ids(Filter(NotActive, options)));
    var infeasible := SortBy(StrLe, Ids(Filter(Infeasible, options)));
    var eligible := EligibleInOrder(options);
    EligibleArePredicted(options);
    if |eligible| == 0 { return Ok(RankingResult([], infeasible, excluded, [], None, true)); }
    var stages, recommended := Choose(eligible);
    r := Ok(RankingResult(Ids(eligible), infeasible, excluded, stages, Some(recommended.id), false));
  }
}
