/** What a ranking records besides its recommendation: which options it leaves aside, and what each comparison took,
    kept and dropped (services/analysis/ranking.py:47-135). */
module RankingRecord {
  import opened Basics
  import opened Ordering
  import opened ResponseOptions
  import opened Ranking
  import opened RankingLaws
  import opened RankingPolicy

  /** The ids of a set of options. */
  ghost predicate Names(ids: seq<string>, s: set<ResponseOption>) {
    SetOf(ids) == set o | o in s :: o.id
  }

  lemma IdsOfMembers(options: seq<ResponseOption>)
    ensures |Ids(options)| == |options|
    ensures SetOf(Ids(options)) == set o | o in options :: o.id
  {
    MapIndex(IdOf, options);
    var ids := set o | o in options :: o.id;
    forall id | id in ids ensures id in Ids(options) {
      var o :| o in options && o.id == id;
      var i :| 0 <= i < |options| && options[i] == o;
      assert Ids(options)[i] == o.id;
    }
  }

  lemma IdsName(options: seq<ResponseOption>)
    ensures Names(Ids(options), SetOf(options))
  {
    IdsOfMembers(options);
    assert (set o | o in options :: o.id) == set o | o in SetOf(options) :: o.id;
  }

  /** Options that mitigate nothing. */
  function Baselines(options: seq<ResponseOption>): set<ResponseOption> { set o | o in options && !o.activeMitigation }

  /** Mitigations that may not be executed, have no predicted outcome, or are blocked. */
  function Unfit(options: seq<ResponseOption>): set<ResponseOption> {
    set o | o in options && o.activeMitigation && !(o.executable && o.predicted.Some? && o.blockingCodes == [])
  }

  lemma SortedIdsName(chosen: seq<ResponseOption>)
    ensures Sorted(StrLe, SortBy(StrLe, Ids(chosen))) && Names(SortBy(StrLe, Ids(chosen)), SetOf(chosen))
  {
    StrLeOrder();
    IdsName(chosen);
    SortBySorts(StrLe, Ids(chosen));
  }

  lemma EligibleAreSorted(options: seq<ResponseOption>)
    ensures Sorted(StrLe, Ids(EligibleInOrder(options)))
  {
    var eligible := EligibleInOrder(options);
    StrLeOrder();
    MapIndex(IdOf, eligible);
    SortBySorts(IdLe, Filter(Eligible, options));
  }

  lemma SetsAre(options: seq<ResponseOption>)
    ensures SetOf(Filter(NotActive, options)) == Baselines(options)
    ensures SetOf(Filter(Infeasible, options)) == Unfit(options)
    ensures SetOf(EligibleInOrder(options)) == Candidates(options)
  {
    FilterMembers(NotActive, options);
    FilterMembers(Infeasible, options);
    EligibleArePredicted(options);
  }

  /** Left aside are the options that mitigate nothing, and, as infeasible, the mitigations that may not be executed,
      have no predicted outcome or are blocked; the others compete, and if there are none nothing is compared. The
      lists of ids are in order. */
  lemma ListsAre(options: seq<ResponseOption>)
    ensures var r := RankingOf(options);
      && Names(r.excludedBaselineIds, Baselines(options)) && Sorted(StrLe, r.excludedBaselineIds)
      && Names(r.infeasibleIds, Unfit(options)) && Sorted(StrLe, r.infeasibleIds)
      && Names(r.eligibleIds, Candidates(options)) && Sorted(StrLe, r.eligibleIds)
      && (r.noFeasibleMitigation <==> r.eligibleIds == []) && (r.noFeasibleMitigation ==> r.stages == [])
  {
    hide SortBy, Filter, Stages, Survivors, EligibleInOrder, Names, Sorted;
    SetsAre(options);
    SortedIdsName(Filter(NotActive, options));
    SortedIdsName(Filter(Infeasible, options));
    IdsName(EligibleInOrder(options));
    EligibleAreSorted(options);
    EligibleArePredicted(options);
    IdsOfMembers(EligibleInOrder(options));
    if |EligibleInOrder(options)| > 0 { OneSurvivor(0, EligibleInOrder(options)); }
  }

  // --- The comparisons -------------------------------------------------------------------------

  lemma {:induction false} StagesFrom(k: nat, eligible: seq<ResponseOption>)
    requires |eligible| > 0 && Predicted(eligible) && k < |Stages(0, eligible)|
    ensures k < |COMPARATORS| && Stages(0, eligible)[k..] == Stages(k, StageInput(k, eligible))
  {
    hide Retain, StageOf;
    if k == 0 {
      assert Stages(0, eligible)[0..] == Stages(0, eligible);
    } else {
      StagesFrom(k - 1, eligible);
      var input := StageInput(k - 1, eligible);
      RetainKeeps(COMPARATORS[k - 1], input);
      assert Stages(0, eligible)[k..] == Stages(0, eligible)[k - 1..][1..];
    }
  }

  /** The k-th stage recorded, and whether it is the last. */
  lemma StageAt(k: nat, eligible: seq<ResponseOption>)
    requires |eligible| > 0 && Predicted(eligible) && k < |Stages(0, eligible)|
    ensures k < |COMPARATORS| && Stages(0, eligible)[k] == StageOf(COMPARATORS[k], StageInput(k, eligible))
    ensures |StageInput(k + 1, eligible)| == 1 <==> k == |Stages(0, eligible)| - 1
  {
    hide Retain, StageOf;
    StagesFrom(k, eligible);
    var input := StageInput(k, eligible);
    RetainKeeps(COMPARATORS[k], input);
    var rest := Stages(0, eligible)[k..];
    assert rest[0] == Stages(0, eligible)[k] && |rest| == |Stages(0, eligible)| - k;
    var retained := Retain(COMPARATORS[k], input);
    if |retained| == 1 {
      assert |rest| == 1;
    } else if k + 1 == |COMPARATORS| {
      LastRetainsOne(input);
    }
  }

  /** The number that the k-th comparison looks at. */
  function NumberAt(k: nat, o: ResponseOption): int {
    if k == 0 then Uncovered(o)
    else if k == 1 then OtifPoints(o)
    else if k == 2 then RevenueCents(o)
    else if k == 3 then MarginCents(o)
    else if k == 4 then CostCents(o)
    else if k == 5 then Approvals(o)
    else Risks(o)
  }

  lemma {:induction false} ValuesAre(k: nat, options: seq<ResponseOption>)
    requires k < 7 && Predicted(options)
    ensures |StageValues(COMPARATORS[k], options)| == |options|
    ensures forall i | 0 <= i < |options| ::
              StageValues(COMPARATORS[k], options)[i] == StageValue.Number(options[i].id, NumberAt(k, options[i]))
  {
    if |options| > 0 {
      assert options[0] in options && forall o | o in options[1..] :: o in options;
      ValuesAre(k, options[1..]);
    }
  }

  /** The k-th comparison took these, each with its own number, kept those, and dropped the rest. */
  ghost predicate Compares(stage: RankingStage, k: nat, taken: set<ResponseOption>, kept: set<ResponseOption>) {
    && Names(stage.inputIds, taken) && Names(stage.retainedIds, kept) && |stage.values| == |stage.inputIds|
    && (forall o | o in taken :: StageValue.Number(o.id, NumberAt(k, o)) in stage.values)
    && forall id :: id in stage.eliminatedIds <==> id in stage.inputIds && id !in stage.retainedIds
  }

  lemma StageNames(k: nat, options: seq<ResponseOption>)
    requires |EligibleInOrder(options)| > 0 && Predicted(EligibleInOrder(options)) && k < 7
    requires k < |Stages(0, EligibleInOrder(options))|
    ensures var stages := Stages(0, EligibleInOrder(options));
      && Compares(stages[k], k, Left(k, options), Left(k + 1, options))
      && (|stages[k].retainedIds| == 1 <==> k == |stages| - 1)
  {
    hide Retain, EligibleInOrder, Left, Stages, StageValues, Threshold, Names, NumberAt, Filter;
    var eligible := EligibleInOrder(options);
    StageAt(k, eligible);
    var input := StageInput(k, eligible);
    RetainKeeps(COMPARATORS[k], input);
    var retained := Retain(COMPARATORS[k], input);
    IdsName(input);
    IdsOfMembers(input);
    ValuesAre(k, input);
    IdsName(retained);
    IdsOfMembers(retained);
    StagesAreComparisons(k, options);
    StagesAreComparisons(k + 1, options);
    FilterMembers(NotIn(Ids(retained)), Ids(input));
  }

  /** Each of the seven numeric comparisons recorded took what the comparisons before it left, kept what it leaves
      itself and dropped the rest; and comparing stops as soon as one option is left. */
  lemma StagesRecordTheComparisons(options: seq<ResponseOption>)
    ensures var stages := RankingOf(options).stages;
      forall k | 0 <= k < |stages| && k < 7 ::
        && Compares(stages[k], k, Left(k, options), Left(k + 1, options))
        && (|stages[k].retainedIds| == 1 <==> k == |stages| - 1)
  {
    hide EligibleInOrder, Left, Stages, Survivors, Compares;
    EligibleArePredicted(options);
    var eligible, stages := EligibleInOrder(options), RankingOf(options).stages;
    if |eligible| > 0 {
      OneSurvivor(0, eligible);
      assert stages == Stages(0, eligible);
      forall k | 0 <= k < |stages| && k < 7
        ensures Compares(stages[k], k, Left(k, options), Left(k + 1, options))
        ensures |stages[k].retainedIds| == 1 <==> k == |stages| - 1
      {
        StageNames(k, options);
      }
    }
  }
}
