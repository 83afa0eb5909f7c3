/** What the ranking policy guarantees to whoever reads a recommendation. */
module RankingLaws {
  import opened Basics
  import opened Ordering
  import opened ResponseOptions
  import opened Ranking

  // --- The recommendation itself ---------------------------------------------

  lemma SameIdSameOption(options: seq<ResponseOption>, a: ResponseOption, b: ResponseOption)
    requires DistinctOptionIds(options) && a in options && b in options && a.id == b.id
    ensures a == b
  {
    MapIndex(IdOf, options);
    var i :| 0 <= i < |options| && options[i] == a;
    var j :| 0 <= j < |options| && options[j] == b;
    assert Ids(options)[i] == Ids(options)[j];
  }

  /** A recommendation exists exactly when some option is eligible, and then it is one of those. */
  lemma RecommendationIsEligible(options: seq<ResponseOption>) returns (winner: Option<ResponseOption>)
    requires DistinctOptionIds(options)
    ensures winner.Some? <==> exists o :: o in options && Eligible(o)
    ensures winner.Some? ==> winner.value in options && Eligible(winner.value)
    ensures RankingOf(options).recommended == (match winner case None => None case Some(o) => Some(o.id))
    ensures RankingOf(options).noFeasibleMitigation <==> winner.None?
  {
    EligibleArePredicted(options);
    var eligible := EligibleInOrder(options);
    if |eligible| == 0 {
      winner := None;
    } else {
      OneSurvivor(0, eligible);
      winner := Some(Survivors(0, eligible)[0]);
      assert eligible[0] in eligible;
    }
  }

  // --- The order of the options does not matter --------------------------------

  lemma IdsInOrder(keep: ResponseOption -> bool, xs: seq<ResponseOption>, ys: seq<ResponseOption>)
    requires multiset(xs) == multiset(ys)
    ensures SortBy(StrLe, Ids(Filter(keep, xs))) == SortBy(StrLe, Ids(Filter(keep, ys)))
  {
    StrLeOrder();
    FilterPermutation(keep, xs, ys);
    MapPermutation(IdOf, Filter(keep, xs), Filter(keep, ys));
    SortByForgetsOrder(StrLe, Ids(Filter(keep, xs)), Ids(Filter(keep, ys)));
  }

  lemma EligibleForgetOrder(xs: seq<ResponseOption>, ys: seq<ResponseOption>)
    requires multiset(xs) == multiset(ys) && DistinctOptionIds(xs)
    ensures EligibleInOrder(xs) == EligibleInOrder(ys)
  {
    StrLeOrder();
    FilterPermutation(Eligible, xs, ys);
    FilterMembers(Eligible, xs);
    forall a, b | a in Filter(Eligible, xs) && b in Filter(Eligible, xs) && IdLe(a, b) && IdLe(b, a) ensures a == b {
      StrLeAntisymmetric(a.id, b.id);
      SameIdSameOption(xs, a, b);
    }
    SortByForgetsOrder(IdLe, Filter(Eligible, xs), Filter(Eligible, ys));
  }

  /** Listing the same options in another order changes nothing in the ranking: not one stage, not one id list. */
  lemma RankingForgetsOrder(xs: seq<ResponseOption>, ys: seq<ResponseOption>)
    requires multiset(xs) == multiset(ys) && DistinctOptionIds(xs)
    ensures RankingOf(xs) == RankingOf(ys)
  {
    IdsInOrder(Infeasible, xs, ys);
    IdsInOrder(NotActive, xs, ys);
    EligibleForgetOrder(xs, ys);
  }

  // --- Dominance -----------------------------------------------------------------

  /** The options that enter stage k of the full policy. */
  function StageInput(k: nat, options: seq<ResponseOption>): (r: seq<ResponseOption>)
    requires k <= |COMPARATORS| && |options| > 0 && forall o | o in options :: o.predicted.Some?
    ensures |r| > 0 && forall o | o in r :: o in options
    decreases k, |options|
  {
    if k == 0 then options
    else
      RetainKeeps(COMPARATORS[k - 1], StageInput(k - 1, options));
      Retain(COMPARATORS[k - 1], StageInput(k - 1, options))
  }

  lemma SurvivorsStep(k: nat, options: seq<ResponseOption>)
    requires k < |COMPARATORS| && |options| > 0 && Predicted(options)
    ensures |Retain(COMPARATORS[k], options)| > 0 && Predicted(Retain(COMPARATORS[k], options))
    ensures Survivors(k, options) == Survivors(k + 1, Retain(COMPARATORS[k], options))
  {
    RetainKeeps(COMPARATORS[k], options);
  }

  lemma {:induction false} StagesCompose(k: nat, options: seq<ResponseOption>, j: nat)
    requires j <= k <= |COMPARATORS| && |options| > 0 && Predicted(options)
    ensures Survivors(j, StageInput(j, options)) == Survivors(k, StageInput(k, options))
  {
    if j < k {
      var i: nat := k - 1;
      StagesCompose(i, options, j);
      SurvivorsStep(i, StageInput(i, options));
    }
  }

  ghost predicate NoWorseOnNumbers(x: ResponseOption, y: ResponseOption) {
    x.predicted.Some? && y.predicted.Some?
    && forall c: Comparator | c != OptionId :: NumericValue(x, c) <= NumericValue(y, c)
  }

  /** The full policy ends with winner alone, which therefore entered every stage. */
  ghost predicate Wins(winner: ResponseOption, options: seq<ResponseOption>) {
    && |options| > 0 && Predicted(options)
    && StageInput(|COMPARATORS|, options) == [winner]
    && forall j: nat | j <= |COMPARATORS| :: winner in StageInput(j, options)
  }

  ghost predicate EntersEveryStage(x: ResponseOption, options: seq<ResponseOption>) {
    && |options| > 0 && Predicted(options)
    && forall k: nat | k < |COMPARATORS| :: x in StageInput(k, options)
  }

  lemma {:induction false} StagesShrink(k: nat, options: seq<ResponseOption>, j: nat)
    requires j <= k <= |COMPARATORS| && |options| > 0 && Predicted(options)
    ensures forall o | o in StageInput(k, options) :: o in StageInput(j, options)
  {
    if j < k {
      StagesShrink(k - 1, options, j);
      RetainKeeps(COMPARATORS[k - 1], StageInput(k - 1, options));
    }
  }

  lemma WinnerEnters(options: seq<ResponseOption>, winner: ResponseOption)
    requires |options| > 0 && Predicted(options) && Survivors(0, options) == [winner]
    ensures Wins(winner, options)
  {
    var last: nat := |COMPARATORS|;
    StagesCompose(last, options, 0);
    forall j: nat | j <= last ensures winner in StageInput(j, options) { StagesShrink(last, options, j); }
  }

  lemma DominatorRetained(c: Comparator, input: seq<ResponseOption>, x: ResponseOption, winner: ResponseOption)
    requires c != OptionId && |input| > 0 && Predicted(input) && x in input && winner in Retain(c, input)
      && winner in input
    requires NumericValue(x, c) <= NumericValue(winner, c)
    ensures x in Retain(c, input) && NumericValue(winner, c) <= NumericValue(x, c) + Threshold(c)
  {
    RetainKeeps(c, input);
    BestIsLeast(c, input);
  }

  lemma DominatorStep(j: nat, c: Comparator, options: seq<ResponseOption>, x: ResponseOption, winner: ResponseOption)
    requires j < |COMPARATORS| && COMPARATORS[j] == c != OptionId
    requires Wins(winner, options) && NoWorseOnNumbers(x, winner) && x in StageInput(j, options)
    ensures x in StageInput(j + 1, options)
    ensures NumericValue(winner, c) <= NumericValue(x, c) + Threshold(c)
  {
    assert winner in StageInput(j + 1, options);
    DominatorRetained(c, StageInput(j, options), x, winner);
  }

  /** An option that is no worse than the winner passes every numeric stage with it. */
  lemma {:induction false} DominatorSurvives(k: nat, options: seq<ResponseOption>, x: ResponseOption,
                                             winner: ResponseOption)
    requires k < |COMPARATORS| && Wins(winner, options) && x in options
    requires NoWorseOnNumbers(x, winner)
    ensures x in StageInput(k, options)
  {
    hide Retain, Wins, NoWorseOnNumbers, Predicted;
    if k > 0 {
      var j: nat := k - 1;
      DominatorSurvives(j, options, x, winner);
      DominatorStep(j, COMPARATORS[j], options, x, winner);
    }
  }

  lemma DominatorEntersAll(options: seq<ResponseOption>, x: ResponseOption, winner: ResponseOption)
    requires Wins(winner, options) && x in options && NoWorseOnNumbers(x, winner)
    ensures EntersEveryStage(x, options)
  {
    forall k: nat | k < |COMPARATORS| ensures x in StageInput(k, options) { DominatorSurvives(k, options, x, winner); }
  }

  lemma CloseOnNumbers(options: seq<ResponseOption>, x: ResponseOption, winner: ResponseOption)
    requires Wins(winner, options) && x in options && NoWorseOnNumbers(x, winner)
    ensures forall c: Comparator | c != OptionId :: NumericValue(winner, c) <= NumericValue(x, c) + Threshold(c)
  {
    forall c: Comparator | c != OptionId ensures NumericValue(winner, c) <= NumericValue(x, c) + Threshold(c) {
      var j: nat := match c
        case UncoveredPartDemand => 0 case OtifLossPercentage => 1 case RevenueAtRisk => 2 case MarginAtRisk => 3
        case ResponseCost => 4 case ApprovalBurden => 5 case ExecutionRisk => 6;
      CloseAt(j, c, options, x, winner);
    }
  }

  lemma CloseAt(j: nat, c: Comparator, options: seq<ResponseOption>, x: ResponseOption, winner: ResponseOption)
    requires j < |COMPARATORS| && COMPARATORS[j] == c != OptionId
    requires Wins(winner, options) && x in options && NoWorseOnNumbers(x, winner)
    ensures NumericValue(winner, c) <= NumericValue(x, c) + Threshold(c)
  {
    DominatorSurvives(j, options, x, winner);
    DominatorStep(j, c, options, x, winner);
  }

  lemma WinnerSurvives(options: seq<ResponseOption>, winner: ResponseOption)
    requires DistinctOptionIds(options) && winner in options && RankingOf(options).recommended == Some(winner.id)
    ensures Wins(winner, EligibleInOrder(options))
  {
    EligibleArePredicted(options);
    var eligible := EligibleInOrder(options);
    OneSurvivor(0, eligible);
    SameIdSameOption(options, Survivors(0, eligible)[0], winner);
    WinnerEnters(eligible, winner);
  }

  lemma LastStageById(options: seq<ResponseOption>, x: ResponseOption, winner: ResponseOption)
    requires Wins(winner, options)
    requires EntersEveryStage(x, options)
    ensures StrLe(winner.id, x.id)
  {
    var last: nat := |COMPARATORS| - 1;
    var input := StageInput(last, options);
    assert x in input && COMPARATORS[last] == OptionId;
    assert StageInput(last + 1, options) == [FirstById(input)];
    FirstByIdIsLeast(input);
  }

  /** The winner can only beat a dominating option on its id: the two tie on approval burden and on
      execution risk, and the winner's other values lie within the thresholds of the other's. */
  lemma DominatorLosesOnlyById(options: seq<ResponseOption>, x: ResponseOption, winner: ResponseOption)
    requires DistinctOptionIds(options) && x in options && Eligible(x)
    requires winner in options && RankingOf(options).recommended == Some(winner.id)
    requires NoWorseOnNumbers(x, winner)
    ensures EntersEveryStage(x, EligibleInOrder(options))
    ensures x.approvalBurden == winner.approvalBurden && x.executionRisk == winner.executionRisk
    ensures forall c: Comparator | c != OptionId :: NumericValue(winner, c) <= NumericValue(x, c) + Threshold(c)
    ensures StrLe(winner.id, x.id)
  {
    hide RankingOf, EligibleInOrder, Wins, EntersEveryStage, DistinctOptionIds;
    EligibleArePredicted(options);
    var eligible := EligibleInOrder(options);
    WinnerSurvives(options, winner);
    DominatorEntersAll(eligible, x, winner);
    CloseOnNumbers(eligible, x, winner);
    LastStageById(eligible, x, winner);
    assert NumericValue(winner, ApprovalBurden) == NumericValue(x, ApprovalBurden);
    assert NumericValue(winner, ExecutionRisk) == NumericValue(x, ExecutionRisk);
  }

  // --- Irrelevant alternatives --------------------------------------------------

  function Other(x: ResponseOption): ResponseOption -> bool { (o: ResponseOption) => o != x }

  function Without(x: ResponseOption, options: seq<ResponseOption>): seq<ResponseOption> { Filter(Other(x), options) }

  /** x never sets the standard of a numeric stage on its own: wherever it enters, another is at least as good. */
  ghost predicate NeverUniqueMinimum(x: ResponseOption, options: seq<ResponseOption>)
  {
    && |options| > 0 && Predicted(options)
    && forall k: nat | k < |COMPARATORS| && COMPARATORS[k] != OptionId && x in StageInput(k, options) ::
      MatchedBy(x, COMPARATORS[k], StageInput(k, options))
  }

  ghost predicate MatchedBy(x: ResponseOption, c: Comparator, options: seq<ResponseOption>)
    requires x in options && Predicted(options) && c != OptionId
  {
    exists y :: y in options && y != x && NumericValue(y, c) <= NumericValue(x, c)
  }

  lemma BestWithout(c: Comparator, options: seq<ResponseOption>, x: ResponseOption)
    requires c != OptionId && |options| > 0 && Predicted(options)
    requires x in options ==> MatchedBy(x, c, options)
    ensures |Without(x, options)| > 0 && Predicted(Without(x, options))
    ensures Best(c, Without(x, options)) == Best(c, options)
  {
    hide Best, Filter, NumericValue;
    FilterMembers(Other(x), options);
    var rest := Without(x, options);
    BestIsLeast(c, options);
    var best :| best in options && NumericValue(best, c) == Best(c, options);
    if best == x {
      var y :| y in options && y != x && NumericValue(y, c) <= NumericValue(x, c);
      assert y in rest && NumericValue(y, c) == Best(c, options);
    } else {
      assert best in rest;
    }
    BestIsLeast(c, rest);
  }

  lemma {:induction false} FirstWithout(options: seq<ResponseOption>, x: ResponseOption)
    requires |options| > 0 && FirstById(options) != x
    ensures |Without(x, options)| > 0 && FirstById(Without(x, options)) == FirstById(options)
  {
    StrLeOrder();
    FirstByIdIsLeast(options);
    FilterMembers(Other(x), options);
    if |options| > 1 {
      var tail := options[1..];
      FirstByIdIsLeast(tail);
      FilterMembers(Other(x), tail);
      if FirstById(tail) != x { FirstWithout(tail, x); }
      var kept := Without(x, tail);
      if options[0] == x {
        assert Without(x, options) == kept;
      } else {
        assert Without(x, options)[1..] == kept;
        if |kept| > 0 { FirstByIdIsLeast(kept); } else { assert FirstById(tail) in tail; }
      }
    }
  }

  lemma WithoutSingle(o: ResponseOption, x: ResponseOption)
    requires o != x
    ensures Without(x, [o]) == [o]
  {
    assert Without(x, [o]) == [o] + Filter(Other(x), [o][1..]);
  }

  lemma NumericRetainWithout(c: Comparator, options: seq<ResponseOption>, x: ResponseOption)
    requires |options| > 0 && Predicted(options) && c != OptionId
    requires x in options ==> MatchedBy(x, c, options)
    ensures |Without(x, options)| > 0 && Predicted(Without(x, options))
    ensures Retain(c, Without(x, options)) == Without(x, Retain(c, options))
  {
    BestWithout(c, options, x);
    FiltersCommute(WithinOf(c, Best(c, options) + Threshold(c)), Other(x), options);
  }

  /** Taking x out of a stage's input only takes it out of what the stage retains. */
  lemma RetainWithout(c: Comparator, options: seq<ResponseOption>, x: ResponseOption)
    requires |options| > 0 && Predicted(options)
    requires c != OptionId && x in options ==> MatchedBy(x, c, options)
    requires c == OptionId ==> FirstById(options) != x
    ensures |Without(x, options)| > 0 && Predicted(Without(x, options))
    ensures Retain(c, Without(x, options)) == Without(x, Retain(c, options))
  {
    FilterMembers(Other(x), options);
    if c == OptionId {
      FirstWithout(options, x);
      WithoutSingle(FirstById(options), x);
    } else {
      NumericRetainWithout(c, options, x);
    }
  }

  lemma LastStageChooses(k: nat, options: seq<ResponseOption>, winner: ResponseOption)
    requires k < |COMPARATORS| && Wins(winner, options) && COMPARATORS[k] == OptionId
    ensures FirstById(StageInput(k, options)) == winner
  {
    assert winner in StageInput(k + 1, options);
  }

  lemma NextStageWithout(j: nat, options: seq<ResponseOption>, x: ResponseOption, winner: ResponseOption)
    requires j < |COMPARATORS| && Wins(winner, options) && x != winner && NeverUniqueMinimum(x, options)
    ensures |Without(x, StageInput(j, options))| > 0 && Predicted(Without(x, StageInput(j, options)))
    ensures Retain(COMPARATORS[j], Without(x, StageInput(j, options))) == Without(x, StageInput(j + 1, options))
  {
    if COMPARATORS[j] == OptionId { LastStageChooses(j, options, winner); }
    RetainWithout(COMPARATORS[j], StageInput(j, options), x);
  }

  lemma {:induction false} StagesWithout(k: nat, options: seq<ResponseOption>, x: ResponseOption,
                                         winner: ResponseOption)
    requires k <= |COMPARATORS| && Wins(winner, options) && x != winner
    requires NeverUniqueMinimum(x, options)
    requires |Without(x, options)| > 0 && Predicted(Without(x, options))
    ensures StageInput(k, Without(x, options)) == Without(x, StageInput(k, options))
  {
    hide Wins, NeverUniqueMinimum, Retain, Filter;
    if k > 0 {
      var j: nat := k - 1;
      StagesWithout(j, options, x, winner);
      NextStageWithout(j, options, x, winner);
    }
  }

  lemma SameWinnerWithout(options: seq<ResponseOption>, x: ResponseOption, winner: ResponseOption)
    requires Wins(winner, options) && x != winner && NeverUniqueMinimum(x, options)
    ensures |Without(x, options)| > 0 && Predicted(Without(x, options))
    ensures Survivors(0, Without(x, options)) == [winner]
  {
    FilterMembers(Other(x), options);
    assert winner in StageInput(0, options);
    assert winner in Without(x, options);
    var last: nat := |COMPARATORS|;
    StagesWithout(last, options, x, winner);
    StagesCompose(last, Without(x, options), 0);
    WithoutSingle(winner, x);
  }

  lemma EligibleWithout(options: seq<ResponseOption>, x: ResponseOption)
    requires DistinctOptionIds(options)
    ensures EligibleInOrder(Without(x, options)) == Without(x, EligibleInOrder(options))
  {
    StrLeOrder();
    FiltersCommute(Eligible, Other(x), options);
    var all, rest := Filter(Eligible, options), Filter(Eligible, Without(x, options));
    SortBySorts(IdLe, all);
    SortBySorts(IdLe, rest);
    FilterPermutation(Other(x), all, SortBy(IdLe, all));
    FilterKeepsSorted(IdLe, Other(x), SortBy(IdLe, all));
    FilterMembers(Eligible, options);
    FilterMembers(Other(x), all);
    forall a, b | a in SortBy(IdLe, rest) && b in SortBy(IdLe, rest) && IdLe(a, b) && IdLe(b, a) ensures a == b {
      StrLeAntisymmetric(a.id, b.id);
      SameIdSameOption(options, a, b);
    }
    SortedUnique(IdLe, SortBy(IdLe, rest), Without(x, SortBy(IdLe, all)));
  }

  /** Removing an eligible option that is not recommended, and that never alone sets a stage's
      standard, leaves the recommendation as it was. */
  lemma IrrelevantAlternative(options: seq<ResponseOption>, x: ResponseOption)
    requires DistinctOptionIds(options) && x in options && Eligible(x)
    requires RankingOf(options).recommended != Some(x.id)
    requires NeverUniqueMinimum(x, EligibleInOrder(options))
    ensures RankingOf(Without(x, options)).recommended == RankingOf(options).recommended
  {
    EligibleArePredicted(options);
    var winner := RecommendationIsEligible(options);
    WinnerSurvives(options, winner.value);
    EligibleWithout(options, x);
    SameWinnerWithout(EligibleInOrder(options), x, winner.value);
  }
}
