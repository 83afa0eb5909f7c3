/** The order in which a case's inputs arrive leaves no trace in its analysis material. */
module AnalysisMaterialLaws {
  import opened Basics
  import opened Ordering
  import opened Supply
  import opened Exposure
  import opened ResponseOptions
  import opened Ranking
  import opened RankingLaws
  import opened AnalysisMaterial

  // --- Canonical order ---------------------------------------------------------------------------

  ghost predicate Permuted<T>(xs: seq<T>, ys: seq<T>) { multiset(xs) == multiset(ys) }

  lemma PermutedMembers<T>(xs: seq<T>, ys: seq<T>)
    requires Permuted(xs, ys)
    ensures |xs| == |ys| && forall x :: x in xs <==> x in ys
  {
    SameMembers(xs, ys);
  }

  /** No two different elements share an id. */
  ghost predicate Identified<T>(key: T -> string, xs: seq<T>) {
    forall a, b | a in xs && b in xs && key(a) == key(b) :: a == b
  }

  lemma UniqueIdsIdentify<T>(key: T -> string, xs: seq<T>)
    requires !RepeatsId(key, xs)
    ensures Identified(key, xs)
  {
    MapIndex(key, xs);
    forall a, b | a in xs && b in xs && key(a) == key(b) ensures a == b {
      var i :| 0 <= i < |xs| && xs[i] == a;
      var j :| 0 <= j < |xs| && xs[j] == b;
      assert Map(key, xs)[i] == Map(key, xs)[j];
    }
  }

  lemma RepetitionForgetsOrder<T>(key: T -> string, xs: seq<T>, ys: seq<T>)
    requires Permuted(xs, ys)
    ensures RepeatsId(key, xs) <==> RepeatsId(key, ys)
  {
    MapPermutation(key, xs, ys);
    if RepeatsId(key, xs) { RepetitionCounts(Map(key, xs), Map(key, ys)); }
    if RepeatsId(key, ys) { RepetitionCounts(Map(key, ys), Map(key, xs)); }
  }

  lemma RepetitionCounts(ids: seq<string>, others: seq<string>)
    requires multiset(ids) == multiset(others) && HasDuplicates(ids)
    ensures HasDuplicates(others)
  {
    var i, j :| 0 <= i < j < |ids| && ids[i] == ids[j];
    TwiceCounts(ids, i, j);
    if !HasDuplicates(others) {
      assert Distinct(others);
      DistinctCounts(others, ids[i]);
    }
  }

  lemma IdOrder<T(!new)>(key: T -> string)
    ensures TotalPreorder(ById(key))
  {
    StrLeOrder();
  }

  lemma SortedByIdForgetsOrder<T(!new)>(key: T -> string, xs: seq<T>, ys: seq<T>)
    requires Permuted(xs, ys) && Identified(key, xs)
    ensures SortedById(key, xs) == SortedById(key, ys)
  {
    IdOrder(key);
    StrLeOrder();
    SortByForgetsOrder(ById(key), xs, ys);
  }

  lemma SortedSetForgetsOrder(xs: seq<string>, ys: seq<string>)
    requires forall x :: x in xs <==> x in ys
    ensures SortedSet(xs) == SortedSet(ys)
  {
    DedupeKeeps(xs);
    DedupeKeeps(ys);
    var a, b := Dedupe(xs), Dedupe(ys);
    forall x ensures multiset(a)[x] == multiset(b)[x] {
      DistinctCounts(a, x);
      DistinctCounts(b, x);
      assert x in multiset(a) <==> x in a;
      assert x in multiset(b) <==> x in b;
    }
    StrLeOrder();
    SortByForgetsOrder(StrLe, a, b);
  }

  // --- The snapshot ------------------------------------------------------------------------------------

  /** The same snapshot with its collections listed in another order. */
  ghost predicate Reordered(s: Snapshot, t: Snapshot) {
    && t == s.(positions := t.positions, orders := t.orders, customers := t.customers)
    && Permuted(s.positions, t.positions) && Permuted(s.orders, t.orders) && Permuted(s.customers, t.customers)
  }

  lemma {:induction false} StockForgetsOrder(xs: seq<InventoryPosition>, ys: seq<InventoryPosition>, part: string,
                                             plant: string)
    requires Permuted(xs, ys)
    ensures StockAt(xs, part, plant) == StockAt(ys, part, plant)
  {
    if |xs| == 0 {
      assert |multiset(ys)| == 0;
    } else {
      var i := TakeOut(xs, ys);
      StockForgetsOrder(xs[1..], ys[..i] + ys[i + 1..], part, plant);
      StockSplits(ys[..i], [ys[i]] + ys[i + 1..], part, plant);
      StockSplits([ys[i]], ys[i + 1..], part, plant);
      StockSplits(ys[..i], ys[i + 1..], part, plant);
    }
  }

  lemma ScheduleForgetsOrder(xs: seq<ProductionOrder>, ys: seq<ProductionOrder>, byPriority: bool)
    requires Permuted(xs, ys) && Identified(OrderId, xs)
    ensures Scheduled(xs, byPriority) == Scheduled(ys, byPriority)
    ensures PrioritiesComparable(xs) == PrioritiesComparable(ys)
  {
    hide DueLe, PriorityLe, SortBy;
    OrderKeysAreOrders();
    PermutedMembers(xs, ys);
    assert forall a, b | a in xs && b in xs && a.id == b.id :: OrderId(a) == OrderId(b);
    SortByForgetsOrder(if byPriority then PriorityLe else DueLe, xs, ys);
  }

  lemma OutcomesForgetOrder(s: Snapshot, t: Snapshot, c: Choice)
    requires Reordered(s, t) && Identified(OrderId, s.orders)
    ensures OptionOutcome(s, c) == OptionOutcome(t, c)
  {
    hide Scheduled, StockAt, ServedOutcome, PrioritiesComparable, Identified;
    ScheduleForgetsOrder(s.orders, t.orders, true);
    ScheduleForgetsOrder(s.orders, t.orders, false);
    StockForgetsOrder(s.positions, t.positions, s.disruptedPart, s.disruptedPlant);
  }

  lemma AvailabilityForgetsOrder(s: Snapshot, t: Snapshot)
    requires Reordered(s, t) && Identified(OrderId, s.orders)
    ensures TransferAvailable(s) == TransferAvailable(t) && ResequenceAvailable(s) == ResequenceAvailable(t)
  {
    ScheduleForgetsOrder(s.orders, t.orders, true);
    ScheduleForgetsOrder(s.orders, t.orders, false);
    StockForgetsOrder(s.positions, t.positions, s.transfer.partId, s.transfer.source);
  }

  lemma IdsForgetOrder<T>(key: T -> string, keep: T -> bool, xs: seq<T>, ys: seq<T>)
    requires Permuted(xs, ys)
    ensures forall id :: id in Map(key, Filter(keep, xs)) <==> id in Map(key, Filter(keep, ys))
  {
    FilterPermutation(keep, xs, ys);
    MapPermutation(key, Filter(keep, xs), Filter(keep, ys));
    PermutedMembers(Map(key, Filter(keep, xs)), Map(key, Filter(keep, ys)));
  }

  lemma LineageForgetsOrder(s: Snapshot, t: Snapshot, alpha: bool, transfer: bool, beta: bool)
    requires Reordered(s, t)
    ensures forall x :: x in Lineage(s, alpha, transfer, beta) <==> x in Lineage(t, alpha, transfer, beta)
  {
    IdsForgetOrder(PositionId, HeldAt(s.disruptedPart, s.disruptedPlant), s.positions, t.positions);
    IdsForgetOrder(PositionId, HeldAt(s.transfer.partId, s.transfer.source), s.positions, t.positions);
    MapPermutation(OrderId, s.orders, t.orders);
    PermutedMembers(Map(OrderId, s.orders), Map(OrderId, t.orders));
  }

  // --- Options that differ in the order of their lineage only --------------------------------------------

  ghost predicate AlikeOption(a: ResponseOption, b: ResponseOption) {
    && b == a.(sourceDataLineage := b.sourceDataLineage)
    && forall x :: x in a.sourceDataLineage <==> x in b.sourceDataLineage
  }

  ghost predicate Alike(xs: seq<ResponseOption>, ys: seq<ResponseOption>) {
    |xs| == |ys| && forall i | 0 <= i < |xs| :: AlikeOption(xs[i], ys[i])
  }

  lemma ListsAreAlike(s: Snapshot, t: Snapshot, none: PredictedOutcome, expedite: PredictedOutcome,
                      transfer: PredictedOutcome, resequence: PredictedOutcome, combined: PredictedOutcome)
    requires Reordered(s, t) && Identified(OrderId, s.orders)
    ensures Alike(OptionList(s, none, expedite, transfer, resequence, combined),
                  OptionList(t, none, expedite, transfer, resequence, combined))
  {
    hide OptionFor, AlikeOption, Identified, Reordered;
    OptionIsAlike(s, t, NoMitigation, none);
    OptionIsAlike(s, t, Expedite, expedite);
    OptionIsAlike(s, t, Transfer, transfer);
    OptionIsAlike(s, t, Resequence, resequence);
    OptionIsAlike(s, t, AlternateSource, none);
    OptionIsAlike(s, t, Combined, combined);
  }

  lemma NeedsForgetOrder(s: Snapshot, t: Snapshot)
    requires Reordered(s, t)
    ensures AlphaNeeds(s) == AlphaNeeds(t) && TransferNeeds(s) == TransferNeeds(t) && BetaNeeds(s) == BetaNeeds(t)
  {
    hide Permuted;
  }

  lemma OptionIsAlike(s: Snapshot, t: Snapshot, kind: Choice, outcome: PredictedOutcome)
    requires Reordered(s, t) && Identified(OrderId, s.orders)
    ensures AlikeOption(OptionFor(s, kind, outcome), OptionFor(t, kind, outcome))
  {
    hide TransferAvailable, ResequenceAvailable, Lineage, Identified, Burden, Roles, Risk, Permuted, AlikeOption,
      OptionIdFor, NoShipment, NoTransfer, NoReorder, NotQualified, AlphaNeeds, TransferNeeds, BetaNeeds;
    AvailabilityForgetsOrder(s, t);
    NeedsForgetOrder(s, t);
    var alpha, transfer := kind == Expedite || kind == Combined, kind == Transfer || kind == Combined;
    RelinedIsAlike(s, t, OptionFor(s, kind, outcome), OptionFor(t, kind, outcome), alpha, transfer,
                   kind == AlternateSource);
  }

  lemma RelinedIsAlike(s: Snapshot, t: Snapshot, x: ResponseOption, y: ResponseOption,
                       alpha: bool, transfer: bool, beta: bool)
    requires Reordered(s, t)
    requires x.sourceDataLineage == Lineage(s, alpha, transfer, beta)
    requires y == x.(sourceDataLineage := Lineage(t, alpha, transfer, beta))
    ensures AlikeOption(x, y)
  {
    LineageForgetsOrder(s, t, alpha, transfer, beta);
  }

  lemma OptionsForgetOrder(s: Snapshot, t: Snapshot)
    requires Reordered(s, t) && Identified(OrderId, s.orders)
    ensures ResponseOptionsOf(s).Err? ==> ResponseOptionsOf(t) == ResponseOptionsOf(s)
    ensures ResponseOptionsOf(s).Ok? ==>
      ResponseOptionsOf(t).Ok? && Alike(ResponseOptionsOf(s).value, ResponseOptionsOf(t).value)
  {
    hide OptionOutcome, OptionList, Identified, Permuted, Alike;
    OutcomesForgetOrder(s, t, NoMitigation);
    OutcomesForgetOrder(s, t, Expedite);
    OutcomesForgetOrder(s, t, Transfer);
    OutcomesForgetOrder(s, t, Resequence);
    OutcomesForgetOrder(s, t, Combined);
    if ResponseOptionsOf(s).Ok? {
      ListsAreAlike(s, t, OptionOutcome(s, NoMitigation).value, OptionOutcome(s, Expedite).value,
                    OptionOutcome(s, Transfer).value,
                    OptionOutcome(s, Resequence).value, OptionOutcome(s, Combined).value);
    }
  }

  lemma {:induction false} AlikeInsert(a: ResponseOption, b: ResponseOption, xs: seq<ResponseOption>,
                                       ys: seq<ResponseOption>)
    requires AlikeOption(a, b) && Alike(xs, ys)
    ensures Alike(Insert(IdLe, a, xs), Insert(IdLe, b, ys))
  {
    if |xs| > 0 && !IdLe(a, xs[0]) {
      assert Alike(xs[1..], ys[1..]);
      AlikeInsert(a, b, xs[1..], ys[1..]);
    }
  }

  lemma {:induction false} AlikeSorted(xs: seq<ResponseOption>, ys: seq<ResponseOption>)
    requires Alike(xs, ys)
    ensures Alike(SortBy(IdLe, xs), SortBy(IdLe, ys))
  {
    if |xs| > 0 {
      assert Alike(xs[1..], ys[1..]);
      AlikeSorted(xs[1..], ys[1..]);
      AlikeInsert(xs[0], ys[0], SortBy(IdLe, xs[1..]), SortBy(IdLe, ys[1..]));
    }
  }

  /** A change that neither reads nor writes the lineage. */
  ghost predicate LineageBlind(f: ResponseOption -> ResponseOption) {
    forall o: ResponseOption, lineage: seq<string> ::
      f(Relined(o, lineage)) == Relined(f(o), lineage) && f(Relined(o, lineage)).sourceDataLineage == lineage
  }

  function Relined(o: ResponseOption, lineage: seq<string>): ResponseOption { o.(sourceDataLineage := lineage) }

  lemma AlikeMapped(f: ResponseOption -> ResponseOption, xs: seq<ResponseOption>, ys: seq<ResponseOption>)
    requires LineageBlind(f) && Alike(xs, ys)
    ensures Alike(Map(f, xs), Map(f, ys))
  {
    MapIndex(f, xs);
    MapIndex(f, ys);
    forall i | 0 <= i < |xs| ensures AlikeOption(Map(f, xs)[i], Map(f, ys)[i]) {
      assert ys[i] == Relined(xs[i], ys[i].sourceDataLineage) && xs[i] == Relined(xs[i], xs[i].sourceDataLineage);
    }
  }

  lemma {:induction false} AlikeFiltered(p: ResponseOption -> bool, xs: seq<ResponseOption>, ys: seq<ResponseOption>)
    requires Alike(xs, ys) && forall i | 0 <= i < |xs| :: p(xs[i]) == p(ys[i])
    ensures Alike(Filter(p, xs), Filter(p, ys))
  {
    if |xs| > 0 {
      var xt, yt := xs[1..], ys[1..];
      assert forall i | 0 <= i < |xt| :: xt[i] == xs[i + 1] && yt[i] == ys[i + 1];
      AlikeFiltered(p, xt, yt);
    }
  }

  lemma {:induction false} AlikeIds(xs: seq<ResponseOption>, ys: seq<ResponseOption>)
    requires Alike(xs, ys)
    ensures Ids(xs) == Ids(ys)
  {
    if |xs| > 0 {
      assert Alike(xs[1..], ys[1..]);
      AlikeIds(xs[1..], ys[1..]);
    }
  }

  // --- The ranking does not see the lineage ----------------------------------------------------------------

  lemma {:induction false} AlikeBest(c: Comparator, xs: seq<ResponseOption>, ys: seq<ResponseOption>)
    requires c != OptionId && Alike(xs, ys) && |xs| > 0 && Predicted(xs) && Predicted(ys)
    ensures Best(c, xs) == Best(c, ys)
  {
    assert xs[0] in xs && ys[0] in ys && AlikeOption(xs[0], ys[0]);
    if |xs| > 1 {
      assert Alike(xs[1..], ys[1..]);
      AlikeBest(c, xs[1..], ys[1..]);
    }
  }

  lemma {:induction false} AlikeFirst(xs: seq<ResponseOption>, ys: seq<ResponseOption>)
    requires Alike(xs, ys) && |xs| > 0
    ensures AlikeOption(FirstById(xs), FirstById(ys))
  {
    if |xs| > 1 {
      assert Alike(xs[1..], ys[1..]);
      AlikeFirst(xs[1..], ys[1..]);
    }
  }

  lemma AlikeRetained(c: Comparator, xs: seq<ResponseOption>, ys: seq<ResponseOption>)
    requires Alike(xs, ys) && |xs| > 0 && Predicted(xs) && Predicted(ys)
    ensures Alike(Retain(c, xs), Retain(c, ys))
  {
    if c == OptionId {
      AlikeFirst(xs, ys);
    } else {
      AlikeBest(c, xs, ys);
      var keep := WithinOf(c, Best(c, xs) + Threshold(c));
      forall i | 0 <= i < |xs| ensures keep(xs[i]) == keep(ys[i]) { assert AlikeOption(xs[i], ys[i]); }
      AlikeFiltered(keep, xs, ys);
    }
  }

  lemma {:induction false} AlikeValues(c: Comparator, xs: seq<ResponseOption>, ys: seq<ResponseOption>)
    requires Alike(xs, ys) && Predicted(xs) && Predicted(ys)
    ensures StageValues(c, xs) == StageValues(c, ys)
  {
    if |xs| > 0 {
      assert xs[0] in xs && ys[0] in ys && AlikeOption(xs[0], ys[0]);
      assert Alike(xs[1..], ys[1..]);
      AlikeValues(c, xs[1..], ys[1..]);
    }
  }

  lemma AlikeStage(c: Comparator, xs: seq<ResponseOption>, ys: seq<ResponseOption>)
    requires Alike(xs, ys) && |xs| > 0 && Predicted(xs) && Predicted(ys)
    ensures StageOf(c, xs) == StageOf(c, ys)
  {
    AlikeValues(c, xs, ys);
    AlikeRetained(c, xs, ys);
    AlikeIds(xs, ys);
    AlikeIds(Retain(c, xs), Retain(c, ys));
  }

  lemma {:induction false} AlikeStages(k: nat, xs: seq<ResponseOption>, ys: seq<ResponseOption>)
    requires k <= |COMPARATORS| && Alike(xs, ys) && |xs| > 0 && Predicted(xs) && Predicted(ys)
    ensures Stages(k, xs) == Stages(k, ys) && Alike(Survivors(k, xs), Survivors(k, ys))
    decreases |COMPARATORS| - k
  {
    if k < |COMPARATORS| {
      var c := COMPARATORS[k];
      AlikeStage(c, xs, ys);
      AlikeRetained(c, xs, ys);
      RetainKeeps(c, xs);
      RetainKeeps(c, ys);
      AlikeStages(k + 1, Retain(c, xs), Retain(c, ys));
    }
  }

  lemma AlikeEligible(xs: seq<ResponseOption>, ys: seq<ResponseOption>)
    requires Alike(xs, ys)
    ensures Alike(EligibleInOrder(xs), EligibleInOrder(ys))
    ensures Ids(Filter(Infeasible, xs)) == Ids(Filter(Infeasible, ys))
      && Ids(Filter(NotActive, xs)) == Ids(Filter(NotActive, ys))
  {
    forall i | 0 <= i < |xs|
      ensures Eligible(xs[i]) == Eligible(ys[i]) && Infeasible(xs[i]) == Infeasible(ys[i])
        && NotActive(xs[i]) == NotActive(ys[i])
    {
      assert AlikeOption(xs[i], ys[i]);
    }
    AlikeFiltered(Eligible, xs, ys);
    AlikeFiltered(Infeasible, xs, ys);
    AlikeFiltered(NotActive, xs, ys);
    AlikeIds(Filter(Infeasible, xs), Filter(Infeasible, ys));
    AlikeIds(Filter(NotActive, xs), Filter(NotActive, ys));
    AlikeSorted(Filter(Eligible, xs), Filter(Eligible, ys));
  }

  lemma AlikeRanking(xs: seq<ResponseOption>, ys: seq<ResponseOption>)
    requires Alike(xs, ys)
    ensures RankingOf(xs) == RankingOf(ys)
  {
    hide EligibleInOrder, Stages, Survivors, Infeasible, NotActive;
    AlikeEligible(xs, ys);
    var ex, ey := EligibleInOrder(xs), EligibleInOrder(ys);
    EligibleArePredicted(xs);
    EligibleArePredicted(ys);
    AlikeIds(ex, ey);
    if |ex| > 0 {
      AlikeStages(0, ex, ey);
      OneSurvivor(0, ex);
      OneSurvivor(0, ey);
      assert AlikeOption(Survivors(0, ex)[0], Survivors(0, ey)[0]);
    }
  }

  // --- Evidence, approvals and the recorded options -----------------------------------------------------------

  lemma EvidenceIsBlind(v: EvidenceValidation)
    ensures LineageBlind(WithEvidence(v))
  {
  }

  lemma QualityIsBlind(satisfied: seq<Satisfaction>)
    ensures LineageBlind(WithQuality(satisfied))
  {
  }

  lemma {:induction false} AlikeSatisfiedBy(applies: Authorization -> bool, auths: seq<Authorization>,
                                            a: ResponseOption, b: ResponseOption, role: string)
    requires AlikeOption(a, b)
    ensures SatisfiedBy(applies, auths, a, role) == SatisfiedBy(applies, auths, b, role)
  {
    if |auths| > 0 { AlikeSatisfiedBy(applies, auths[1..], a, b, role); }
  }

  lemma {:induction false} AlikeSatisfiedRoles(applies: Authorization -> bool, auths: seq<Authorization>,
                                               a: ResponseOption, b: ResponseOption, roles: seq<string>)
    requires AlikeOption(a, b)
    ensures SatisfiedRoles(applies, auths, a, roles) == SatisfiedRoles(applies, auths, b, roles)
  {
    if |roles| > 0 {
      AlikeSatisfiedBy(applies, auths, a, b, roles[0]);
      AlikeSatisfiedRoles(applies, auths, a, b, roles[1..]);
    }
  }

  lemma {:induction false} AlikeSatisfactions(applies: Authorization -> bool, auths: seq<Authorization>,
                                              xs: seq<ResponseOption>, ys: seq<ResponseOption>)
    requires Alike(xs, ys)
    ensures Satisfactions(applies, auths, xs) == Satisfactions(applies, auths, ys)
  {
    if |xs| > 0 {
      assert AlikeOption(xs[0], ys[0]) && Alike(xs[1..], ys[1..]);
      AlikeSatisfiedRoles(applies, auths, xs[0], ys[0], SortedSet(Filter(NotFinal(), xs[0].prerequisiteRoles)));
      AlikeSatisfactions(applies, auths, xs[1..], ys[1..]);
    }
  }

  lemma {:induction false} AlikeMaterials(xs: seq<ResponseOption>, ys: seq<ResponseOption>)
    requires Alike(xs, ys)
    ensures Map(OptionMaterial, xs) == Map(OptionMaterial, ys)
  {
    if |xs| > 0 {
      assert AlikeOption(xs[0], ys[0]) && Alike(xs[1..], ys[1..]);
      AlikeMaterials(xs[1..], ys[1..]);
      SortedSetForgetsOrder(xs[0].sourceDataLineage, ys[0].sourceDataLineage);
    }
  }

  // --- The whole material ---------------------------------------------------------------------------------------

  /** The same command with every collection listed in another order. */
  ghost predicate Shuffled(c: Command, d: Command) {
    && d == c.(snapshot := d.snapshot, evidence := d.evidence, conflicts := d.conflicts, resolutions := d.resolutions,
               authorizations := d.authorizations, requiredScope := d.requiredScope)
    && Reordered(c.snapshot, d.snapshot) && Permuted(c.evidence, d.evidence) && Permuted(c.conflicts, d.conflicts)
    && Permuted(c.resolutions, d.resolutions) && Permuted(c.authorizations, d.authorizations)
    && Permuted(c.requiredScope, d.requiredScope)
  }

  lemma CitationsForgetOrder(xs: seq<EvidenceItem>, ys: seq<EvidenceItem>, x: Conflict)
    requires Permuted(xs, ys)
    ensures CitesOutside(x, xs) == CitesOutside(x, ys)
  {
    MapPermutation(EvidenceId, xs, ys);
    PermutedMembers(Map(EvidenceId, xs), Map(EvidenceId, ys));
  }

  lemma RefusalForgetsOrder(c: Command, d: Command, xs: seq<ResponseOption>, ys: seq<ResponseOption>)
    requires Shuffled(c, d) && Alike(xs, ys)
    ensures Refused(c, xs) == Refused(d, ys)
  {
    hide CitesOutside, ForeignItem, Alike, Permuted, Map, HasDuplicates;
    RepetitionForgetsOrder(EvidenceId, c.evidence, d.evidence);
    RepetitionForgetsOrder(ConflictId, c.conflicts, d.conflicts);
    RepetitionForgetsOrder(ResolutionId, c.resolutions, d.resolutions);
    RepetitionForgetsOrder(AuthorizationId, c.authorizations, d.authorizations);
    AlikeIds(xs, ys);
    PermutedMembers(c.evidence, d.evidence);
    PermutedMembers(c.conflicts, d.conflicts);
    forall x: Conflict ensures CitesOutside(x, c.evidence) == CitesOutside(x, d.evidence) {
      CitationsForgetOrder(c.evidence, d.evidence, x);
    }
  }

  lemma SnapshotForgetsOrder(s: Snapshot, t: Snapshot)
    requires Reordered(s, t)
    ensures SnapshotRepeats(s) == SnapshotRepeats(t)
    ensures !SnapshotRepeats(s) ==> CanonicalSnapshot(s) == CanonicalSnapshot(t) && Identified(OrderId, s.orders)
  {
    RepetitionForgetsOrder(PositionId, s.positions, t.positions);
    RepetitionForgetsOrder(OrderId, s.orders, t.orders);
    RepetitionForgetsOrder(LineId, s.customers, t.customers);
    if !SnapshotRepeats(s) {
      UniqueIdsIdentify(PositionId, s.positions);
      UniqueIdsIdentify(OrderId, s.orders);
      UniqueIdsIdentify(LineId, s.customers);
      SortedByIdForgetsOrder(PositionId, s.positions, t.positions);
      SortedByIdForgetsOrder(OrderId, s.orders, t.orders);
      SortedByIdForgetsOrder(LineId, s.customers, t.customers);
    }
  }

  lemma StandingForgetsOrder(c: Case, xs: seq<Authorization>, ys: seq<Authorization>)
    requires Permuted(xs, ys) && Identified(AuthorizationId, xs)
    ensures SortedById(AuthorizationId, StandingFor(c, xs)) == SortedById(AuthorizationId, StandingFor(c, ys))
  {
    FilterPermutation(NotFinance(), xs, ys);
    FilterMembers(NotFinance(), xs);
    SortedByIdForgetsOrder(AuthorizationId, StandingFor(c, xs), StandingFor(c, ys));
  }

  /** The canonical inputs of the evaluators are the same. */
  lemma InputsForgetOrder(c: Command, d: Command, options: seq<ResponseOption>)
    requires Shuffled(c, d) && Refused(c, options).None?
    ensures SortedById(EvidenceId, c.evidence) == SortedById(EvidenceId, d.evidence)
    ensures SortedById(ConflictId, c.conflicts) == SortedById(ConflictId, d.conflicts)
    ensures SortedById(ResolutionId, c.resolutions) == SortedById(ResolutionId, d.resolutions)
    ensures SortedById(AuthorizationId, StandingFor(c.case', c.authorizations)) ==
      SortedById(AuthorizationId, StandingFor(d.case', d.authorizations))
    ensures SortedSet(c.requiredScope) == SortedSet(d.requiredScope)
  {
    UniqueIdsIdentify(EvidenceId, c.evidence);
    UniqueIdsIdentify(ConflictId, c.conflicts);
    UniqueIdsIdentify(ResolutionId, c.resolutions);
    UniqueIdsIdentify(AuthorizationId, c.authorizations);
    SortedByIdForgetsOrder(EvidenceId, c.evidence, d.evidence);
    SortedByIdForgetsOrder(ConflictId, c.conflicts, d.conflicts);
    SortedByIdForgetsOrder(ResolutionId, c.resolutions, d.resolutions);
    StandingForgetsOrder(c.case', c.authorizations, d.authorizations);
    PermutedMembers(c.requiredScope, d.requiredScope);
    SortedSetForgetsOrder(c.requiredScope, d.requiredScope);
  }

  lemma AlikeEvidenced(v: EvidenceValidation, xs: seq<ResponseOption>, ys: seq<ResponseOption>)
    requires Alike(xs, ys)
    ensures Alike(EvidencedOptions(v, xs), EvidencedOptions(v, ys))
  {
    hide WithEvidence, Alike, LineageBlind;
    AlikeSorted(xs, ys);
    EvidenceIsBlind(v);
    AlikeMapped(WithEvidence(v), SortBy(IdLe, xs), SortBy(IdLe, ys));
  }

  lemma MaterialForgetsOrder(eval: Evaluators, c: Command, d: Command, xs: seq<ResponseOption>, ys: seq<ResponseOption>)
    requires Shuffled(c, d) && Alike(xs, ys) && Refused(c, xs).None? && !SnapshotRepeats(c.snapshot)
    ensures MaterialOf(eval, c, xs) == MaterialOf(eval, d, ys)
  {
    hide SortedById, SortedSet, StandingFor, EvidencedOptions, Satisfactions, WithQuality, Refused, RankingOf,
      SnapshotRepeats,
      EvidenceMaterials, Alike, OptionMaterial, Reordered, Permuted, CanonicalSnapshot;
    InputsForgetOrder(c, d, xs);
    SnapshotForgetsOrder(c.snapshot, d.snapshot);
    var evidence, conflicts := SortedById(EvidenceId, c.evidence), SortedById(ConflictId, c.conflicts);
    var resolutions := SortedById(ResolutionId, c.resolutions);
    var auths := SortedById(AuthorizationId, StandingFor(c.case', c.authorizations));
    var validation := eval.validate(evidence, SortedSet(c.requiredScope), conflicts, resolutions);
    AlikeEvidenced(validation, xs, ys);
    var ex, ey := EvidencedOptions(validation, xs), EvidencedOptions(validation, ys);
    AlikeSatisfactions(eval.applies, auths, ex, ey);
    var satisfied := Satisfactions(eval.applies, auths, ex);
    QualityIsBlind(satisfied);
    AlikeMapped(WithQuality(satisfied), ex, ey);
    AlikeIds(Map(WithQuality(satisfied), ex), Map(WithQuality(satisfied), ey));
    AlikeMaterials(Map(WithQuality(satisfied), ex), Map(WithQuality(satisfied), ey));
    AlikeRanking(Map(WithQuality(satisfied), ex), Map(WithQuality(satisfied), ey));
  }

  /** Listing the evidence, conflicts, resolutions, authorizations, required scopes and the snapshot's
      positions, orders and customers in any other order leaves the whole material identical, with its
      predicted outcomes and its ranking, and so whatever is hashed from it. */
  lemma AnalysisForgetsOrder(eval: Evaluators, c: Command, d: Command)
    requires Shuffled(c, d) && !SnapshotRepeats(c.snapshot)
    ensures AnalysisOf(eval, c) == AnalysisOf(eval, d)
  {
    hide SnapshotRepeats, ResponseOptionsOf, Refused, MaterialOf, Alike, Permuted;
    SnapshotForgetsOrder(c.snapshot, d.snapshot);
    OptionsForgetOrder(c.snapshot, d.snapshot);
    if ResponseOptionsOf(c.snapshot).Ok? {
      var xs, ys := ResponseOptionsOf(c.snapshot).value, ResponseOptionsOf(d.snapshot).value;
      RefusalForgetsOrder(c, d, xs, ys);
      if Refused(c, xs).None? { MaterialForgetsOrder(eval, c, d, xs, ys); }
    }
  }

  // --- What the recorded options rest on ---------------------------------------------------------------------------

  /** The evidence for a requirement is there, unblocked, undisputed, authoritative, and of the required scope. */
  predicate Met(v: EvidenceValidation, need: EvidenceRequirement) {
    var item := ValidationFor(v.items, need.evidenceId);
    && item.Some? && item.value.codes == [] && !item.value.conflicted && item.value.authoritative
    && need.authorityScope <= item.value.scope
  }

  lemma {:induction false} CodesOfAll(v: EvidenceValidation, needs: seq<EvidenceRequirement>)
    ensures CodesForAll(v, needs) == [] <==> forall need | need in needs :: Met(v, need)
    ensures forall code :: code in CodesForAll(v, needs) <==> exists need :: need in needs && code in CodesFor(v, need)
  {
    if |needs| > 0 {
      var front, last := needs[..|needs| - 1], needs[|needs| - 1];
      assert needs == front + [last];
      CodesOfAll(v, front);
      assert CodesFor(v, last) == [] <==> Met(v, last);
    }
  }

  /** After the evidence an option is executable exactly when it was, nothing blocked it, nothing blocks mitigations
      as a whole, and the evidence for each of its requirements is met; it carries each reason against it once. */
  lemma EvidenceDecides(v: EvidenceValidation, o: ResponseOption)
    ensures var a := WithEvidence(v)(o);
      && a == o.(executable := a.executable, blockingCodes := a.blockingCodes)
      && (a.executable <==>
            && o.executable && o.blockingCodes == [] && (o.activeMitigation ==> v.globalCodes == [])
            && forall need | need in o.evidenceRequirements :: Met(v, need))
      && Distinct(a.blockingCodes)
      && forall code :: code in a.blockingCodes <==>
           || code in o.blockingCodes || (o.activeMitigation && code in v.globalCodes)
           || exists need :: need in o.evidenceRequirements && code in CodesFor(v, need)
  {
    hide CodesFor, Met, CodesForAll, Dedupe;
    CodesOfAll(v, o.evidenceRequirements);
    var codes := (if o.activeMitigation then v.globalCodes else []) + CodesForAll(v, o.evidenceRequirements);
    DedupeKeeps(o.blockingCodes + codes);
    DedupeEmpty(o.blockingCodes + codes);
  }

  /** An approval by the quality approver is recorded for the option. */
  ghost predicate QualityApproved(satisfied: seq<Satisfaction>, optionId: string) {
    exists s :: s in satisfied && s.role == QUALITY_APPROVER && s.optionId == optionId
  }

  /** What a recorded option that may be executed rests on. */
  ghost predicate Supported(m: Material, o: ResponseOption) {
    && o.blockingCodes == [] && (o.activeMitigation ==> m.validation.globalCodes == [])
    && (forall need | need in o.evidenceRequirements :: Met(m.validation, need))
    && (QUALITY_APPROVER in o.prerequisiteRoles ==> QualityApproved(m.satisfactions, o.id))
  }

  lemma OptionMaterialKeeps(o: ResponseOption)
    ensures var x := OptionMaterial(o);
      && x.id == o.id && x.executable == o.executable && x.activeMitigation == o.activeMitigation
      && x.predicted.Some? == o.predicted.Some? && (x.blockingCodes == [] <==> o.blockingCodes == [])
      && (forall need :: need in x.evidenceRequirements <==> need in o.evidenceRequirements)
      && (forall role :: role in x.prerequisiteRoles <==> role in o.prerequisiteRoles)
  {
    SortByRearranges(ById((n: EvidenceRequirement) => n.evidenceId), o.evidenceRequirements);
    SortedSetSorts(o.prerequisiteRoles);
    SortedSetSorts(o.blockingCodes);
    var codes := SortedSet(o.blockingCodes);
    if o.blockingCodes != [] { assert o.blockingCodes[0] in codes; }
    if codes != [] { assert codes[0] in o.blockingCodes; }
  }

  lemma SupportedWhenExecutable(v: EvidenceValidation, satisfied: seq<Satisfaction>, o: ResponseOption)
    ensures var f := WithQuality(satisfied)(WithEvidence(v)(o));
      f.executable ==>
        && f.blockingCodes == [] && (f.activeMitigation ==> v.globalCodes == [])
        && (forall need | need in f.evidenceRequirements :: Met(v, need))
        && (QUALITY_APPROVER in f.prerequisiteRoles ==> QualityApproved(satisfied, f.id))
  {
    hide Met;
    EvidenceDecides(v, o);
    var e := WithEvidence(v)(o);
    assert e.executable ==> e.blockingCodes == [];
  }

  /** In every analysis, each option recorded as executable is unblocked, has its evidence met, and has the quality
      approval it needs; a recommendation is made exactly when some active mitigation is executable with a predicted
      outcome, and it is one of those. */
  lemma RecommendationsAreSupported(eval: Evaluators, c: Command)
    requires AnalysisOf(eval, c).Ok?
    ensures var m := AnalysisOf(eval, c).value;
      && (forall o | o in m.options && o.executable :: Supported(m, o))
      && (m.ranking.recommended.Some? <==> exists o :: o in m.options && Eligible(o))
      && (m.ranking.recommended.Some? ==>
            exists o :: o in m.options && Eligible(o) && o.id == m.ranking.recommended.value)
  {
    hide Refused, Supported, Eligible, EvidenceMaterials, SnapshotRepeats, ResponseOptionsOf, RankingOf, OptionMaterial,
      WithQuality, Satisfactions, WithEvidence, SortedSet, CanonicalSnapshot;
    var m := AnalysisOf(eval, c).value;
    var auths := SortedById(AuthorizationId, StandingFor(c.case', c.authorizations));
    var listed := SortBy(IdLe, ResponseOptionsOf(c.snapshot).value);
    var evidenced := Map(WithEvidence(m.validation), listed);
    var satisfied := Satisfactions(eval.applies, auths, evidenced);
    var final := Map(WithQuality(satisfied), evidenced);
    assert m.options == Map(OptionMaterial, final) && m.ranking == RankingOf(final);
    RecordedAreSupported(m, listed, satisfied);
    RecommendedIsRecorded(m, final);
  }

  lemma RecordedAreSupported(m: Material, listed: seq<ResponseOption>, satisfied: seq<Satisfaction>)
    requires m.options == Map(OptionMaterial, Map(WithQuality(satisfied), Map(WithEvidence(m.validation), listed)))
    requires m.satisfactions == SortBy(SatisfactionLe, satisfied)
    ensures forall o | o in m.options && o.executable :: Supported(m, o)
  {
    hide WithEvidence, WithQuality, OptionMaterial, Met;
    var evidenced := Map(WithEvidence(m.validation), listed);
    var final := Map(WithQuality(satisfied), evidenced);
    MapIndex(WithEvidence(m.validation), listed);
    MapIndex(WithQuality(satisfied), evidenced);
    MapIndex(OptionMaterial, final);
    SortByRearranges(SatisfactionLe, satisfied);
    forall o | o in m.options && o.executable ensures Supported(m, o) {
      var i :| 0 <= i < |m.options| && m.options[i] == o;
      assert o == OptionMaterial(final[i]) && final[i] == WithQuality(satisfied)(WithEvidence(m.validation)(listed[i]));
      OptionMaterialKeeps(final[i]);
      SupportedWhenExecutable(m.validation, satisfied, listed[i]);
    }
  }

  lemma RecommendedIsRecorded(m: Material, final: seq<ResponseOption>)
    requires m.options == Map(OptionMaterial, final) && m.ranking == RankingOf(final) && !HasDuplicates(Ids(final))
    ensures m.ranking.recommended.Some? <==> exists o :: o in m.options && Eligible(o)
    ensures m.ranking.recommended.Some? ==>
      exists o :: o in m.options && Eligible(o) && o.id == m.ranking.recommended.value
  {
    hide RankingOf, OptionMaterial;
    MapIndex(OptionMaterial, final);
    var winner := RecommendationIsEligible(final);
    forall i | 0 <= i < |final| ensures Eligible(m.options[i]) <==> Eligible(final[i])
      ensures m.options[i].id == final[i].id
    {
      OptionMaterialKeeps(final[i]);
    }
    if winner.Some? {
      var i :| 0 <= i < |final| && final[i] == winner.value;
      assert m.options[i] in m.options;
    }
  }
}
