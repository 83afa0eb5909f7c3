/** What an analysis records of its options and approvals, on the case's own inputs
    (services/analysis/service.py:142-419, services/analysis/options.py:24-45 and 129-251,
    services/policy/approvals.py). */
module AnalysisLaws {
  import opened Basics
  import opened Ordering
  import opened Supply
  import opened Exposure
  import opened ExposureLaws
  import opened ResponseOptions
  import opened Ranking
  import opened AnalysisMaterial
  import opened AnalysisMaterialLaws
  import opened OutcomeLaws
  import opened OptionLaws

  // --- The evidence ------------------------------------------------------------------------------

  /** The last entry for the id. */
  ghost predicate Validates(items: seq<ItemValidation>, id: string, item: ItemValidation) {
    exists i :: 0 <= i < |items| && items[i] == item && item.evidenceId == id
                && forall j | i < j < |items| :: items[j].evidenceId != id
  }

  lemma {:induction false} ValidationIsLast(items: seq<ItemValidation>, id: string)
    ensures ValidationFor(items, id).None? <==> forall i | 0 <= i < |items| :: items[i].evidenceId != id
    ensures forall item :: ValidationFor(items, id) == Some(item) <==> Validates(items, id, item)
  {
    if |items| > 0 {
      var front, last := items[..|items| - 1], |items| - 1;
      ValidationIsLast(front, id);
      if items[last].evidenceId == id {
        assert Validates(items, id, items[last]);
      } else {
        forall item ensures Validates(items, id, item) <==> Validates(front, id, item) {
          ValidatesFront(items, id, item);
        }
      }
    }
  }

  lemma ValidatesFront(items: seq<ItemValidation>, id: string, item: ItemValidation)
    requires |items| > 0 && items[|items| - 1].evidenceId != id
    ensures Validates(items, id, item) <==> Validates(items[..|items| - 1], id, item)
  {
    var front := items[..|items| - 1];
    if Validates(items, id, item) {
      var i :| 0 <= i < |items| && items[i] == item && item.evidenceId == id
        && forall j | i < j < |items| :: items[j].evidenceId != id;
      assert front[i] == item;
    }
    if Validates(front, id, item) {
      var i :| 0 <= i < |front| && front[i] == item && item.evidenceId == id
        && forall j | i < j < |front| :: front[j].evidenceId != id;
      assert items[i] == item;
    }
  }

  /** What the evidence holds against a requirement. */
  ghost predicate Objects(v: EvidenceValidation, need: EvidenceRequirement, code: string) {
    || (code == "REQUIRED_EVIDENCE_MISSING"
        && forall i | 0 <= i < |v.items| :: v.items[i].evidenceId != need.evidenceId)
    || exists item :: Validates(v.items, need.evidenceId, item) && Faults(item, need, code)
  }

  predicate Faults(item: ItemValidation, need: EvidenceRequirement, code: string) {
    || code in item.codes
    || (code == "EVIDENCE_CONFLICT_UNRESOLVED" && item.conflicted)
    || (code == "AUTHORITY_SCOPE_MISMATCH" && !(need.authorityScope <= item.scope))
    || (code == "REQUIRED_EVIDENCE_NOT_AUTHORITATIVE" && !item.authoritative && item.codes == [] && !item.conflicted)
  }

  function CodesOf(item: ItemValidation, need: EvidenceRequirement): seq<string> {
    CodesFor(EvidenceValidation([], [item.(evidenceId := need.evidenceId)]), need)
  }

  lemma FaultsAre(item: ItemValidation, need: EvidenceRequirement)
    ensures forall code :: code in CodesOf(item, need) <==> Faults(item, need, code)
  {
  }

  lemma CodesOfItem(v: EvidenceValidation, need: EvidenceRequirement, item: ItemValidation)
    requires ValidationFor(v.items, need.evidenceId) == Some(item)
    ensures CodesFor(v, need) == CodesOf(item, need)
  {
  }

  lemma ObjectionsAre(v: EvidenceValidation, need: EvidenceRequirement)
    ensures forall code :: code in CodesFor(v, need) <==> Objects(v, need, code)
    ensures Met(v, need) <==> forall code :: !Objects(v, need, code)
  {
    ObjectingCodes(v, need);
    hide Objects;
    assert CodesFor(v, need) == [] <==> Met(v, need);
    hide CodesFor, Met;
    if CodesFor(v, need) != [] { assert CodesFor(v, need)[0] in CodesFor(v, need); }
  }

  lemma ObjectingCodes(v: EvidenceValidation, need: EvidenceRequirement)
    ensures forall code :: code in CodesFor(v, need) <==> Objects(v, need, code)
  {
    hide Validates, ValidationFor, Faults, CodesOf;
    var found := ValidationFor(v.items, need.evidenceId);
    ValidationIsLast(v.items, need.evidenceId);
    if found.Some? {
      CodesOfItem(v, need, found.value);
      hide CodesFor;
      FaultsAre(found.value, need);
    }
  }

  // --- The approvals ------------------------------------------------------------------------------

  /** A standing authorization that applies to the case speaks for the option in this role. */
  ghost predicate Attests(applies: Authorization -> bool, a: Authorization, o: ResponseOption, role: string,
                          x: Satisfaction) {
    && a.role == role && applies(a) && (role == "quality_approver" ==> a.persona == "RL-PERSONA-JORDAN")
    && o.predicted.Some? && o.kind in a.kinds && o.predicted.value.responseCost <= a.maximumCost
    && x == Satisfaction(o.id, role, a.persona, a.id, o.predicted.value.responseCost, a.conditions)
  }

  lemma {:induction false} SatisfiedByIs(applies: Authorization -> bool, auths: seq<Authorization>, o: ResponseOption,
                                         role: string)
    ensures forall x ::
              x in SatisfiedBy(applies, auths, o, role) <==> exists a :: a in auths && Attests(applies, a, o, role, x)
  {
    RoleNames();
    hide MATERIAL_PLANNER, FINANCE_APPROVER, RESPONSE_APPROVER, QUALITY_APPROVER;
    if |auths| > 0 {
      SatisfiedByIs(applies, auths[1..], o, role);
      HeadOrTail(auths);
      assert forall x ::
               && (x in SatisfiedBy(applies, auths, o, role)
                   <==> Attests(applies, auths[0], o, role, x) || x in SatisfiedBy(applies, auths[1..], o, role));
    }
  }

  /** In some role of the option other than the final one. */
  ghost predicate Backs(applies: Authorization -> bool, auths: seq<Authorization>, o: ResponseOption, x: Satisfaction) {
    && x.role in o.prerequisiteRoles && x.role != "response_approver"
    && exists a :: a in auths && Attests(applies, a, o, x.role, x)
  }

  lemma {:induction false} SatisfiedRolesAre(applies: Authorization -> bool, auths: seq<Authorization>,
                                             o: ResponseOption,
                                             roles: seq<string>)
    ensures forall x ::
              && (x in SatisfiedRoles(applies, auths, o, roles)
                  <==> x.role in roles && exists a :: a in auths && Attests(applies, a, o, x.role, x))
  {
    if |roles| > 0 {
      SatisfiedRolesAre(applies, auths, o, roles[1..]);
      SatisfiedByIs(applies, auths, o, roles[0]);
      HeadOrTail(roles);
    }
  }

  lemma BackingIs(applies: Authorization -> bool, auths: seq<Authorization>, o: ResponseOption)
    ensures forall x ::
              Backs(applies, auths, o, x)
              <==> x in SatisfiedRoles(applies, auths, o, SortedSet(Filter(NotFinal(), o.prerequisiteRoles)))
  {
    hide Attests;
    RoleNames();
    var roles := Filter(NotFinal(), o.prerequisiteRoles);
    FilterMembers(NotFinal(), o.prerequisiteRoles);
    SortedSetSorts(roles);
    SatisfiedRolesAre(applies, auths, o, SortedSet(roles));
  }

  lemma {:induction false} SatisfactionsAre(applies: Authorization -> bool, auths: seq<Authorization>,
                                            options: seq<ResponseOption>)
    ensures forall x ::
              x in Satisfactions(applies, auths, options) <==> exists o :: o in options && Backs(applies, auths, o, x)
  {
    hide Backs, SortedSet;
    if |options| > 0 {
      SatisfactionsAre(applies, auths, options[1..]);
      BackingIs(applies, auths, options[0]);
      HeadOrTail(options);
    }
  }

  // --- One option, from the snapshot to the record ------------------------------------------------

  /** Available, with no objection to mitigations as a whole, and every piece of evidence it needs met. */
  ghost predicate Ready(s: Snapshot, v: EvidenceValidation, kind: Choice) {
    Available(s, kind) && v.globalCodes == [] && forall need | Needed(s, kind, need) :: Met(v, need)
  }

  /** Why an option may not be executed: unavailable, an objection to mitigations as a whole, or to its evidence. */
  ghost predicate Hinders(s: Snapshot, v: EvidenceValidation, kind: Choice, code: string) {
    || Blocks(s, kind, code) || (kind != NoMitigation && code in v.globalCodes)
    || exists need :: Needed(s, kind, need) && Objects(v, need, code)
  }

  lemma EvidencedOption(s: Snapshot, v: EvidenceValidation, kind: Choice, outcome: PredictedOutcome)
    requires DistinctIds(s.orders) && PrioritiesComparable(s.orders)
    ensures var o, e := OptionFor(s, kind, outcome), WithEvidence(v)(OptionFor(s, kind, outcome));
      && e == o.(executable := e.executable, blockingCodes := e.blockingCodes)
      && (e.executable <==> Ready(s, v, kind)) && (e.executable ==> e.blockingCodes == [])
      && forall code :: code in e.blockingCodes <==> Hinders(s, v, kind, code)
  {
    hide OptionFor, DistinctIds, PrioritiesComparable, Available, Blocks, Needed, Met, CodesFor, Objects, Dedupe,
      CodesForAll;
    OptionIsAvailable(s, kind, outcome);
    OptionNeedsEvidence(s, kind, outcome);
    var o := OptionFor(s, kind, outcome);
    EvidenceDecides(v, o);
    forall need ensures forall code :: code in CodesFor(v, need) <==> Objects(v, need, code) { ObjectionsAre(v, need); }
    if kind == NoMitigation { UnmitigatedIsNotAvailable(s); }
  }

  lemma UnmitigatedIsNotAvailable(s: Snapshot)
    ensures !Available(s, NoMitigation)
  {
  }

  /** How the quality approvals, if any, leave an evidenced option. */
  lemma ApprovedOption(satisfied: seq<Satisfaction>, e: ResponseOption)
    requires e.executable ==> e.blockingCodes == []
    ensures var f := WithQuality(satisfied)(e);
      && f == e.(executable := f.executable, blockingCodes := f.blockingCodes)
      && (f.executable
          <==> e.executable && (QUALITY_APPROVER in e.prerequisiteRoles ==> QualityApproved(satisfied, e.id)))
      && f.blockingCodes
         == (if e.executable && !f.executable then ["QUALITY_APPROVAL_UNSATISFIED"] else e.blockingCodes)
  {
    if e.executable { assert [] + ["QUALITY_APPROVAL_UNSATISFIED"] == ["QUALITY_APPROVAL_UNSATISFIED"]; }
    var one := ["QUALITY_APPROVAL_UNSATISFIED"];
    assert one[..0] == [] && Dedupe([]) == [] && Dedupe(one) == one;
  }

  lemma MaterialOption(f: ResponseOption)
    ensures var r := OptionMaterial(f);
      && r.id == f.id && r.kind == f.kind && r.executable == f.executable && r.activeMitigation == f.activeMitigation
      && r.approvalBurden == f.approvalBurden && r.executionRisk == f.executionRisk
      && (forall code :: code in r.blockingCodes <==> code in f.blockingCodes) && Distinct(r.blockingCodes)
      && r.predicted.None? == f.predicted.None?
      && (f.predicted.Some? ==>
            var customers := SortedSet(f.predicted.value.protectedCustomerOrders);
            r.predicted.value == f.predicted.value.(protectedCustomerOrders := customers))
  {
    hide SortedSet, SortedById;
    SortedSetSorts(f.blockingCodes);
  }

  /** Who must agree, what evidence it needs, what it is based on, and how it is weighed. */
  ghost predicate Weighs(s: Snapshot, kind: Choice, cost: int, r: ResponseOption) {
    && (forall role :: role in r.prerequisiteRoles <==> Needs(kind, cost, role))
    && (forall need :: need in r.evidenceRequirements <==> Needed(s, kind, need))
    && (forall id :: id in r.sourceDataLineage <==> Cites(s, kind, id))
    && r.approvalBurden == BurdenOf(kind, cost) && r.executionRisk == RiskOf(s, kind)
  }

  /** What is recorded of a choice: its id, its own outcome with the customer orders in order, how it is weighed,
      whether it may be executed, and every reason why not. */
  ghost predicate RecordOf(s: Snapshot, v: EvidenceValidation, satisfied: seq<Satisfaction>, k: nat, r: ResponseOption)
    requires k < 6 && OptionOutcome(s, KINDS[k]).Ok?
  {
    var kind, outcome := KINDS[k], OptionOutcome(s, KINDS[k]).value;
    && r.kind == kind && r.id == IDS[k] && r.activeMitigation == (kind != NoMitigation)
    && Weighs(s, kind, outcome.responseCost, r)
    && r.predicted == (if kind == AlternateSource && !s.betaApproved then None
                       else Some(outcome.(protectedCustomerOrders := SortedSet(outcome.protectedCustomerOrders))))
    && (r.executable <==> Ready(s, v, kind) && (kind == AlternateSource ==> QualityApproved(satisfied, r.id)))
    && Distinct(r.blockingCodes)
    && forall code :: code in r.blockingCodes <==>
         || Hinders(s, v, kind, code)
         || (code == "QUALITY_APPROVAL_UNSATISFIED" && kind == AlternateSource && Ready(s, v, kind)
             && !QualityApproved(satisfied, r.id))
  }

  function Processed(v: EvidenceValidation, satisfied: seq<Satisfaction>, o: ResponseOption): ResponseOption {
    OptionMaterial(WithQuality(satisfied)(WithEvidence(v)(o)))
  }

  lemma OptionWeighs(s: Snapshot, kind: Choice, outcome: PredictedOutcome)
    ensures Weighs(s, kind, outcome.responseCost, OptionFor(s, kind, outcome))
  {
    hide OptionFor, Needs, Needed, Cites, RiskOf, BurdenOf;
    OptionIsWeighed(s, kind, outcome);
    OptionNeedsEvidence(s, kind, outcome);
    OptionCites(s, kind, outcome);
  }

  lemma MaterialWeighs(s: Snapshot, kind: Choice, cost: int, f: ResponseOption)
    requires Weighs(s, kind, cost, f)
    ensures Weighs(s, kind, cost, OptionMaterial(f))
  {
    hide Needs, Needed, Cites, RiskOf, BurdenOf;
    OptionMaterialKeeps(f);
    SortedSetSorts(f.sourceDataLineage);
    hide SortedSet, SortedById;
  }

  lemma QualityNeedsAlternate(s: Snapshot, kind: Choice, outcome: PredictedOutcome)
    ensures QUALITY_APPROVER in OptionFor(s, kind, outcome).prerequisiteRoles <==> kind == AlternateSource
  {
    hide OptionFor;
    RoleNames();
    OptionIsWeighed(s, kind, outcome);
  }

  lemma OptionIsRecorded(s: Snapshot, v: EvidenceValidation, satisfied: seq<Satisfaction>, k: nat)
    requires DistinctIds(s.orders) && PrioritiesComparable(s.orders) && k < 6 && OptionOutcome(s, KINDS[k]).Ok?
    ensures var o := OptionFor(s, KINDS[k], OptionOutcome(s, KINDS[k]).value);
      RecordOf(s, v, satisfied, k, Processed(v, satisfied, o))
  {
    hide OptionFor, DistinctIds, PrioritiesComparable, Available, Blocks, Ready, Hinders, WithEvidence, WithQuality,
      OptionMaterial, QualityApproved, OptionOutcome, SortedSet, OptionIdFor, Weighs;
    var kind, outcome := KINDS[k], OptionOutcome(s, KINDS[k]).value;
    var o := OptionFor(s, kind, outcome);
    var e := WithEvidence(v)(o);
    IdsAre(k);
    OptionIsAvailable(s, kind, outcome);
    QualityNeedsAlternate(s, kind, outcome);
    EvidencedOption(s, v, kind, outcome);
    ApprovedOption(satisfied, e);
    MaterialOption(WithQuality(satisfied)(e));
    OptionWeighs(s, kind, outcome);
    ProcessingWeighs(s, kind, outcome.responseCost, v, satisfied, o);
    if e.executable && !WithQuality(satisfied)(e).executable { NothingHinders(s, v, kind, e); }
  }

  lemma ProcessingWeighs(s: Snapshot, kind: Choice, cost: int, v: EvidenceValidation, satisfied: seq<Satisfaction>,
                         o: ResponseOption)
    requires Weighs(s, kind, cost, o)
    ensures Weighs(s, kind, cost, Processed(v, satisfied, o))
  {
    hide Needs, Needed, Cites, RiskOf, BurdenOf, OptionMaterial, Dedupe, CodesForAll;
    MaterialWeighs(s, kind, cost, WithQuality(satisfied)(WithEvidence(v)(o)));
  }

  lemma NothingHinders(s: Snapshot, v: EvidenceValidation, kind: Choice, e: ResponseOption)
    requires e.blockingCodes == [] && forall code :: code in e.blockingCodes <==> Hinders(s, v, kind, code)
    ensures forall code :: !Hinders(s, v, kind, code)
  {
  }

  // --- The whole record ----------------------------------------------------------------------------

  lemma ListIsProcessed(v: EvidenceValidation, satisfied: seq<Satisfaction>, options: seq<ResponseOption>)
    ensures var recorded := Map(OptionMaterial, Map(WithQuality(satisfied), EvidencedOptions(v, options)));
      && |recorded| == |options|
      && (forall r :: r in recorded <==> exists o :: o in options && r == Processed(v, satisfied, o))
  {
    hide WithEvidence, WithQuality, OptionMaterial, SortBy, Map, IdLe;
    var sorted := SortBy(IdLe, options);
    SortByRearranges(IdLe, options);
    MapIndex(WithEvidence(v), sorted);
    MapIndex(WithQuality(satisfied), Map(WithEvidence(v), sorted));
    var final := Map(WithQuality(satisfied), Map(WithEvidence(v), sorted));
    MapIndex(OptionMaterial, final);
    forall r ensures r in Map(OptionMaterial, final) <==> exists o :: o in options && r == Processed(v, satisfied, o) {
      if r in Map(OptionMaterial, final) {
        var i :| 0 <= i < |final| && Map(OptionMaterial, final)[i] == r;
        assert r == Processed(v, satisfied, sorted[i]) && sorted[i] in options;
      }
      if o :| o in options && r == Processed(v, satisfied, o) {
        var i :| 0 <= i < |sorted| && sorted[i] == o;
        assert Map(OptionMaterial, final)[i] == r;
      }
    }
  }

  lemma DistinctOrders(s: Snapshot)
    requires !SnapshotRepeats(s)
    ensures DistinctIds(s.orders)
  {
    var ids := Map(OrderId, s.orders);
    MapIndex(OrderId, s.orders);
    forall i, j | 0 <= i < j < |s.orders| ensures s.orders[i].id != s.orders[j].id { assert ids[i] != ids[j]; }
  }

  /** The authorizations that count: in a case that is not a legacy one, none of the Finance approver's. */
  lemma StandingAre(c: Command)
    ensures forall a ::
              && (a in SortedById(AuthorizationId, StandingFor(c.case', c.authorizations))
                  <==> a in c.authorizations && (a.role == "finance_approver" ==> c.case'.legacy))
  {
    RoleNames();
    FilterMembers(NotFinance(), c.authorizations);
    SortByRearranges(ById(AuthorizationId), StandingFor(c.case', c.authorizations));
  }

  /** The steps of an analysis that succeeds. */
  lemma AnalysisSteps(eval: Evaluators, c: Command)
    requires AnalysisOf(eval, c).Ok?
    ensures DistinctIds(c.snapshot.orders) && ResponseOptionsOf(c.snapshot).Ok?
    ensures var m, options := AnalysisOf(eval, c).value, ResponseOptionsOf(c.snapshot).value;
      var evidenced := EvidencedOptions(m.validation, options);
      var auths := SortedById(AuthorizationId, StandingFor(c.case', c.authorizations));
      var satisfied := Satisfactions(eval.applies, auths, evidenced);
      && m.options == Map(OptionMaterial, Map(WithQuality(satisfied), evidenced))
      && forall x :: x in m.satisfactions <==> x in satisfied
  {
    hide SnapshotRepeats, ResponseOptionsOf, Refused, RankingOf, OptionMaterial, WithQuality, EvidencedOptions,
      Satisfactions, EvidenceMaterials, SortedSet, SortedById, CanonicalSnapshot, DistinctIds, HasDuplicates;
    DistinctOrders(c.snapshot);
    var m := AnalysisOf(eval, c).value;
    var auths := SortedById(AuthorizationId, StandingFor(c.case', c.authorizations));
    SortByRearranges(SatisfactionLe, Satisfactions(eval.applies, auths, EvidencedOptions(m.validation,
      ResponseOptionsOf(c.snapshot).value)));
  }

  ghost predicate ChoicesRecorded(s: Snapshot, v: EvidenceValidation, satisfied: seq<Satisfaction>,
                                  recorded: seq<ResponseOption>)
    requires forall k | 0 <= k < 6 :: OptionOutcome(s, KINDS[k]).Ok?
  {
    && |recorded| == 6
    && (forall k | 0 <= k < 6 :: Holds(s, v, satisfied, recorded, k))
    && (forall r | r in recorded :: exists k :: 0 <= k < 6 && RecordOf(s, v, satisfied, k, r))
  }

  ghost predicate Holds(s: Snapshot, v: EvidenceValidation, satisfied: seq<Satisfaction>,
                        recorded: seq<ResponseOption>, k: nat)
    requires k < 6 && OptionOutcome(s, KINDS[k]).Ok?
  {
    exists r :: r in recorded && RecordOf(s, v, satisfied, k, r)
  }

  lemma ChoicesAreRecorded(s: Snapshot, v: EvidenceValidation, satisfied: seq<Satisfaction>,
                           options: seq<ResponseOption>)
    requires DistinctIds(s.orders) && ResponseOptionsOf(s) == Ok(options)
    requires forall k | 0 <= k < 6 :: OptionOutcome(s, KINDS[k]).Ok?
    ensures var final := Map(WithQuality(satisfied), EvidencedOptions(v, options));
      ChoicesRecorded(s, v, satisfied, Map(OptionMaterial, final))
  {
    hide RecordOf, DistinctIds, ResponseOptionsOf, EvidencedOptions, OptionMaterial, WithQuality, OptionFor, Processed,
      OptionOutcome, KINDS;
    OptionsAre(s);
    ListIsProcessed(v, satisfied, options);
    var recorded := Map(OptionMaterial, Map(WithQuality(satisfied), EvidencedOptions(v, options)));
    forall k | 0 <= k < 6 ensures RecordOf(s, v, satisfied, k, Processed(v, satisfied, options[k])) {
      OptionIsRecorded(s, v, satisfied, k);
    }
    forall k | 0 <= k < 6 ensures Holds(s, v, satisfied, recorded, k) {
      assert options[k] in options && Processed(v, satisfied, options[k]) in recorded;
    }
    forall r | r in recorded ensures exists k :: 0 <= k < 6 && RecordOf(s, v, satisfied, k, r) {
      var o :| o in options && r == Processed(v, satisfied, o);
      var k :| 0 <= k < 6 && options[k] == o;
    }
  }

  lemma SameApprovals(s: Snapshot, v: EvidenceValidation, xs: seq<Satisfaction>, ys: seq<Satisfaction>, k: nat,
                      r: ResponseOption)
    requires k < 6 && OptionOutcome(s, KINDS[k]).Ok? && forall x :: x in xs <==> x in ys
    ensures RecordOf(s, v, xs, k, r) == RecordOf(s, v, ys, k, r)
  {
    hide Ready, Hinders, OptionOutcome, KINDS, IDS, Distinct, SortedSet, Weighs;
    assert QualityApproved(xs, r.id) <==> QualityApproved(ys, r.id);
  }

  lemma SameRecord(s: Snapshot, v: EvidenceValidation, xs: seq<Satisfaction>, ys: seq<Satisfaction>,
                   recorded: seq<ResponseOption>)
    requires (forall k | 0 <= k < 6 :: OptionOutcome(s, KINDS[k]).Ok?) && forall x :: x in xs <==> x in ys
    requires ChoicesRecorded(s, v, xs, recorded)
    ensures ChoicesRecorded(s, v, ys, recorded)
  {
    hide RecordOf, OptionOutcome, KINDS;
    forall k, r | 0 <= k < 6 ensures RecordOf(s, v, xs, k, r) == RecordOf(s, v, ys, k, r) {
      SameApprovals(s, v, xs, ys, k, r);
    }
    forall k | 0 <= k < 6 ensures Holds(s, v, ys, recorded, k) {
      assert Holds(s, v, xs, recorded, k);
    }
  }

  /** An analysis records one option for each choice, and each as it is. */
  lemma EveryChoiceIsRecorded(eval: Evaluators, c: Command)
    requires AnalysisOf(eval, c).Ok?
    ensures forall k | 0 <= k < 6 :: OptionOutcome(c.snapshot, KINDS[k]).Ok?
    ensures var m := AnalysisOf(eval, c).value; ChoicesRecorded(c.snapshot, m.validation, m.satisfactions, m.options)
  {
    hide AnalysisOf, RecordOf, DistinctIds, ResponseOptionsOf, EvidencedOptions, OptionMaterial, WithQuality, OptionFor,
      OptionOutcome, KINDS, Satisfactions, ChoicesRecorded;
    AnalysisSteps(eval, c);
    var m, s, options := AnalysisOf(eval, c).value, c.snapshot, ResponseOptionsOf(c.snapshot).value;
    OptionsAre(s);
    var auths := SortedById(AuthorizationId, StandingFor(c.case', c.authorizations));
    var satisfied := Satisfactions(eval.applies, auths, EvidencedOptions(m.validation, options));
    ChoicesAreRecorded(s, m.validation, satisfied, options);
    SameRecord(s, m.validation, satisfied, m.satisfactions, m.options);
  }

  // --- Who approved what ---------------------------------------------------------------------------

  lemma ChoiceCosts(s: Snapshot, c: Choice)
    requires OptionOutcome(s, c).Ok?
    ensures OptionOutcome(s, c).value.responseCost == AddedCost(s, c)
  {
    hide FreeUnits, Scheduled, AddedSupply, AddedCost, OptionOutcome;
    ChoiceIsServed(s, c);
  }

  /** An authorization of the case speaks for a choice in one of the roles the choice needs: it applies, names the
      choice, and allows its cost; a Finance approver's only in a legacy case, a quality approver's only if Jordan's,
      and for the alternate source only when it is qualified. */
  ghost predicate Speaks(eval: Evaluators, c: Command, k: nat, a: Authorization, x: Satisfaction)
    requires k < 6
  {
    var kind, cost := KINDS[k], AddedCost(c.snapshot, KINDS[k]);
    && a in c.authorizations && eval.applies(a) && kind in a.kinds && cost <= a.maximumCost
    && Needs(kind, cost, a.role) && (a.role == "finance_approver" ==> c.case'.legacy)
    && (a.role == "quality_approver" ==> a.persona == "RL-PERSONA-JORDAN")
    && (kind == AlternateSource ==> c.snapshot.betaApproved)
    && x == Satisfaction(IDS[k], a.role, a.persona, a.id, cost, a.conditions)
  }

  lemma BackingSpeaks(eval: Evaluators, c: Command, auths: seq<Authorization>, e: ResponseOption, k: nat,
                      x: Satisfaction)
    requires k < 6 && e.id == IDS[k] && e.kind == KINDS[k]
    requires forall role :: role in e.prerequisiteRoles <==> Needs(KINDS[k], AddedCost(c.snapshot, KINDS[k]), role)
    requires e.predicted.None? <==> KINDS[k] == AlternateSource && !c.snapshot.betaApproved
    requires e.predicted.Some? ==> e.predicted.value.responseCost == AddedCost(c.snapshot, KINDS[k])
    requires forall a :: a in auths <==> a in c.authorizations && (a.role == "finance_approver" ==> c.case'.legacy)
    ensures Backs(eval.applies, auths, e, x) <==> exists a :: Speaks(eval, c, k, a, x)
  {
    hide KINDS, IDS, AddedCost;
    assert x.role in e.prerequisiteRoles ==> x.role != "response_approver" by { FinalIsNotNeeded(); }
    forall a ensures a in auths && Attests(eval.applies, a, e, x.role, x) && x.role in e.prerequisiteRoles
      <==> Speaks(eval, c, k, a, x)
    {
    }
  }

  lemma FinalIsNotNeeded()
    ensures forall kind, cost :: !Needs(kind, cost, "response_approver")
  {
    RoleNames();
  }

  lemma EvidencedAt(s: Snapshot, v: EvidenceValidation, k: nat)
    requires DistinctIds(s.orders) && PrioritiesComparable(s.orders) && k < 6 && OptionOutcome(s, KINDS[k]).Ok?
    ensures var o, cost := OptionFor(s, KINDS[k], OptionOutcome(s, KINDS[k]).value), AddedCost(s, KINDS[k]);
      var e := WithEvidence(v)(o);
      && e.id == IDS[k] && e.kind == KINDS[k]
      && (forall role :: role in e.prerequisiteRoles <==> Needs(KINDS[k], cost, role))
      && (e.predicted.None? <==> KINDS[k] == AlternateSource && !s.betaApproved)
      && (e.predicted.Some? ==> e.predicted.value.responseCost == cost)
  {
    hide OptionFor, OptionOutcome, WithEvidence, DistinctIds, PrioritiesComparable, AddedCost, Available, Blocks,
      Needs, Ready, Hinders, OptionIdFor;
    var kind, outcome := KINDS[k], OptionOutcome(s, KINDS[k]).value;
    IdsAre(k);
    ChoiceCosts(s, kind);
    OptionIsAvailable(s, kind, outcome);
    OptionIsWeighed(s, kind, outcome);
    EvidencedOption(s, v, kind, outcome);
  }

  lemma EvidencedMembers(v: EvidenceValidation, options: seq<ResponseOption>)
    ensures forall e :: e in EvidencedOptions(v, options) <==> exists o :: o in options && e == WithEvidence(v)(o)
  {
    hide WithEvidence, SortBy;
    var sorted := SortBy(IdLe, options);
    SortByRearranges(IdLe, options);
    MapIndex(WithEvidence(v), sorted);
    forall o | o in options ensures WithEvidence(v)(o) in EvidencedOptions(v, options) {
      var i :| 0 <= i < |sorted| && sorted[i] == o;
      assert EvidencedOptions(v, options)[i] == WithEvidence(v)(o);
    }
  }

  /** The approvals recorded are exactly those that some standing authorization of the case gives some choice. */
  lemma ApprovalsAreRecorded(eval: Evaluators, c: Command)
    requires AnalysisOf(eval, c).Ok?
    ensures forall x ::
              && (x in AnalysisOf(eval, c).value.satisfactions
                  <==> exists k, a :: 0 <= k < 6 && Speaks(eval, c, k, a, x))
  {
    hide AnalysisOf, DistinctIds, PrioritiesComparable, ResponseOptionsOf, EvidencedOptions, OptionMaterial,
      WithQuality, OptionFor, WithEvidence, OptionOutcome, KINDS, IDS, Satisfactions, Speaks, Backs, Needs;
    AnalysisSteps(eval, c);
    var m, s, options := AnalysisOf(eval, c).value, c.snapshot, ResponseOptionsOf(c.snapshot).value;
    OptionsAre(s);
    StandingAre(c);
    var auths := SortedById(AuthorizationId, StandingFor(c.case', c.authorizations));
    var evidenced := EvidencedOptions(m.validation, options);
    SatisfactionsAre(eval.applies, auths, evidenced);
    EvidencedMembers(m.validation, options);
    forall k, x | 0 <= k < 6
      ensures Backs(eval.applies, auths, WithEvidence(m.validation)(options[k]), x)
          <==> exists a :: Speaks(eval, c, k, a, x)
    {
      EvidencedAt(s, m.validation, k);
      BackingSpeaks(eval, c, auths, WithEvidence(m.validation)(options[k]), k, x);
    }
    forall x ensures x in m.satisfactions <==> exists k, a :: 0 <= k < 6 && Speaks(eval, c, k, a, x) {
      if x in m.satisfactions {
        var e :| e in evidenced && Backs(eval.applies, auths, e, x);
        var o :| o in options && e == WithEvidence(m.validation)(o);
        var k :| 0 <= k < 6 && options[k] == o;
        assert exists a :: Speaks(eval, c, k, a, x);
      }
      if k, a :| 0 <= k < 6 && Speaks(eval, c, k, a, x) {
        assert options[k] in options && WithEvidence(m.validation)(options[k]) in evidenced;
        assert Backs(eval.applies, auths, WithEvidence(m.validation)(options[k]), x);
      }
    }
  }

  /** Jordan, the quality approver, allows the alternate source, which itself costs nothing. */
  ghost predicate JordanApproves(eval: Evaluators, c: Command) {
    exists a :: a in c.authorizations && eval.applies(a) && a.role == "quality_approver"
                && a.persona == "RL-PERSONA-JORDAN" && AlternateSource in a.kinds && a.maximumCost >= 0
  }

  lemma JordanIsRecorded(eval: Evaluators, c: Command, satisfied: seq<Satisfaction>)
    requires c.snapshot.betaApproved
    requires forall x :: x in satisfied <==> exists k, a :: 0 <= k < 6 && Speaks(eval, c, k, a, x)
    ensures QualityApproved(satisfied, IDS[4]) <==> JordanApproves(eval, c)
  {
    RoleNames();
    hide RESPONSE_APPROVER, FINANCE_APPROVER, MATERIAL_PLANNER, QUALITY_APPROVER;
    assert AddedCost(c.snapshot, AlternateSource) == 0;
    if QualityApproved(satisfied, IDS[4]) {
      var x :| x in satisfied && x.role == QUALITY_APPROVER && x.optionId == IDS[4];
      var k, a :| 0 <= k < 6 && Speaks(eval, c, k, a, x);
      assert Needs(KINDS[k], AddedCost(c.snapshot, KINDS[k]), "quality_approver");
      assert KINDS[k] == AlternateSource;
    }
    if JordanApproves(eval, c) {
      var a :| a in c.authorizations && eval.applies(a) && a.role == "quality_approver"
        && a.persona == "RL-PERSONA-JORDAN" && AlternateSource in a.kinds && a.maximumCost >= 0;
      assert Speaks(eval, c, 4, a, Satisfaction(IDS[4], a.role, a.persona, a.id, 0, a.conditions));
    }
  }

  /** An option is recorded as executable exactly when its choice is available on the snapshot, nothing is held against
      mitigations as a whole, each piece of its evidence is met and, for the alternate source, Jordan approves. */
  lemma ExecutableExactlyWhen(eval: Evaluators, c: Command)
    requires AnalysisOf(eval, c).Ok?
    ensures var m := AnalysisOf(eval, c).value;
      forall r | r in m.options ::
        && (r.executable
            <==> Ready(c.snapshot, m.validation, r.kind) && (r.kind == AlternateSource ==> JordanApproves(eval, c)))
        && r.kind in KINDS
  {
    hide AnalysisOf, OptionOutcome, Hinders, Needed, Met, JordanApproves, QualityApproved, Speaks, Weighs;
    EveryChoiceIsRecorded(eval, c);
    ApprovalsAreRecorded(eval, c);
    var m := AnalysisOf(eval, c).value;
    if c.snapshot.betaApproved { JordanIsRecorded(eval, c, m.satisfactions); }
    forall r | r in m.options
      ensures r.kind in KINDS
      ensures r.executable
          <==> Ready(c.snapshot, m.validation, r.kind) && (r.kind == AlternateSource ==> JordanApproves(eval, c))
    {
      var k :| 0 <= k < 6 && RecordOf(c.snapshot, m.validation, m.satisfactions, k, r);
      OnlyFourthIsAlternate(k);
    }
  }

  lemma OnlyFourthIsAlternate(k: nat)
    requires k < 6
    ensures KINDS[k] == AlternateSource <==> k == 4
  {
  }

  // --- When there is an analysis at all ------------------------------------------------------------

  ghost predicate Unrepeated<T>(key: T -> string, xs: seq<T>) {
    forall i, j | 0 <= i < j < |xs| :: key(xs[i]) != key(xs[j])
  }

  lemma UnrepeatedIs<T>(key: T -> string, xs: seq<T>)
    ensures RepeatsId(key, xs) <==> !Unrepeated(key, xs)
  {
    MapIndex(key, xs);
    forall i, j | 0 <= i < j < |xs| ensures Map(key, xs)[i] == Map(key, xs)[j] <==> key(xs[i]) == key(xs[j]) { }
  }

  /** No two items of a kind share an id. */
  ghost predicate AllUnrepeated(c: Command) {
    && Unrepeated((e: EvidenceItem) => e.id, c.evidence) && Unrepeated((x: Conflict) => x.id, c.conflicts)
    && Unrepeated((x: Resolution) => x.conflictId, c.resolutions)
    && Unrepeated((a: Authorization) => a.id, c.authorizations)
    && Unrepeated((p: InventoryPosition) => p.id, c.snapshot.positions)
    && Unrepeated((o: ProductionOrder) => o.id, c.snapshot.orders)
    && Unrepeated((l: CustomerOrder) => l.lineId, c.snapshot.customers)
  }

  /** Everything belongs to the case, and conflicts are about its evidence. */
  ghost predicate AllBelong(c: Command) {
    && c.snapshot.header == c.case'.header
    && (forall e | e in c.evidence :: e.caseId == c.case'.id && e.mode == c.case'.mode)
    && forall x | x in c.conflicts ::
         x.caseId == c.case'.id && forall id | id in x.evidenceIds :: exists e :: e in c.evidence && e.id == id
  }

  lemma SameKey<T>(f: T -> string, g: T -> string, xs: seq<T>)
    requires forall x :: f(x) == g(x)
    ensures RepeatsId(f, xs) <==> !Unrepeated(g, xs)
  {
    UnrepeatedIs(f, xs);
  }

  lemma RepetitionsAre(c: Command)
    ensures AllUnrepeated(c) <==>
      && !RepeatsId(EvidenceId, c.evidence) && !RepeatsId(ConflictId, c.conflicts)
      && !RepeatsId(ResolutionId, c.resolutions) && !RepeatsId(AuthorizationId, c.authorizations)
      && !SnapshotRepeats(c.snapshot)
  {
    hide RepeatsId, Unrepeated;
    SameKey(EvidenceId, (e: EvidenceItem) => e.id, c.evidence);
    SameKey(ConflictId, (x: Conflict) => x.id, c.conflicts);
    SameKey(ResolutionId, (x: Resolution) => x.conflictId, c.resolutions);
    SameKey(AuthorizationId, (a: Authorization) => a.id, c.authorizations);
    SameKey(PositionId, (p: InventoryPosition) => p.id, c.snapshot.positions);
    SameKey(OrderId, (o: ProductionOrder) => o.id, c.snapshot.orders);
    SameKey(LineId, (l: CustomerOrder) => l.lineId, c.snapshot.customers);
  }

  lemma CitationsAre(x: Conflict, evidence: seq<EvidenceItem>)
    ensures CitesOutside(x, evidence) <==> !forall id | id in x.evidenceIds :: exists e :: e in evidence && e.id == id
  {
    MapMembers(EvidenceId, evidence);
  }

  lemma {:induction false} EvidenceIsValidated(v: EvidenceValidation, items: seq<EvidenceItem>)
    ensures EvidenceMaterials(v, items).Some?
        <==> forall e | e in items :: exists item :: Validates(v.items, e.id, item)
  {
    hide Validates;
    if |items| > 0 {
      EvidenceIsValidated(v, items[1..]);
      HeadOrTail(items);
      ValidationIsLast(v.items, items[0].id);
    }
  }

  lemma OptionIdsDiffer(s: Snapshot)
    requires ResponseOptionsOf(s).Ok?
    ensures !RepeatsId(IdOf, ResponseOptionsOf(s).value)
  {
    hide OptionFor, OptionOutcome;
    OptionsAre(s);
    var options := ResponseOptionsOf(s).value;
    MapIndex(IdOf, options);
    forall i, j | 0 <= i < j < 6 ensures options[i].id != options[j].id {
      OptionIdIs(s, KINDS[i], OptionOutcome(s, KINDS[i]).value);
      OptionIdIs(s, KINDS[j], OptionOutcome(s, KINDS[j]).value);
      IdsAre(i);
      IdsAre(j);
      IdsDiffer(i, j);
    }
  }

  lemma OptionIdIs(s: Snapshot, kind: Choice, outcome: PredictedOutcome)
    ensures OptionFor(s, kind, outcome).id == OptionIdFor(kind)
  {
    hide TransferAvailable, ResequenceAvailable, Lineage, Burden, Roles, Risk, OptionIdFor, AlphaNeeds, TransferNeeds,
      BetaNeeds, NoShipment, NoTransfer, NoReorder, NotQualified;
  }

  lemma IdsDiffer(i: nat, j: nat)
    requires i < j < 6
    ensures IDS[i] != IDS[j]
  {
    assert IDS[0][10] == 'N' && IDS[1][10] == 'E' && IDS[2][10] == 'T' && IDS[3][10] == 'R' && IDS[4][10] == 'B';
    assert IDS[5][10] == 'C';
  }

  /** The evidence and the approvals leave the options' ids as they are. */
  lemma FinalIdsDiffer(v: EvidenceValidation, satisfied: seq<Satisfaction>, options: seq<ResponseOption>)
    requires !RepeatsId(IdOf, options)
    ensures !HasDuplicates(Ids(Map(WithQuality(satisfied), EvidencedOptions(v, options))))
  {
    hide SortBy, CodesForAll, Dedupe;
    var sorted := SortBy(IdLe, options);
    var evidenced := EvidencedOptions(v, options);
    var final := Map(WithQuality(satisfied), evidenced);
    SortByRearranges(IdLe, options);
    RepetitionForgetsOrder(IdOf, sorted, options);
    MapIndex(WithEvidence(v), sorted);
    MapIndex(WithQuality(satisfied), evidenced);
    MapIndex(IdOf, sorted);
    MapIndex(IdOf, final);
    SameIds(v, satisfied, sorted, final);
    assert Ids(final) == Ids(sorted);
  }

  lemma SameIds(v: EvidenceValidation, satisfied: seq<Satisfaction>, sorted: seq<ResponseOption>,
                final: seq<ResponseOption>)
    requires |final| == |sorted|
    requires forall i | 0 <= i < |sorted| :: final[i] == WithQuality(satisfied)(WithEvidence(v)(sorted[i]))
    ensures forall i | 0 <= i < |sorted| :: final[i].id == sorted[i].id
  {
  }

  lemma RefusalIs(c: Command, options: seq<ResponseOption>)
    requires !RepeatsId(IdOf, options)
    ensures Refused(c, options).None? && !SnapshotRepeats(c.snapshot)
            <==> c.startedAt <= c.createdAt && AllUnrepeated(c) && AllBelong(c)
  {
    hide RepeatsId, AllUnrepeated, CitesOutside, SnapshotRepeats;
    RepetitionsAre(c);
    forall x: Conflict ensures CitesOutside(x, c.evidence)
      <==> !forall id | id in x.evidenceIds :: exists e :: e in c.evidence && e.id == id
    {
      CitationsAre(x, c.evidence);
    }
  }

  /** The evaluator's answer has an entry for each item of the case's evidence. */
  ghost predicate AllValidated(eval: Evaluators, c: Command) {
    var v := eval.validate(SortedById(EvidenceId, c.evidence), SortedSet(c.requiredScope),
                           SortedById(ConflictId, c.conflicts), SortedById(ResolutionId, c.resolutions));
    forall e | e in c.evidence :: exists item :: Validates(v.items, e.id, item)
  }

  /** There is an analysis exactly when every option has its outcome, it is not created before it started, no two items
      of a kind share an id, all of it belongs to the case, and the evaluator answered for all the evidence. */
  lemma AnalysisSucceedsWhen(eval: Evaluators, c: Command)
    ensures AnalysisOf(eval, c).Ok? <==>
      && (forall k | 0 <= k < 6 :: OptionOutcome(c.snapshot, KINDS[k]).Ok?)
      && c.startedAt <= c.createdAt && AllUnrepeated(c) && AllBelong(c) && AllValidated(eval, c)
  {
    hide OptionFor, OptionOutcome, Refused, EvidencedOptions, RepeatsId, AllUnrepeated, AllBelong, SnapshotRepeats,
      SortBy, SortedSet, Validates, Satisfactions, WithQuality, HasDuplicates, RankingOf, CanonicalSnapshot,
      OptionMaterial, OptionList;
    OutcomesDecide(c.snapshot);
    if ResponseOptionsOf(c.snapshot).Ok? {
      var options := ResponseOptionsOf(c.snapshot).value;
      OptionIdsDiffer(c.snapshot);
      RefusalIs(c, options);
      var evidence := SortedById(EvidenceId, c.evidence);
      var v := eval.validate(evidence, SortedSet(c.requiredScope), SortedById(ConflictId, c.conflicts),
                             SortedById(ResolutionId, c.resolutions));
      var auths := SortedById(AuthorizationId, StandingFor(c.case', c.authorizations));
      FinalIdsDiffer(v, Satisfactions(eval.applies, auths, EvidencedOptions(v, options)), options);
      EvidenceIsValidated(v, evidence);
      SortByRearranges(ById(EvidenceId), c.evidence);
    }
  }

  lemma OutcomesDecide(s: Snapshot)
    ensures ResponseOptionsOf(s).Ok? <==> forall k | 0 <= k < 6 :: OptionOutcome(s, KINDS[k]).Ok?
  {
    hide OptionList, InterventionOutcome;
    assert KINDS[0] == NoMitigation && KINDS[1] == Expedite && KINDS[2] == Transfer && KINDS[3] == Resequence;
    assert KINDS[4] == AlternateSource && KINDS[5] == Combined;
  }

  // --- What else the material holds ------------------------------------------------------------------

  /** The same elements, in order of their ids. */
  ghost predicate InOrder<T>(key: T -> string, xs: seq<T>, given: seq<T>) {
    multiset(xs) == multiset(given) && forall i, j | 0 <= i < j < |xs| :: StrLe(key(xs[i]), key(xs[j]))
  }

  /** The same texts, each once, in order. */
  ghost predicate AsSet(xs: seq<string>, given: seq<string>) {
    Sorted(StrLe, xs) && Distinct(xs) && forall x :: x in xs <==> x in given
  }

  lemma SortedByIdIs<T(!new)>(key: T -> string, xs: seq<T>)
    ensures InOrder(key, SortedById(key, xs), xs)
  {
    IdOrder(key);
    SortBySorts(ById(key), xs);
    var sorted := SortedById(key, xs);
    forall i, j | 0 <= i < j < |sorted| ensures StrLe(key(sorted[i]), key(sorted[j])) {
      assert ById(key)(sorted[i], sorted[j]);
    }
  }

  /** A conflict as recorded: its evidence and its scope as sets, the rest as it is. */
  ghost predicate RecordsConflict(r: Conflict, x: Conflict) {
    r == x.(evidenceIds := r.evidenceIds, scope := r.scope) && AsSet(r.evidenceIds, x.evidenceIds)
    && AsSet(r.scope, x.scope)
  }

  /** An item of evidence as recorded: its scope as a set, the rest as it is, with its own validation. */
  ghost predicate RecordsEvidence(v: EvidenceValidation, r: EvidenceMaterial, e: EvidenceItem) {
    r.item == e.(scope := r.item.scope) && AsSet(r.item.scope, e.scope) && Validates(v.items, e.id, r.validation)
  }

  lemma {:induction false} EvidenceIsRecorded(v: EvidenceValidation, items: seq<EvidenceItem>)
    requires EvidenceMaterials(v, items).Some?
    ensures var recorded := EvidenceMaterials(v, items).value;
      |recorded| == |items| && forall i | 0 <= i < |items| :: RecordsEvidence(v, recorded[i], items[i])
  {
    hide Validates, SortedSet, Sorted, Distinct;
    if |items| > 0 {
      EvidenceIsRecorded(v, items[1..]);
      SortedSetSorts(items[0].scope);
      ValidationIsLast(v.items, items[0].id);
    }
  }

  lemma ConflictsAreRecorded(conflicts: seq<Conflict>)
    ensures var recorded := Map(ConflictMaterial, conflicts);
      |recorded| == |conflicts| && forall i | 0 <= i < |conflicts| :: RecordsConflict(recorded[i], conflicts[i])
  {
    hide SortedSet, Sorted, Distinct;
    MapIndex(ConflictMaterial, conflicts);
    forall i | 0 <= i < |conflicts|
      ensures RecordsConflict(Map(ConflictMaterial, conflicts)[i], conflicts[i])
    {
      SortedSetSorts(conflicts[i].evidenceIds);
      SortedSetSorts(conflicts[i].scope);
    }
  }

  /** The material names the case; holds the snapshot, the evidence with its validations, the conflicts and the
      resolutions of the command, each collection in order of its ids, and the standing authorizations that count; and
      its validation is the evaluator's answer on these. */
  lemma MaterialHolds(eval: Evaluators, c: Command)
    requires AnalysisOf(eval, c).Ok?
    ensures var m, s := AnalysisOf(eval, c).value, AnalysisOf(eval, c).value.snapshot;
      && m.case' == c.case' && AsSet(m.requiredScope, c.requiredScope)
      && s == c.snapshot.(positions := s.positions, orders := s.orders, customers := s.customers)
      && InOrder(PositionId, s.positions, c.snapshot.positions) && InOrder(OrderId, s.orders, c.snapshot.orders)
      && InOrder(LineId, s.customers, c.snapshot.customers) && InOrder(ResolutionId, m.resolutions, c.resolutions)
      && (forall a :: a in m.authorizations
            <==> a in c.authorizations && (a.role == "finance_approver" ==> c.case'.legacy))
    ensures var m := AnalysisOf(eval, c).value;
      exists evidence, conflicts ::
        && InOrder(EvidenceId, evidence, c.evidence) && InOrder(ConflictId, conflicts, c.conflicts)
        && m.validation == eval.validate(evidence, m.requiredScope, conflicts, m.resolutions)
        && |m.evidence| == |evidence| && |m.conflicts| == |conflicts|
        && (forall i | 0 <= i < |evidence| :: RecordsEvidence(m.validation, m.evidence[i], evidence[i]))
        && forall i | 0 <= i < |conflicts| :: RecordsConflict(m.conflicts[i], conflicts[i])
  {
    hide SnapshotRepeats, ResponseOptionsOf, Refused, RankingOf, OptionMaterial, WithQuality, EvidencedOptions,
      Satisfactions, EvidenceMaterials, SortedSet, SortedById, HasDuplicates, AsSet, InOrder, RecordsEvidence,
      RecordsConflict, StandingFor, Map;
    var m := AnalysisOf(eval, c).value;
    var evidence, conflicts := SortedById(EvidenceId, c.evidence), SortedById(ConflictId, c.conflicts);
    ScopeIs(c.requiredScope);
    SortedByIdIs(PositionId, c.snapshot.positions);
    SortedByIdIs(OrderId, c.snapshot.orders);
    SortedByIdIs(LineId, c.snapshot.customers);
    SortedByIdIs(ResolutionId, c.resolutions);
    SortedByIdIs(EvidenceId, c.evidence);
    SortedByIdIs(ConflictId, c.conflicts);
    StandingAre(c);
    EvidenceIsRecorded(m.validation, evidence);
    ConflictsAreRecorded(conflicts);
  }

  lemma ScopeIs(scope: seq<string>)
    ensures AsSet(SortedSet(scope), scope)
  {
    SortedSetSorts(scope);
  }

  // --- The order of what is recorded --------------------------------------------------------------------

  /** By option, then role, then person, then authorization. */
  predicate Precedes(x: Satisfaction, y: Satisfaction) {
    && StrLe(x.optionId, y.optionId)
    && (x.optionId == y.optionId ==>
          && StrLe(x.role, y.role)
          && (x.role == y.role ==>
                && StrLe(x.persona, y.persona)
                && (x.persona == y.persona ==> StrLe(x.authorizationId, y.authorizationId))))
  }

  lemma PrecedenceIs(x: Satisfaction, y: Satisfaction)
    ensures SatisfactionLe(x, y) <==> Precedes(x, y)
  {
    StrLeTotal(x.optionId, x.optionId);
    StrLeTotal(x.role, x.role);
    StrLeTotal(x.persona, x.persona);
  }

  lemma SatisfactionOrder()
    ensures TotalPreorder(SatisfactionLe)
  {
    hide StrLe;
    StrLeOrder();
    forall x, y, z | SatisfactionLe(x, y) && SatisfactionLe(y, z) ensures SatisfactionLe(x, z) {
      SatisfactionsChain(x, y, z);
    }
  }

  lemma SatisfactionsChain(x: Satisfaction, y: Satisfaction, z: Satisfaction)
    requires SatisfactionLe(x, y) && SatisfactionLe(y, z)
    ensures SatisfactionLe(x, z)
  {
    hide StrLe;
    StrLeChain(x.optionId, y.optionId, z.optionId);
    StrLeChain(x.role, y.role, z.role);
    StrLeChain(x.persona, y.persona, z.persona);
    StrLeChain(x.authorizationId, y.authorizationId, z.authorizationId);
  }

  lemma StrLeChain(a: string, b: string, c: string)
    ensures StrLe(a, b) && StrLe(b, c) ==> StrLe(a, c)
    ensures StrLe(a, b) && StrLe(b, a) ==> a == b
  {
    if StrLe(a, b) && StrLe(b, c) { StrLeTransitive(a, b, c); }
    if StrLe(a, b) && StrLe(b, a) { StrLeAntisymmetric(a, b); }
  }

  /** What ranking looks at. */
  ghost predicate RankedAs(r: ResponseOption, f: ResponseOption) {
    && r.id == f.id && r.activeMitigation == f.activeMitigation && r.executable == f.executable
    && (r.blockingCodes == [] <==> f.blockingCodes == []) && r.predicted.None? == f.predicted.None?
    && (f.predicted.Some? ==>
          && r.predicted.value.uncovered == f.predicted.value.uncovered
          && r.predicted.value.otifLoss == f.predicted.value.otifLoss
          && r.predicted.value.revenueAtRisk == f.predicted.value.revenueAtRisk
          && r.predicted.value.marginAtRisk == f.predicted.value.marginAtRisk
          && r.predicted.value.responseCost == f.predicted.value.responseCost)
    && r.approvalBurden == f.approvalBurden && r.executionRisk == f.executionRisk
  }

  lemma MaterialIsRanked(f: ResponseOption)
    ensures RankedAs(OptionMaterial(f), f)
  {
    OptionMaterialKeeps(f);
  }

  lemma EvidencedInOrder(v: EvidenceValidation, options: seq<ResponseOption>)
    ensures var e := EvidencedOptions(v, options);
      |e| == |options| && forall i, j | 0 <= i < j < |e| :: StrLe(e[i].id, e[j].id)
  {
    hide StrLe, CodesForAll, Dedupe;
    StrLeOrder();
    SortBySorts(IdLe, options);
    MapIndex(WithEvidence(v), SortBy(IdLe, options));
  }

  /** The options are recorded in order of their ids, the approvals by option, role, person and authorization; and the
      ranking is that of options that agree with the recorded ones in all that ranking looks at. */
  lemma RecordIsOrdered(eval: Evaluators, c: Command)
    requires AnalysisOf(eval, c).Ok?
    ensures var m := AnalysisOf(eval, c).value;
      && (forall i, j | 0 <= i < j < |m.options| :: StrLe(m.options[i].id, m.options[j].id))
      && (forall i, j | 0 <= i < j < |m.satisfactions| :: Precedes(m.satisfactions[i], m.satisfactions[j]))
      && exists final ::
           && m.ranking == RankingOf(final) && |final| == |m.options|
           && forall i | 0 <= i < |final| :: RankedAs(m.options[i], final[i])
  {
    hide SnapshotRepeats, ResponseOptionsOf, Refused, RankingOf, OptionMaterial, WithQuality, EvidencedOptions,
      Satisfactions, EvidenceMaterials, SortedSet, SortedById, HasDuplicates, StandingFor, CanonicalSnapshot, StrLe,
      SatisfactionLe, Precedes, RankedAs, Map;
    var m, options := AnalysisOf(eval, c).value, ResponseOptionsOf(c.snapshot).value;
    var auths := SortedById(AuthorizationId, StandingFor(c.case', c.authorizations));
    var evidenced := EvidencedOptions(m.validation, options);
    var satisfied := Satisfactions(eval.applies, auths, evidenced);
    var final := Map(WithQuality(satisfied), evidenced);
    SatisfactionOrder();
    SortBySorts(SatisfactionLe, satisfied);
    forall i, j | 0 <= i < j < |m.satisfactions| ensures Precedes(m.satisfactions[i], m.satisfactions[j]) {
      PrecedenceIs(m.satisfactions[i], m.satisfactions[j]);
    }
    EvidencedInOrder(m.validation, options);
    MapIndex(WithQuality(satisfied), evidenced);
    MapIndex(OptionMaterial, final);
    forall i | 0 <= i < |final| ensures RankedAs(m.options[i], final[i]) && m.options[i].id == evidenced[i].id {
      MaterialIsRanked(final[i]);
      QualityKeepsId(satisfied, evidenced[i]);
      RankedKeepsId(m.options[i], final[i]);
    }
  }

  lemma QualityKeepsId(satisfied: seq<Satisfaction>, e: ResponseOption)
    ensures WithQuality(satisfied)(e).id == e.id
  {
  }

  lemma RankedKeepsId(r: ResponseOption, f: ResponseOption)
    requires RankedAs(r, f)
    ensures r.id == f.id
  {
  }
}
