/** When each response option is available, what it needs and how it is weighed, on the snapshot's own fields
    (services/analysis/options.py:24-45, 129-251 and 290-496). */
module OptionLaws {
  import opened Basics
  import opened Ordering
  import opened Supply
  import opened Exposure
  import opened ExposureLaws
  import opened ResponseOptions
  import opened Ranking
  import opened AnalysisMaterial
  import opened OutcomeLaws

  // --- Reordering ------------------------------------------------------------------------------

  /** Two orders that the due dates put one way round and the priorities the other. */
  ghost predicate Inverted(orders: seq<ProductionOrder>) {
    exists a, b :: a in orders && b in orders && a.id != b.id && EarlierDue(a, b) && MoreUrgent(b, a)
  }

  lemma OneOrderPerId(orders: seq<ProductionOrder>, a: ProductionOrder, b: ProductionOrder)
    requires DistinctIds(orders) && a in orders && b in orders && a.id == b.id
    ensures a == b
  {
    var i :| 0 <= i < |orders| && orders[i] == a;
    var j :| 0 <= j < |orders| && orders[j] == b;
  }

  lemma IdsOf(xs: seq<ProductionOrder>, ys: seq<ProductionOrder>)
    requires multiset(xs) == multiset(ys) && DistinctIds(xs)
    ensures Map(OrderId, xs) == Map(OrderId, ys) <==> xs == ys
  {
    hide DistinctIds, Map;
    SameMembers(xs, ys);
    MapIndex(OrderId, xs);
    MapIndex(OrderId, ys);
    if Map(OrderId, xs) == Map(OrderId, ys) {
      forall i | 0 <= i < |xs| ensures xs[i] == ys[i] {
        assert Map(OrderId, xs)[i] == xs[i].id && Map(OrderId, ys)[i] == ys[i].id;
        assert xs[i] in xs && ys[i] in ys;
        OneOrderPerId(xs, xs[i], ys[i]);
      }
    }
  }

  lemma RearrangedIds(xs: seq<ProductionOrder>, ys: seq<ProductionOrder>)
    requires multiset(xs) == multiset(ys) && DistinctIds(xs)
    ensures DistinctIds(ys)
  {
    SameMembers(xs, ys);
    forall i, j | 0 <= i < j < |ys| ensures ys[i].id != ys[j].id {
      assert ys[i] in ys && ys[j] in ys;
      TwiceCounts(ys, i, j);
      DistinctCounts(xs, ys[i]);
    }
  }

  ghost predicate ByDue(xs: seq<ProductionOrder>) { forall i, j | 0 <= i < j < |xs| :: EarlierDue(xs[i], xs[j]) }

  ghost predicate ByUrgency(xs: seq<ProductionOrder>) { forall i, j | 0 <= i < j < |xs| :: MoreUrgent(xs[i], xs[j]) }

  lemma ScheduledBothWays(orders: seq<ProductionOrder>)
    requires PrioritiesComparable(orders)
    ensures multiset(Scheduled(orders, true)) == multiset(orders) == multiset(Scheduled(orders, false))
    ensures ByUrgency(Scheduled(orders, true)) && ByDue(Scheduled(orders, false))
  {
    hide Scheduled, EarlierDue, MoreUrgent;
    ScheduleIs(orders, true);
    ScheduleIs(orders, false);
  }

  /** The order by priority differs from the order by due date exactly when some two orders are inverted. */
  lemma ReorderingMatters(orders: seq<ProductionOrder>)
    requires DistinctIds(orders) && PrioritiesComparable(orders)
    ensures Map(OrderId, Scheduled(orders, true)) != Map(OrderId, Scheduled(orders, false)) <==> Inverted(orders)
  {
    hide Scheduled, ByDue, ByUrgency, Inverted, DistinctIds, PrioritiesComparable, Map;
    var urgent, due := Scheduled(orders, true), Scheduled(orders, false);
    ScheduledBothWays(orders);
    RearrangedIds(orders, urgent);
    RearrangedIds(orders, due);
    IdsOf(urgent, due);
    if urgent == due {
      NothingInverted(orders, due);
    } else if !Inverted(orders) {
      DueIsUrgent(orders, due);
      UrgentIsUnique(orders, urgent, due);
    }
  }

  lemma NothingInverted(orders: seq<ProductionOrder>, both: seq<ProductionOrder>)
    requires PrioritiesComparable(orders) && multiset(orders) == multiset(both) && ByDue(both) && ByUrgency(both)
    ensures !Inverted(orders)
  {
    SameMembers(orders, both);
    StrLeOrder();
    forall a, b | a in orders && b in orders && a.id != b.id && EarlierDue(a, b) ensures !MoreUrgent(b, a) {
      var i :| 0 <= i < |both| && both[i] == a;
      var j :| 0 <= j < |both| && both[j] == b;
      if j < i { assert EarlierDue(both[j], both[i]); }
    }
  }

  lemma DueIsUrgent(orders: seq<ProductionOrder>, due: seq<ProductionOrder>)
    requires PrioritiesComparable(orders) && !Inverted(orders) && multiset(orders) == multiset(due)
    requires ByDue(due) && DistinctIds(due)
    ensures ByUrgency(due)
  {
    SameMembers(orders, due);
    StrLeOrder();
    forall i, j | 0 <= i < j < |due| ensures MoreUrgent(due[i], due[j]) {
      assert due[i] in orders && due[j] in orders && due[i].id != due[j].id;
      assert EarlierDue(due[i], due[j]);
    }
  }

  function UrgencyLe(): (ProductionOrder, ProductionOrder) -> bool {
    (a: ProductionOrder, b: ProductionOrder) => MoreUrgent(a, b)
  }

  lemma UrgencyTellsApart(orders: seq<ProductionOrder>, a: ProductionOrder, b: ProductionOrder)
    requires PrioritiesComparable(orders) && DistinctIds(orders) && a in orders && b in orders
    requires MoreUrgent(a, b) && MoreUrgent(b, a)
    ensures a == b
  {
    StrLeOrder();
    assert a.id == b.id;
    OneOrderPerId(orders, a, b);
  }

  lemma UrgentIsUnique(orders: seq<ProductionOrder>, xs: seq<ProductionOrder>, ys: seq<ProductionOrder>)
    requires PrioritiesComparable(orders) && DistinctIds(orders)
    requires multiset(orders) == multiset(xs) && multiset(xs) == multiset(ys) && ByUrgency(xs) && ByUrgency(ys)
    ensures xs == ys
  {
    hide MoreUrgent, DistinctIds, PrioritiesComparable;
    SameMembers(orders, xs);
    forall a, b | a in xs && b in xs && UrgencyLe()(a, b) && UrgencyLe()(b, a) ensures a == b {
      UrgencyTellsApart(orders, a, b);
    }
    SortedUnique(UrgencyLe(), xs, ys);
  }

  // --- Availability ------------------------------------------------------------------------------

  /** Enough of the part is free at the plant it would leave. */
  predicate SourceCovers(s: Snapshot) {
    FreeUnits(s.positions, s.transfer.partId, s.transfer.source) >= s.transfer.quantity
  }

  /** A shipment is offered, the stock to move is there, the orders' sequence would change, the source is qualified. */
  ghost predicate Available(s: Snapshot, c: Choice) {
    && c != NoMitigation
    && (Expedites(c) ==> s.alpha.Some?) && (Transfers(c) ==> SourceCovers(s)) && (Reorders(c) ==> Inverted(s.orders))
    && (c == AlternateSource ==> s.betaApproved)
  }

  const SHIPMENT_CODE := "ALPHA_PARTIAL_SHIPMENT_UNAVAILABLE"
  const TRANSFER_CODE := "TRANSFER_INVENTORY_UNAVAILABLE"
  const SEQUENCE_CODE := "RESEQUENCE_NOT_APPLICABLE"
  const QUALITY_CODE := "QUALITY_QUALIFICATION_PENDING"

  /** Why an option is not available, in the codes of its kind. */
  ghost predicate Blocks(s: Snapshot, c: Choice, code: string) {
    || (code == SHIPMENT_CODE && Expedites(c) && s.alpha.None?)
    || (code == TRANSFER_CODE && Transfers(c) && !SourceCovers(s))
    || (code == SEQUENCE_CODE && Reorders(c) && !Inverted(s.orders))
    || (code == QUALITY_CODE && c == AlternateSource && !s.betaApproved)
  }

  lemma AvailabilityIs(s: Snapshot)
    requires DistinctIds(s.orders) && PrioritiesComparable(s.orders)
    ensures TransferAvailable(s) <==> SourceCovers(s)
    ensures ResequenceAvailable(s) <==> Inverted(s.orders)
  {
    StockIsFreeUnits(s.positions, s.transfer.partId, s.transfer.source);
    ReorderingMatters(s.orders);
  }

  lemma CodesAre()
    ensures NoShipment(true) == [] && NoShipment(false) == [SHIPMENT_CODE]
    ensures NoTransfer(true) == [] && NoTransfer(false) == [TRANSFER_CODE]
    ensures NoReorder(true) == [] && NoReorder(false) == [SEQUENCE_CODE]
    ensures NotQualified(true) == [] && NotQualified(false) == [QUALITY_CODE]
  {
  }

  /** Before any evidence an option is executable exactly when it is available, and carries exactly the codes that say
      why it is not. */
  lemma OptionIsAvailable(s: Snapshot, kind: Choice, outcome: PredictedOutcome)
    requires DistinctIds(s.orders) && PrioritiesComparable(s.orders)
    ensures var o := OptionFor(s, kind, outcome);
      && o.kind == kind && o.id == OptionIdFor(kind) && (o.executable <==> Available(s, kind))
      && (forall code :: code in o.blockingCodes <==> Blocks(s, kind, code))
      && (kind != NoMitigation ==> (o.blockingCodes == [] <==> Available(s, kind)))
      && o.activeMitigation == (kind != NoMitigation)
      && (if kind == AlternateSource && !s.betaApproved then o.predicted.None? else o.predicted == Some(outcome))
  {
    hide SourceCovers, TransferAvailable, ResequenceAvailable, Inverted, Lineage, Burden, Roles, Risk, OptionIdFor,
      AlphaNeeds, TransferNeeds, BetaNeeds, NoShipment, NoTransfer, NoReorder, NotQualified;
    AvailabilityIs(s);
    CodesAre();
  }

  // --- Roles, burden and risk ---------------------------------------------------------------------

  /** Every mitigation needs the planner; an expedited one that costs more than 20,000 USD the Finance approver; the
      alternate source the quality approver; and nobody else. */
  ghost predicate Needs(c: Choice, cost: int, role: string) {
    || (role == "material_planner" && c != NoMitigation)
    || (role == "finance_approver" && Expedites(c) && cost > 20_000_00)
    || (role == "quality_approver" && c == AlternateSource)
  }

  lemma RoleNames()
    ensures MATERIAL_PLANNER == "material_planner" && FINANCE_APPROVER == "finance_approver"
    ensures QUALITY_APPROVER == "quality_approver"
    ensures MATERIAL_PLANNER != FINANCE_APPROVER && FINANCE_APPROVER != QUALITY_APPROVER
    ensures MATERIAL_PLANNER != QUALITY_APPROVER
    ensures RESPONSE_APPROVER == "response_approver"
    ensures RESPONSE_APPROVER != MATERIAL_PLANNER && RESPONSE_APPROVER != FINANCE_APPROVER
    ensures RESPONSE_APPROVER != QUALITY_APPROVER
  {
    assert MATERIAL_PLANNER[0] == 'm' && FINANCE_APPROVER[0] == 'f' && QUALITY_APPROVER[0] == 'q';
    assert RESPONSE_APPROVER[0] == 'r';
  }

  lemma RolesAre(finance: bool, quality: bool)
    ensures forall role :: role in Roles(finance, quality) <==>
      || role == MATERIAL_PLANNER || (finance && role == FINANCE_APPROVER) || (quality && role == QUALITY_APPROVER)
  {
  }

  lemma OneMore(s: set<string>, t: set<string>, a: string, present: bool)
    requires a !in t && forall x :: x in s <==> x in t || (present && x == a)
    ensures |s| == |t| + if present then 1 else 0
  {
    assert s == if present then t + {a} else t;
  }

  /** Roles other than the last one are counted once each. */
  lemma CountRoles(roles: seq<string>, a: string, b: string, c: string, last: string, hasB: bool, hasC: bool)
    requires a != b && a != c && b != c && last != a && last != b && last != c
    requires forall role :: role in roles <==> role == a || (hasB && role == b) || (hasC && role == c)
    ensures |SetOf(roles) - {last}| == 1 + (if hasB then 1 else 0) + (if hasC then 1 else 0)
  {
    var one: set<string> := {a};
    var two := if hasB then one + {b} else one;
    OneMore(two, one, b, hasB);
    OneMore(SetOf(roles) - {last}, two, c, hasC);
  }

  lemma BurdenIs(finance: bool, quality: bool)
    ensures Burden(Roles(finance, quality)) == 1 + (if finance then 1 else 0) + (if quality then 1 else 0)
  {
    RoleNames();
    RolesAre(finance, quality);
    hide MATERIAL_PLANNER, FINANCE_APPROVER, QUALITY_APPROVER, RESPONSE_APPROVER, Roles, SetOf;
    CountRoles(Roles(finance, quality), MATERIAL_PLANNER, FINANCE_APPROVER, QUALITY_APPROVER, RESPONSE_APPROVER,
               finance, quality);
  }

  lemma NoRolesNoBurden()
    ensures Burden([]) == 0
  {
    assert SetOf<string>([]) - {RESPONSE_APPROVER} == {};
  }

  /** How many roles that is. */
  function BurdenOf(kind: Choice, cost: int): int {
    if kind == NoMitigation then 0
    else if kind == AlternateSource || (Expedites(kind) && cost > 20_000_00) then 2
    else 1
  }

  /** Two for an open recovery commitment of an external source, one for a move between plants, one for a change of
      schedule, one for each action beyond the first. */
  function RiskOf(s: Snapshot, kind: Choice): int {
    var open := if s.recoveryKnown then 0 else 2;
    var cross := if s.transfer.source == s.transfer.destination then 0 else 1;
    match kind
    case NoMitigation => 0
    case Expedite => open
    case Transfer => cross
    case Resequence => 1
    case AlternateSource => open
    case Combined => open + cross + 1 + 2
  }

  lemma RolesOfOption(s: Snapshot, kind: Choice, outcome: PredictedOutcome)
    ensures var o := OptionFor(s, kind, outcome);
      && (kind == NoMitigation ==> o.prerequisiteRoles == [])
      && (kind != NoMitigation ==>
            var expensive := Expedites(kind) && outcome.responseCost > 20_000_00;
            o.prerequisiteRoles == Roles(expensive, kind == AlternateSource))
      && o.approvalBurden == Burden(o.prerequisiteRoles)
  {
    hide TransferAvailable, ResequenceAvailable, Lineage, Roles, Burden, OptionIdFor, AlphaNeeds, TransferNeeds,
      BetaNeeds, NoShipment, NoTransfer, NoReorder, NotQualified, Risk;
  }

  /** The roles it needs, how many they are, and its risk. */
  lemma OptionIsWeighed(s: Snapshot, kind: Choice, outcome: PredictedOutcome)
    ensures var o := OptionFor(s, kind, outcome);
      && (forall role :: role in o.prerequisiteRoles <==> Needs(kind, outcome.responseCost, role))
      && o.approvalBurden == BurdenOf(kind, outcome.responseCost)
      && o.executionRisk == RiskOf(s, kind)
  {
    hide OptionFor, Roles, Burden;
    RoleNames();
    hide MATERIAL_PLANNER, FINANCE_APPROVER, QUALITY_APPROVER, RESPONSE_APPROVER;
    var finance, quality := Expedites(kind) && outcome.responseCost > 20_000_00, kind == AlternateSource;
    RolesOfOption(s, kind, outcome);
    RolesAre(finance, quality);
    BurdenIs(finance, quality);
    NoRolesNoBurden();
    OptionIsRisky(s, kind, outcome);
  }

  lemma OptionIsRisky(s: Snapshot, kind: Choice, outcome: PredictedOutcome)
    ensures OptionFor(s, kind, outcome).executionRisk == RiskOf(s, kind)
  {
    hide TransferAvailable, ResequenceAvailable, Lineage, Roles, Burden, OptionIdFor, AlphaNeeds, TransferNeeds,
      BetaNeeds, NoShipment, NoTransfer, NoReorder, NotQualified, FINANCE_THRESHOLD;
  }

  /** The evidence a choice needs: the offer, the transfer, the qualification. */
  ghost predicate Needed(s: Snapshot, kind: Choice, need: EvidenceRequirement) {
    || (Expedites(kind) && s.alpha.Some? && need.evidenceId == s.alpha.value.receiptId
        && need.authorityScope == {"operational_quantity", "operational_date"})
    || (Transfers(kind) && need.evidenceId == s.transfer.transferId
        && need.authorityScope == {"operational_quantity", "operational_date"})
    || (kind == AlternateSource && need.evidenceId == s.betaRef && need.authorityScope == {"qualification_state"})
  }

  lemma OptionNeedsEvidence(s: Snapshot, kind: Choice, outcome: PredictedOutcome)
    ensures forall need :: need in OptionFor(s, kind, outcome).evidenceRequirements <==> Needed(s, kind, need)
  {
    hide TransferAvailable, ResequenceAvailable, Lineage, Roles, Burden, Risk, OptionIdFor, NoShipment, NoTransfer,
      NoReorder, NotQualified;
  }

  ghost predicate IsHeld(s: Snapshot, part: string, plant: string, id: string) {
    exists p :: p in s.positions && p.partId == part && p.plantId == plant && p.id == id
  }

  /** What an option is based on: the disruption, the disrupted part's positions at its plant, every order, and whatever
      the choice draws on. */
  ghost predicate Cites(s: Snapshot, kind: Choice, id: string) {
    || id == s.disruptionRef || IsHeld(s, s.disruptedPart, s.disruptedPlant, id)
    || (exists o :: o in s.orders && o.id == id)
    || (Expedites(kind) && s.alpha.Some? && id == s.alpha.value.receiptId)
    || (Transfers(kind) && (id == s.transfer.transferId || IsHeld(s, s.transfer.partId, s.transfer.source, id)))
    || (kind == AlternateSource && id == s.betaRef)
  }

  lemma PositionIdsAre(s: Snapshot, part: string, plant: string)
    ensures forall id :: id in PositionIds(s, part, plant) <==> IsHeld(s, part, plant, id)
  {
    FilterMembers(HeldAt(part, plant), s.positions);
    MapMembers(PositionId, Filter(HeldAt(part, plant), s.positions));
  }

  lemma LineageIs(s: Snapshot, kind: Choice)
    ensures forall id ::
              && (id in Lineage(s, Expedites(kind), Transfers(kind), kind == AlternateSource)
                  <==> Cites(s, kind, id))
  {
    hide PositionIds, IsHeld;
    PositionIdsAre(s, s.disruptedPart, s.disruptedPlant);
    PositionIdsAre(s, s.transfer.partId, s.transfer.source);
    MapMembers(OrderId, s.orders);
  }

  lemma OptionCites(s: Snapshot, kind: Choice, outcome: PredictedOutcome)
    ensures forall id :: id in OptionFor(s, kind, outcome).sourceDataLineage <==> Cites(s, kind, id)
  {
    hide TransferAvailable, ResequenceAvailable, Lineage, Roles, Burden, Risk, OptionIdFor, AlphaNeeds, TransferNeeds,
      BetaNeeds, NoShipment, NoTransfer, NoReorder, NotQualified, Cites;
    LineageIs(s, kind);
  }

  // --- The whole list --------------------------------------------------------------------------------

  const KINDS := [NoMitigation, Expedite, Transfer, Resequence, AlternateSource, Combined]
  const IDS := ["RL-OPTION-NO-MITIGATION", "RL-OPTION-EXPEDITE", "RL-OPTION-TRANSFER", "RL-OPTION-RESEQUENCE",
                "RL-OPTION-BETA", "RL-OPTION-COMBINED"]

  /** One option of each kind, under its id, with its own predicted outcome; the alternate source's is the baseline's.
      */
  lemma OptionsAre(s: Snapshot)
    requires ResponseOptionsOf(s).Ok?
    ensures PrioritiesComparable(s.orders)
    ensures var options := ResponseOptionsOf(s).value;
      && |options| == 6
      && forall k | 0 <= k < 6 ::
           && OptionOutcome(s, KINDS[k]).Ok?
           && options[k] == OptionFor(s, KINDS[k], OptionOutcome(s, KINDS[k]).value)
  {
    hide OptionFor, ServedOutcome, Scheduled;
  }

  lemma IdsAre(k: nat)
    requires k < 6
    ensures OptionIdFor(KINDS[k]) == IDS[k]
  {
  }
}
