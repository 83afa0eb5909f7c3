/** The canonical analysis material of a case (services/analysis/service.py:118-131 and 142-419,
    services/analysis/options.py:129-251 and 290-496, services/policy/approvals.py,
    data/domain/analysis.py:350-380). */
module AnalysisMaterial {
  import opened Basics
  import opened Ordering
  import opened Supply
  import opened Exposure
  import opened ResponseOptions
  import opened Ranking

  const MATERIAL_PLANNER := "material_planner"
  const FINANCE_APPROVER := "finance_approver"
  const QUALITY_APPROVER := "quality_approver"
  const RESPONSE_APPROVER := "response_approver"

  const FINANCE_THRESHOLD := 2_000_000

  // --- Canonical order -------------------------------------------------------------------------

  function ById<T>(key: T -> string): (T, T) -> bool { (a: T, b: T) => StrLe(key(a), key(b)) }

  function SortedById<T>(key: T -> string, xs: seq<T>): seq<T> { SortBy(ById(key), xs) }

  predicate RepeatsId<T>(key: T -> string, xs: seq<T>) { HasDuplicates(Map(key, xs)) }

  // --- The response options of a snapshot --------------------------------------------------------

  function OrderId(o: ProductionOrder): string { o.id }

  function LineId(c: CustomerOrder): string { c.lineId }

  function PositionIds(s: Snapshot, part: string, plant: string): seq<string> {
    Map(PositionId, Filter(HeldAt(part, plant), s.positions))
  }

  function Lineage(s: Snapshot, includeAlpha: bool, includeTransfer: bool, includeBeta: bool): seq<string> {
    [s.disruptionRef] + PositionIds(s, s.disruptedPart, s.disruptedPlant) + Map(OrderId, s.orders)
    + (if includeAlpha && s.alpha.Some? then [s.alpha.value.receiptId] else [])
    + (if includeTransfer then PositionIds(s, s.transfer.partId, s.transfer.source) + [s.transfer.transferId] else [])
    + (if includeBeta then [s.betaRef] else [])
  }

  function Burden(roles: seq<string>): int { |SetOf(roles) - {RESPONSE_APPROVER}| }

  function Risk(unconfirmed: int, crossPlant: int, scheduleChanges: int, actions: int): int {
    2 * unconfirmed + crossPlant + scheduleChanges + Max(0, actions - 1)
  }

  function Roles(finance: bool, quality: bool): seq<string> {
    [MATERIAL_PLANNER] + (if finance then [FINANCE_APPROVER] else []) + (if quality then [QUALITY_APPROVER] else [])
  }

  predicate TransferAvailable(s: Snapshot) {
    StockAt(s.positions, s.transfer.partId, s.transfer.source) >= s.transfer.quantity
  }

  predicate ResequenceAvailable(s: Snapshot) {
    Map(OrderId, Scheduled(s.orders, true)) != Map(OrderId, Scheduled(s.orders, false))
  }

  function AlphaNeeds(s: Snapshot): seq<EvidenceRequirement> {
    if s.alpha.Some? then [EvidenceRequirement(s.alpha.value.receiptId, {"operational_quantity", "operational_date"})]
    else []
  }

  function TransferNeeds(s: Snapshot): seq<EvidenceRequirement> {
    [EvidenceRequirement(s.transfer.transferId, {"operational_quantity", "operational_date"})]
  }

  function Option'(id: string, kind: Choice, executable: bool, predicted: Option<PredictedOutcome>, roles: seq<string>,
                   codes: seq<string>, needs: seq<EvidenceRequirement>, lineage: seq<string>, risk: int): ResponseOption
  {
    ResponseOption(id, kind, executable, kind != NoMitigation, predicted, needs, codes, roles, lineage, Burden(roles),
                   risk)
  }

  function Unless(available: bool, code: string): seq<string> { if available then [] else [code] }

  function OptionIdFor(kind: Choice): string {
    match kind
    case NoMitigation => "RL-OPTION-NO-MITIGATION"
    case Expedite => "RL-OPTION-EXPEDITE"
    case Transfer => "RL-OPTION-TRANSFER"
    case Resequence => "RL-OPTION-RESEQUENCE"
    case AlternateSource => "RL-OPTION-BETA"
    case Combined => "RL-OPTION-COMBINED"
  }

  function NoShipment(available: bool): seq<string> { Unless(available, "ALPHA_PARTIAL_SHIPMENT_UNAVAILABLE") }

  function NoTransfer(available: bool): seq<string> { Unless(available, "TRANSFER_INVENTORY_UNAVAILABLE") }

  function NoReorder(available: bool): seq<string> { Unless(available, "RESEQUENCE_NOT_APPLICABLE") }

  function NotQualified(qualified: bool): seq<string> { Unless(qualified, "QUALITY_QUALIFICATION_PENDING") }

  function BetaNeeds(s: Snapshot): seq<EvidenceRequirement> {
    [EvidenceRequirement(s.betaRef, {"qualification_state"})]
  }

  function OpenCommitments(s: Snapshot): int { if s.recoveryKnown then 0 else 1 }

  function CrossPlant(s: Snapshot): int { if s.transfer.source != s.transfer.destination then 1 else 0 }

  function OptionFor(s: Snapshot, kind: Choice, outcome: PredictedOutcome): ResponseOption {
    var alpha, move, reorder := s.alpha.Some?, TransferAvailable(s), ResequenceAvailable(s);
    match kind
    case NoMitigation =>
      Option'(OptionIdFor(kind), kind, false, Some(outcome), [], [], [], Lineage(s, false, false, false),
              Risk(0, 0, 0, 0))
    case Expedite =>
      Option'(OptionIdFor(kind), kind, alpha, Some(outcome),
              Roles(outcome.responseCost > FINANCE_THRESHOLD, false), NoShipment(alpha), AlphaNeeds(s),
              Lineage(s, true, false, false), Risk(OpenCommitments(s), 0, 0, 1))
    case Transfer =>
      Option'(OptionIdFor(kind), kind, move, Some(outcome), Roles(false, false),
              NoTransfer(move), TransferNeeds(s), Lineage(s, false, true, false), Risk(0, CrossPlant(s), 0, 1))
    case Resequence =>
      Option'(OptionIdFor(kind), kind, reorder, Some(outcome), Roles(false, false),
              NoReorder(reorder), [], Lineage(s, false, false, false), Risk(0, 0, 1, 1))
    case AlternateSource =>
      Option'(OptionIdFor(kind), kind, s.betaApproved, if s.betaApproved then Some(outcome) else None,
              Roles(false, true), NotQualified(s.betaApproved), BetaNeeds(s), Lineage(s, false, false, true),
              Risk(OpenCommitments(s), 0, 0, 1))
    case Combined =>
      Option'(OptionIdFor(kind), kind, alpha && move && reorder, Some(outcome),
              Roles(outcome.responseCost > FINANCE_THRESHOLD, false),
              NoShipment(alpha) + NoTransfer(move) + NoReorder(reorder), AlphaNeeds(s) + TransferNeeds(s),
              Lineage(s, true, true, false),
              Risk(OpenCommitments(s), CrossPlant(s), 1, 3))
  }

  /** The options, given their outcomes; the alternate source's is the one without mitigation. */
  function OptionList(s: Snapshot, none: PredictedOutcome, expedite: PredictedOutcome, transfer: PredictedOutcome,
                      resequence: PredictedOutcome, combined: PredictedOutcome): seq<ResponseOption>
  {
    [OptionFor(s, NoMitigation, none), OptionFor(s, Expedite, expedite), OptionFor(s, Transfer, transfer),
     OptionFor(s, Resequence, resequence), OptionFor(s, AlternateSource, none), OptionFor(s, Combined, combined)]
  }

  /** `evaluate_response_options`. */
  function ResponseOptionsOf(s: Snapshot): Result<seq<ResponseOption>, OutcomeError> {
    var none, expedite := OptionOutcome(s, NoMitigation), OptionOutcome(s, Expedite);
    var transfer, resequence := OptionOutcome(s, Transfer), OptionOutcome(s, Resequence);
    var combined := OptionOutcome(s, Combined);
    if none.Err? then Err(none.error)
    else if expedite.Err? then Err(expedite.error)
    else if transfer.Err? then Err(transfer.error)
    else if resequence.Err? then Err(resequence.error)
    else if combined.Err? then Err(combined.error)
    else
      Ok(OptionList(s, none.value, expedite.value, transfer.value, resequence.value, combined.value))
  }

  // --- Evidence ---------------------------------------------------------------------------------------

  datatype EvidenceItem = EvidenceItem(id: string, caseId: string, mode: string, scope: seq<string>, content: string)

  datatype Conflict = Conflict(id: string, caseId: string, evidenceIds: seq<string>, scope: seq<string>,
                               content: string)

  datatype Resolution = Resolution(conflictId: string, content: string)

  datatype ItemValidation = ItemValidation(evidenceId: string, codes: seq<string>, conflicted: bool, scope: set<string>,
                                           authoritative: bool)

  datatype EvidenceValidation = EvidenceValidation(globalCodes: seq<string>, items: seq<ItemValidation>)

  /** The validation for an id; a later entry replaces an earlier one. */
  function ValidationFor(items: seq<ItemValidation>, id: string): Option<ItemValidation> {
    if |items| == 0 then None
    else if items[|items| - 1].evidenceId == id then Some(items[|items| - 1])
    else ValidationFor(items[..|items| - 1], id)
  }

  function CodesFor(v: EvidenceValidation, need: EvidenceRequirement): seq<string> {
    match ValidationFor(v.items, need.evidenceId)
    case None => ["REQUIRED_EVIDENCE_MISSING"]
    case Some(item) =>
      item.codes
      + (if item.conflicted then ["EVIDENCE_CONFLICT_UNRESOLVED"] else [])
      + (if need.authorityScope <= item.scope then [] else ["AUTHORITY_SCOPE_MISMATCH"])
      + (if !item.authoritative && item.codes == [] && !item.conflicted then ["REQUIRED_EVIDENCE_NOT_AUTHORITATIVE"]
         else [])
  }

  function CodesForAll(v: EvidenceValidation, needs: seq<EvidenceRequirement>): seq<string> {
    if |needs| == 0 then [] else CodesForAll(v, needs[..|needs| - 1]) + CodesFor(v, needs[|needs| - 1])
  }

  /** What the evidence does to one option: its codes grow, and it stays executable only without any. */
  function WithEvidence(v: EvidenceValidation): ResponseOption -> ResponseOption {
    (o: ResponseOption) =>
      var codes := Dedupe(o.blockingCodes +
        ((if o.activeMitigation then v.globalCodes else []) + CodesForAll(v, o.evidenceRequirements)));
      o.(executable := o.executable && codes == [], blockingCodes := codes)
  }

  method AddCodes(v: EvidenceValidation, need: EvidenceRequirement, codes0: seq<string>) returns (codes: seq<string>)
    ensures codes == codes0 + CodesFor(v, need)
  {
    var found := ValidationFor(v.items, need.evidenceId);
    if found.None? { return codes0 + ["REQUIRED_EVIDENCE_MISSING"]; }
    var item := found.value;
    codes := codes0 + item.codes;
    if item.conflicted { codes := codes + ["EVIDENCE_CONFLICT_UNRESOLVED"]; }
    if !(need.authorityScope <= item.scope) { codes := codes + ["AUTHORITY_SCOPE_MISMATCH"]; }
    if !item.authoritative && item.codes == [] && !item.conflicted {
      codes := codes + ["REQUIRED_EVIDENCE_NOT_AUTHORITATIVE"];
    }
  }

  method CollectCodes(v: EvidenceValidation, o: ResponseOption) returns (codes: seq<string>)
    ensures codes == (if o.activeMitigation then v.globalCodes else []) + CodesForAll(v, o.evidenceRequirements)
  {
    hide CodesFor;
    codes := if o.activeMitigation then v.globalCodes else [];
    ghost var start := codes;
    var needs := o.evidenceRequirements;
    for i := 0 to |needs|
      invariant codes == start + CodesForAll(v, needs[..i])
    {
      assert needs[..i + 1][..i] == needs[..i];
      codes := AddCodes(v, needs[i], codes);
    }
    assert needs[..|needs|] == needs;
  }

  method ApplyEvidenceFeasibility(v: EvidenceValidation, options: seq<ResponseOption>)
    returns (adjusted: seq<ResponseOption>)
    ensures adjusted == Map(WithEvidence(v), options)
  {
    hide CodesForAll, Dedupe;
    adjusted := [];
    for i := 0 to |options|
      invariant adjusted == Map(WithEvidence(v), options[..i])
    {
      var option := options[i];
      assert options[..i + 1] == options[..i] + [option];
      MapSplit(WithEvidence(v), options[..i], [option]);
      var collected := CollectCodes(v, option);
      var codes := Dedupe(option.blockingCodes + collected);
      adjusted := adjusted + [option.(executable := option.executable && codes == [], blockingCodes := codes)];
    }
    assert options[..|options|] == options;
  }

  // --- Approvals ---------------------------------------------------------------------------------------

  datatype Authorization = Authorization(id: string, persona: string, role: string, kinds: set<Choice>,
                                         maximumCost: int, conditions: string)

  datatype Satisfaction = Satisfaction(optionId: string, role: string, persona: string, authorizationId: string,
                                       cost: int, conditions: string)

  /** The authorization covers the option; `applies` stands for its conditions on the case. */
  predicate Permits(applies: Authorization -> bool, a: Authorization, o: ResponseOption) {
    o.predicted.Some? && o.kind in a.kinds && o.predicted.value.responseCost <= a.maximumCost && applies(a)
  }

  function SatisfiedBy(applies: Authorization -> bool, auths: seq<Authorization>, o: ResponseOption,
                       role: string): seq<Satisfaction> {
    if |auths| == 0 then []
    else
      var a := auths[0];
      (if a.role == role && (role != QUALITY_APPROVER || a.persona == "RL-PERSONA-JORDAN") && Permits(applies, a, o)
       then [Satisfaction(o.id, role, a.persona, a.id, o.predicted.value.responseCost, a.conditions)] else [])
      + SatisfiedBy(applies, auths[1..], o, role)
  }

  function SatisfiedRoles(applies: Authorization -> bool, auths: seq<Authorization>, o: ResponseOption,
                          roles: seq<string>): seq<Satisfaction> {
    if |roles| == 0 then []
    else SatisfiedBy(applies, auths, o, roles[0]) + SatisfiedRoles(applies, auths, o, roles[1..])
  }

  function NotFinal(): string -> bool { (role: string) => role != RESPONSE_APPROVER }

  function Satisfactions(applies: Authorization -> bool, auths: seq<Authorization>,
                         options: seq<ResponseOption>): seq<Satisfaction> {
    if |options| == 0 then []
    else
      SatisfiedRoles(applies, auths, options[0], SortedSet(Filter(NotFinal(), options[0].prerequisiteRoles)))
      + Satisfactions(applies, auths, options[1..])
  }

  /** An executable option that needs the quality approver is blocked without that approval. */
  function WithQuality(satisfied: seq<Satisfaction>): ResponseOption -> ResponseOption {
    (o: ResponseOption) =>
      if o.executable && QUALITY_APPROVER in o.prerequisiteRoles
         && !(exists s :: s in satisfied && s.role == QUALITY_APPROVER && s.optionId == o.id)
      then o.(executable := false, blockingCodes := Dedupe(o.blockingCodes + ["QUALITY_APPROVAL_UNSATISFIED"]))
      else o
  }

  // --- The material ---------------------------------------------------------------------------------------

  datatype Case = Case(id: string, mode: string, header: string, legacy: bool)

  datatype Command = Command(
    case': Case, snapshot: Snapshot, evidence: seq<EvidenceItem>, conflicts: seq<Conflict>,
    resolutions: seq<Resolution>, authorizations: seq<Authorization>, requiredScope: seq<string>,
    startedAt: int, createdAt: int)

  /** The evidence evaluator on canonical inputs, and which authorizations apply to the case. */
  datatype Evaluators = Evaluators(
    validate: (seq<EvidenceItem>, seq<string>, seq<Conflict>, seq<Resolution>) -> EvidenceValidation,
    applies: Authorization -> bool)

  datatype EvidenceMaterial = EvidenceMaterial(item: EvidenceItem, validation: ItemValidation)

  datatype Material = Material(
    case': Case, snapshot: Snapshot, requiredScope: seq<string>, evidence: seq<EvidenceMaterial>,
    conflicts: seq<Conflict>, resolutions: seq<Resolution>, validation: EvidenceValidation,
    options: seq<ResponseOption>, authorizations: seq<Authorization>, satisfactions: seq<Satisfaction>,
    ranking: RankingResult)

  datatype AnalysisError =
    | NoOutcome(error: OutcomeError) | CreatedBeforeStart | DuplicateId(what: string) | ForeignSnapshot
    | ForeignEvidence | ForeignConflict | ConflictOutsideBundle | EvidenceUnvalidated | DuplicateOptions

  function EvidenceId(e: EvidenceItem): string { e.id }

  function ConflictId(c: Conflict): string { c.id }

  function ResolutionId(r: Resolution): string { r.conflictId }

  function AuthorizationId(a: Authorization): string { a.id }

  function NotFinance(): Authorization -> bool { (a: Authorization) => a.role != FINANCE_APPROVER }

  function StandingFor(c: Case, auths: seq<Authorization>): seq<Authorization> {
    if c.legacy then auths else Filter(NotFinance(), auths)
  }

  /** Every collection of the snapshot in the order of its stable ids. */
  function CanonicalSnapshot(s: Snapshot): Snapshot {
    s.(positions := SortedById(PositionId, s.positions), orders := SortedById(OrderId, s.orders),
       customers := SortedById(LineId, s.customers))
  }

  /** `AnalysisResponseOptionMaterial.from_option`. */
  function OptionMaterial(o: ResponseOption): ResponseOption {
    o.(predicted := match o.predicted
                    case None => None
                    case Some(p) => Some(p.(protectedCustomerOrders := SortedSet(p.protectedCustomerOrders))),
       evidenceRequirements := SortedById((n: EvidenceRequirement) => n.evidenceId, o.evidenceRequirements),
       blockingCodes := SortedSet(o.blockingCodes), prerequisiteRoles := SortedSet(o.prerequisiteRoles),
       sourceDataLineage := SortedSet(o.sourceDataLineage))
  }

  function ConflictMaterial(c: Conflict): Conflict {
    c.(evidenceIds := SortedSet(c.evidenceIds), scope := SortedSet(c.scope))
  }

  function EvidenceMaterials(v: EvidenceValidation, items: seq<EvidenceItem>): Option<seq<EvidenceMaterial>> {
    if |items| == 0 then Some([])
    else
      var own, rest := ValidationFor(v.items, items[0].id), EvidenceMaterials(v, items[1..]);
      if own.None? || rest.None? then None
      else Some([EvidenceMaterial(items[0].(scope := SortedSet(items[0].scope)), own.value)] + rest.value)
  }

  predicate SatisfactionLe(a: Satisfaction, b: Satisfaction) {
    if a.optionId != b.optionId then StrLe(a.optionId, b.optionId)
    else if a.role != b.role then StrLe(a.role, b.role)
    else if a.persona != b.persona then StrLe(a.persona, b.persona)
    else StrLe(a.authorizationId, b.authorizationId)
  }

  predicate ForeignItem(c: Case, e: EvidenceItem) { e.caseId != c.id || e.mode != c.mode }

  predicate CitesOutside(c: Conflict, evidence: seq<EvidenceItem>) {
    exists id :: id in c.evidenceIds && id !in Map(EvidenceId, evidence)
  }

  /** The checks made before anything is computed, in their order. */
  function Refused(c: Command, options: seq<ResponseOption>): Option<AnalysisError> {
    if c.createdAt < c.startedAt then Some(CreatedBeforeStart)
    else if RepeatsId(EvidenceId, c.evidence) then Some(DuplicateId("evidence"))
    else if RepeatsId(IdOf, options) then Some(DuplicateId("response option"))
    else if RepeatsId(ConflictId, c.conflicts) then Some(DuplicateId("conflict"))
    else if RepeatsId(ResolutionId, c.resolutions) then Some(DuplicateId("conflict resolution"))
    else if RepeatsId(AuthorizationId, c.authorizations) then Some(DuplicateId("standing authorization"))
    else if c.snapshot.header != c.case'.header then Some(ForeignSnapshot)
    else if exists e :: e in c.evidence && ForeignItem(c.case', e) then Some(ForeignEvidence)
    else if exists x :: x in c.conflicts && x.caseId != c.case'.id then Some(ForeignConflict)
    else if exists x :: x in c.conflicts && CitesOutside(x, c.evidence) then Some(ConflictOutsideBundle)
    else None
  }

  predicate SnapshotRepeats(s: Snapshot) {
    RepeatsId(PositionId, s.positions) || RepeatsId(OrderId, s.orders) || RepeatsId(LineId, s.customers)
  }

  /** The options after the evidence, and after the approvals. */
  function EvidencedOptions(v: EvidenceValidation, options: seq<ResponseOption>): seq<ResponseOption> {
    Map(WithEvidence(v), SortBy(IdLe, options))
  }

  function MaterialOf(eval: Evaluators, c: Command, options: seq<ResponseOption>): Result<Material, AnalysisError> {
    var evidence, conflicts := SortedById(EvidenceId, c.evidence), SortedById(ConflictId, c.conflicts);
    var resolutions := SortedById(ResolutionId, c.resolutions);
    var auths := SortedById(AuthorizationId, StandingFor(c.case', c.authorizations));
    var scope := SortedSet(c.requiredScope);
    var validation := eval.validate(evidence, scope, conflicts, resolutions);
    var evidenced := EvidencedOptions(validation, options);
    var satisfied := Satisfactions(eval.applies, auths, evidenced);
    var final := Map(WithQuality(satisfied), evidenced);
    var materials := EvidenceMaterials(validation, evidence);
    if HasDuplicates(Ids(final)) then Err(DuplicateOptions)
    else if SnapshotRepeats(c.snapshot) then Err(DuplicateId("operational"))
    else if materials.None? then Err(EvidenceUnvalidated)
    else Ok(Material(c.case', CanonicalSnapshot(c.snapshot), scope, materials.value, Map(ConflictMaterial, conflicts),
                     resolutions, validation, Map(OptionMaterial, final), auths, SortBy(SatisfactionLe, satisfied),
                     RankingOf(final)))
  }

  /** `analyze_case`: options, evidence, approvals and ranking, on canonical inputs. */
  function AnalysisOf(eval: Evaluators, c: Command): Result<Material, AnalysisError> {
    match ResponseOptionsOf(c.snapshot)
    case Err(e) => Err(NoOutcome(e))
    case Ok(options) =>
      match Refused(c, options)
      case Some(e) => Err(e)
      case None => MaterialOf(eval, c, options)
  }

  method BuildMaterial(eval: Evaluators, c: Command, options: seq<ResponseOption>)
    returns (r: Result<Material, AnalysisError>)
    ensures r == MaterialOf(eval, c, options)
  {
    hide RankingOf, Satisfactions, SnapshotRepeats, EvidenceMaterials, WithQuality, SortBy, SortedSet, StandingFor;
    var evidence, conflicts := SortedById(EvidenceId, c.evidence), SortedById(ConflictId, c.conflicts);
    var resolutions := SortedById(ResolutionId, c.resolutions);
    var auths := SortedById(AuthorizationId, StandingFor(c.case', c.authorizations));
    var scope := SortedSet(c.requiredScope);
    var validation := eval.validate(evidence, scope, conflicts, resolutions);
    var evidenced := ApplyEvidenceFeasibility(validation, SortBy(IdLe, options));
    var satisfied := Satisfactions(eval.applies, auths, evidenced);
    var final := Map(WithQuality(satisfied), evidenced);
    var ranking := RankOptions(final);
    if ranking.Err? { return Err(DuplicateOptions); }
    if SnapshotRepeats(c.snapshot) { return Err(DuplicateId("operational")); }
    var materials := EvidenceMaterials(validation, evidence);
    if materials.None? { return Err(EvidenceUnvalidated); }
    return Ok(Material(c.case', CanonicalSnapshot(c.snapshot), scope, materials.value, Map(ConflictMaterial, conflicts),
                       resolutions, validation, Map(OptionMaterial, final), auths, SortBy(SatisfactionLe, satisfied),
                       ranking.value));
  }

  method AnalyzeCase(eval: Evaluators, c: Command) returns (r: Result<Material, AnalysisError>)
    ensures r == AnalysisOf(eval, c)
  {
    hide ResponseOptionsOf, Refused, MaterialOf;
    var evaluated := ResponseOptionsOf(c.snapshot);
    if evaluated.Err? { return Err(NoOutcome(evaluated.error)); }
    var refused := Refused(c, evaluated.value);
    if refused.Some? { return Err(refused.value); }
    r := BuildMaterial(eval, c, evaluated.value);
  }
}
