/** Proposing, reviewing and finalizing a case's response (services/finance/service.py:208-371,
    services/finance/decisions.py:97-215, services/persistence/proposals.py:328-487,
    services/persistence/store.py:778-806). One case: its token, selections, review journal, decisions and
    outbox. Each operation reads the state it saw and writes on the state it finds, guarded by the token. */
module FinanceDecisions {
  import opened Basics
  import opened FinancePolicy
  import J = FinanceJournal

  datatype Analysis = Analysis(id: string, hash: string)

  /** The optimistic lock: every committed change advances the generation. */
  datatype Token = Token(generation: nat, analysis: Option<Analysis>, selection: Option<string>)

  datatype Selection = Selection(id: string, proposal: Proposal, submittedBy: Identity, submittedAt: int,
                                 reviewId: Option<string>)

  datatype Receipt = Receipt(selection: Selection, expected: Token, key: string, fingerprint: string)

  datatype Evidence = Evidence(selection: Selection, review: Option<Review>, revision: Option<int>)

  datatype Kind = Approve | Reject

  datatype Decision = Decision(id: string, kind: Kind, key: string, fingerprint: string, actor: Identity,
                               analysisId: string, optionId: Option<string>, evidence: Option<Evidence>, decidedAt: int)

  datatype OutboxEvent = OutboxEvent(decisionId: string, analysisId: string, createdAt: int)

  datatype World = World(token: Token, receipts: seq<Receipt>, journal: seq<J.Row>, decisions: seq<Decision>,
                         outbox: seq<OutboxEvent>)

  /** What is fixed: identifier parsing, the configured people, the case, the cost of each executable
      mitigation of an analysis, who may approve, which reviews agree with their analysis, and hashing. */
  datatype Environment = Environment(
    parse: UuidParser, tenant: nat, alex: nat, taylor: nat, caseId: string,
    cost: (string, string) -> Option<int>, authorized: (Identity, Kind, Option<string>) -> bool,
    bound: Review -> bool, digest: string -> string)

  datatype Operation =
    | SubmitProposal(optionId: string, expected: Token, key: string, fingerprint: string, actor: Identity, now: int,
                     selectionId: string, newReviewId: string)
    | ResolveReview(reviewId: string, approved: bool, reason: Option<string>, expected: Token, expectedRevision: int,
                    key: string, fingerprint: string, actor: Identity, now: int)
    | Finalize(kind: Kind, expected: Token, key: string, fingerprint: string, actor: Identity, now: int,
               decisionId: string)
    | PublishAnalysis(analysis: Analysis, now: int)

  function JournalEnv(env: Environment): J.Environment { J.Environment(env.parse, env.bound) }

  // --- People ------------------------------------------------------------------------------

  /** The configured tenant and person, in the fixed shape of Alex. */
  predicate IsAlex(env: Environment, actor: Identity) {
    RequireSubmitter(env.parse, actor) == Ok((env.tenant, env.alex))
  }

  predicate IsTaylor(env: Environment, actor: Identity) {
    RequireReviewer(env.parse, actor) == Ok((env.tenant, env.taylor))
  }

  /** `BoundFinanceActors`: two different people. */
  predicate DifferentPeople(env: Environment) { env.alex != env.taylor }

  // --- Reading the proposal state ------------------------------------------------------------

  function FindReceipt(receipts: seq<Receipt>, selectionId: string): (r: Option<Receipt>)
    ensures r.Some? ==> r.value in receipts && r.value.selection.id == selectionId
    ensures r.None? ==> forall x | x in receipts :: x.selection.id != selectionId
  {
    if |receipts| == 0 then None
    else if receipts[0].selection.id == selectionId then Some(receipts[0])
    else FindReceipt(receipts[1..], selectionId)
  }

  function ReceiptByKey(receipts: seq<Receipt>, key: string): (r: Option<Receipt>)
    ensures r.Some? ==> r.value in receipts && r.value.key == key
    ensures r.None? ==> forall x | x in receipts :: x.key != key
  {
    if |receipts| == 0 then None
    else if receipts[0].key == key then Some(receipts[0])
    else ReceiptByKey(receipts[1..], key)
  }

  function DecisionByKey(decisions: seq<Decision>, key: string): (r: Option<Decision>)
    ensures r.Some? ==> r.value in decisions && r.value.key == key
    ensures r.None? ==> forall x | x in decisions :: x.key != key
  {
    if |decisions| == 0 then None
    else if decisions[0].key == key then Some(decisions[0])
    else DecisionByKey(decisions[1..], key)
  }

  /** `get_revision`. */
  function RevisionAt(journal: seq<J.Row>, reviewId: string, revision: int): Option<Review> {
    if |journal| == 0 then None
    else if journal[0].review.reviewId == reviewId && journal[0].revision == revision then Some(journal[0].review)
    else RevisionAt(journal[1..], reviewId, revision)
  }

  function CurrentSelection(w: World): Option<Selection> {
    if w.token.selection.None? then None
    else match FindReceipt(w.receipts, w.token.selection.value)
      case None => None
      case Some(r) => Some(r.selection)
  }

  function ReviewOf(journal: seq<J.Row>, s: Option<Selection>): Option<J.Row> {
    if s.Some? && s.value.reviewId.Some? then J.Latest(journal, s.value.reviewId.value) else None
  }

  function CurrentReview(w: World): Option<J.Row> { ReviewOf(w.journal, CurrentSelection(w)) }

  predicate AlreadyApproved(w: World, selectionId: string) {
    exists d :: d in w.decisions && d.kind == Approve && d.evidence.Some?
      && d.evidence.value.selection.id == selectionId
  }

  // --- Writing ---------------------------------------------------------------------------------

  /** An append inside the transaction; None discards it all. */
  function Journaled(env: Environment, journal: seq<J.Row>, q: J.Request): Option<seq<J.Row>> {
    if !ValidReview(q.review) || J.ByKey(journal, q.key).Some? || J.AppendOutcome(JournalEnv(env), journal, q).Err?
    then None
    else Some(J.AppendRows(JournalEnv(env), journal, q))
  }

  /** Supersedes the review a change leaves behind, if there is one. */
  function Superseding(env: Environment, journal: seq<J.Row>, left: Option<J.Row>, now: int,
                       key: string): Option<seq<J.Row>> {
    if left.None? then Some(journal)
    else if left.value.review.status == Superseded then None
    else match Supersede(left.value.review, now)
      case Err(_) => None
      case Ok(r) => Journaled(env, journal, J.Request(r, Some(left.value.revision), key, env.digest(key)))
  }

  function Advanced(t: Token): Token { t.(generation := t.generation + 1) }

  /** `submit` and `publish`. */
  function DoSubmit(env: Environment, seen: World, w: World, op: Operation): Option<World>
    requires op.SubmitProposal?
  {
    var previous := CurrentSelection(seen);
    if !IsAlex(env, op.actor) || (exists r :: r in seen.receipts && r.key == op.key) then None
    else if seen.token != op.expected || op.expected.analysis.None? then None
    else if previous.Some? && !IsAlex(env, previous.value.submittedBy) then None
    else
      var analysis := op.expected.analysis.value;
      var cost := env.cost(analysis.id, op.optionId);
      if cost.None? then None
      else
        Publish(env, w, op, SelectionFor(env, op, analysis, cost.value))
  }

  function SelectionFor(env: Environment, op: Operation, analysis: Analysis, cost: int): Selection
    requires op.SubmitProposal?
  {
    var proposal := Proposal(env.caseId, analysis.id, analysis.hash, op.optionId, cost);
    Selection(op.selectionId, proposal, op.actor, op.now,
              if RequiresFinanceApproval(cost) then Some(op.newReviewId) else None)
  }

  function OpenReview(env: Environment, w: World, op: Operation, s: Selection): Option<seq<J.Row>>
    requires op.SubmitProposal?
  {
    if s.reviewId.None? then Some(w.journal)
    else match Submit(env.parse, s.reviewId.value, s.proposal, s.submittedBy, s.submittedAt)
      case Err(_) => None
      case Ok(review) => Journaled(env, w.journal, J.Request(review, None, "finance-pending:" + s.id, op.fingerprint))
  }

  function Publish(env: Environment, w: World, op: Operation, s: Selection): Option<World>
    requires op.SubmitProposal?
  {
    var journal := OpenReview(env, w, op, s);
    if journal.None? || w.token != op.expected then None
    else if exists r :: r in w.receipts && (r.key == op.key || r.selection.id == s.id
                                            || (s.reviewId.Some? && r.selection.reviewId == s.reviewId)) then None
    else
      var settled := Superseding(env, journal.value, ReviewOf(journal.value, CurrentSelection(w)), op.now,
                                 "selection-supersede:" + s.id);
      if settled.None? then None
      else Some(w.(token := Advanced(w.token).(selection := Some(s.id)),
                   receipts := w.receipts + [Receipt(s, op.expected, op.key, op.fingerprint)],
                   journal := settled.value))
  }

  /** `resolve`. */
  function DoResolve(env: Environment, seen: World, w: World, op: Operation): Option<World>
    requires op.ResolveReview?
  {
    var key := "finance-resolve:" + op.key;
    var latest, selection := J.Latest(seen.journal, op.reviewId), CurrentSelection(seen);
    if !IsTaylor(env, op.actor) || J.ByKey(seen.journal, key).Some? || latest.None? then None
    else if !IsAlex(env, latest.value.review.submittedBy) then None
    else if seen.token != op.expected || selection.None? || CurrentReview(seen) != latest
         || latest.value.revision != op.expectedRevision || latest.value.review.reviewId != op.reviewId
    then None
    else match Resolve(env.parse, latest.value.review, selection.value.proposal, op.actor, op.approved, op.reason,
                       op.now)
      case Err(_) => None
      case Ok(resolved) =>
        var journal := Journaled(env, w.journal, J.Request(resolved, Some(op.expectedRevision), key, op.fingerprint));
        if w.token != op.expected || journal.None? then None
        else Some(w.(token := Advanced(w.token), journal := journal.value))
  }

  /** `ProposalApprovalEvidence.validate_evidence`. */
  predicate ValidEvidence(env: Environment, e: Evidence) {
    && RequireSubmitter(env.parse, e.selection.submittedBy).Ok?
    && (RequiresFinanceApproval(e.selection.proposal.cost) <==> e.review.Some?)
    && (match e.review
        case None => e.revision.None? && e.selection.reviewId.None?
        case Some(r) =>
          && e.revision.Some? && e.revision.value > 1 && r.status == Approved
          && e.selection.reviewId == Some(r.reviewId) && r.proposal == e.selection.proposal
          && r.submittedBy == e.selection.submittedBy && r.submittedAt == e.selection.submittedAt
          && r.reviewedBy.Some? && r.reviewedAt.Some?
          && RequireReviewer(env.parse, r.reviewedBy.value).Ok?
          && FourEyes(env.parse, r.reviewedBy.value, e.selection.submittedBy))
  }

  /** `_evidence`: None where it refuses, or where the evidence does not validate. */
  function EvidenceOf(env: Environment, seen: World): Option<Evidence> {
    var s, row := CurrentSelection(seen), CurrentReview(seen);
    if s.None? || !IsAlex(env, s.value.submittedBy) then None
    else
      var e :=
        if !RequiresFinanceApproval(s.value.proposal.cost) then Some(Evidence(s.value, None, None))
        else if row.None? || row.value.review.status != Approved || row.value.review.reviewedBy.None?
             || !IsTaylor(env, row.value.review.reviewedBy.value) then None
        else Some(Evidence(s.value, Some(row.value.review), Some(row.value.revision)));
      if e.Some? && ValidEvidence(env, e.value) then e else None
  }

  /** The checks of the Decision model on its evidence. */
  predicate ValidApproval(env: Environment, d: Decision) {
    && d.kind == Approve && d.evidence.Some? && ValidEvidence(env, d.evidence.value)
    && var s := d.evidence.value.selection;
       && s.proposal.analysisId == d.analysisId && Some(s.proposal.optionId) == d.optionId
       && env.cost(d.analysisId, s.proposal.optionId) == Some(s.proposal.cost)
       && d.decidedAt >= s.submittedAt
       && RequireUuid(env.parse, d.actor.tenant) == RequireUuid(env.parse, s.submittedBy.tenant)
       && RequireUuid(env.parse, d.actor.object') == RequireUuid(env.parse, s.submittedBy.object')
       && (d.evidence.value.review.Some? && d.evidence.value.review.value.reviewedAt.Some? ==>
             d.decidedAt >= d.evidence.value.review.value.reviewedAt.value)
  }

  predicate Recorded(w: World, id: string, key: string) {
    exists d :: d in w.decisions && (d.id == id || d.key == key)
  }

  function ApprovalOf(op: Operation, e: Evidence): Decision
    requires op.Finalize? && op.expected.analysis.Some?
  {
    Decision(op.decisionId, Approve, op.key, op.fingerprint, op.actor, op.expected.analysis.value.id,
             Some(e.selection.proposal.optionId), Some(e), op.now)
  }

  function RejectionOf(op: Operation): Decision
    requires op.Finalize? && op.expected.analysis.Some?
  {
    Decision(op.decisionId, Reject, op.key, op.fingerprint, op.actor, op.expected.analysis.value.id, None, None, op.now)
  }

  function DoApprove(env: Environment, seen: World, w: World, op: Operation): Option<World>
    requires op.Finalize? && op.expected.analysis.Some?
  {
    match EvidenceOf(env, seen)
    case None => None
    case Some(e) =>
      var d := ApprovalOf(op, e);
      if AlreadyApproved(seen, e.selection.id) || !env.authorized(op.actor, Approve, d.optionId) then None
      else if !ValidApproval(env, d) || w.token != op.expected || Recorded(w, d.id, d.key) then None
      else Some(w.(token := Advanced(w.token), decisions := w.decisions + [d],
                   outbox := w.outbox + [OutboxEvent(d.id, d.analysisId, d.decidedAt)]))
  }

  function DoReject(env: Environment, seen: World, w: World, op: Operation): Option<World>
    requires op.Finalize? && op.expected.analysis.Some?
  {
    var s := CurrentSelection(seen);
    var d := RejectionOf(op);
    if (s.Some? && AlreadyApproved(seen, s.value.id)) || !env.authorized(op.actor, Reject, None) then None
    else if w.token != op.expected || Recorded(w, d.id, d.key) then None
    else if CurrentSelection(w).Some? && op.now < CurrentSelection(w).value.submittedAt then None
    else
      var settled := Superseding(env, w.journal, CurrentReview(w), op.now, "decision-withdraw:" + op.decisionId);
      if settled.None? then None
      else Some(w.(token := Advanced(w.token).(selection := None), decisions := w.decisions + [d],
                   journal := settled.value))
  }

  /** `finalize`: `_once` without its retry, which only looks up what was recorded. */
  function DoFinalize(env: Environment, seen: World, w: World, op: Operation): Option<World>
    requires op.Finalize?
  {
    var s := CurrentSelection(seen);
    if !IsAlex(env, op.actor) || (exists d :: d in seen.decisions && d.key == op.key) then None
    else if seen.token != op.expected || (s.Some? && !IsAlex(env, s.value.submittedBy)) then None
    else if op.expected.analysis.None? then None
    else if op.kind == Approve then DoApprove(env, seen, w, op) else DoReject(env, seen, w, op)
  }

  /** A new Analysis Version clears the selection and supersedes its review. */
  function DoPublishAnalysis(env: Environment, seen: World, w: World, op: Operation): Option<World>
    requires op.PublishAnalysis?
  {
    var settled := Superseding(env, w.journal, CurrentReview(seen), op.now, "analysis-supersede:" + op.analysis.id);
    if w.token != seen.token || settled.None? then None
    else Some(w.(token := Token(w.token.generation + 1, Some(op.analysis), None), journal := settled.value))
  }

  /** The operation on what it saw and what it finds; None when it commits nothing. */
  function Do(env: Environment, seen: World, w: World, op: Operation): Option<World> {
    match op
    case SubmitProposal(_, _, _, _, _, _, _, _) => DoSubmit(env, seen, w, op)
    case ResolveReview(_, _, _, _, _, _, _, _, _) => DoResolve(env, seen, w, op)
    case Finalize(_, _, _, _, _, _, _) => DoFinalize(env, seen, w, op)
    case PublishAnalysis(_, _) => DoPublishAnalysis(env, seen, w, op)
  }

  /** The operation run alone. */
  function Alone(env: Environment, w: World, op: Operation): World {
    match Do(env, w, w, op) case None => w case Some(w') => w'
  }

  // --- What the caller is told -----------------------------------------------------------------

  datatype Reply =
    | Submitted(selection: Selection, pending: Option<Review>)
    | Resolved(review: Review, revision: int)
    | Finalized(decision: Decision)
    | KeyConflict                                   // the key was used for another command
    | Refused

  function SubmissionReply(journal: seq<J.Row>, s: Selection): Reply {
    Submitted(s, if s.reviewId.Some? then RevisionAt(journal, s.reviewId.value, 1) else None)
  }

  /** A used key answers with what it stored, or refuses another command. */
  function SubmitReply(env: Environment, w: World, op: Operation): Reply
    requires op.SubmitProposal?
  {
    var stored := ReceiptByKey(w.receipts, op.key);
    if !IsAlex(env, op.actor) then Refused
    else if stored.Some? then
      if stored.value.fingerprint != op.fingerprint then KeyConflict
      else if !IsAlex(env, stored.value.selection.submittedBy) then Refused
      else SubmissionReply(w.journal, stored.value.selection)
    else match DoSubmit(env, w, w, op)
      case None => Refused
      case Some(w') =>
        var analysis := op.expected.analysis.value;
        SubmissionReply(w'.journal, SelectionFor(env, op, analysis, env.cost(analysis.id, op.optionId).value))
  }

  /** What is appended for a resolution. */
  function ResolutionRequest(env: Environment, w: World, op: Operation): Option<J.Request>
    requires op.ResolveReview?
  {
    var latest, selection := J.Latest(w.journal, op.reviewId), CurrentSelection(w);
    if latest.None? || selection.None? then None
    else match Resolve(env.parse, latest.value.review, selection.value.proposal, op.actor, op.approved, op.reason,
                       op.now)
      case Err(_) => None
      case Ok(resolved) =>
        Some(J.Request(resolved, Some(op.expectedRevision), "finance-resolve:" + op.key, op.fingerprint))
  }

  function ResolveReply(env: Environment, w: World, op: Operation): Reply
    requires op.ResolveReview?
  {
    var stored := J.ByKey(w.journal, "finance-resolve:" + op.key);
    if !IsTaylor(env, op.actor) then Refused
    else if stored.Some? then
      var review := stored.value.review;
      if stored.value.fingerprint != op.fingerprint then KeyConflict
      else if !IsAlex(env, review.submittedBy) || review.reviewedBy.None? || !IsTaylor(env, review.reviewedBy.value)
        then Refused
      else Resolved(review, stored.value.revision)
    else match DoResolve(env, w, w, op)
      case None => Refused
      case Some(_) => Resolved(ResolutionRequest(env, w, op).value.review, op.expectedRevision + 1)
  }

  function FinalizeReply(env: Environment, w: World, op: Operation): Reply
    requires op.Finalize?
  {
    var stored := DecisionByKey(w.decisions, op.key);
    if !IsAlex(env, op.actor) then Refused
    else if stored.Some? then
      var d := stored.value;
      if d.fingerprint != op.fingerprint then KeyConflict
      else if !IsAlex(env, d.actor) || (d.evidence.Some? && !IsAlex(env, d.evidence.value.selection.submittedBy))
        then Refused
      else Finalized(d)
    else if DoFinalize(env, w, w, op).None? then Refused
    else Finalized(if op.kind == Approve then ApprovalOf(op, EvidenceOf(env, w).value) else RejectionOf(op))
  }

  function ReplyTo(env: Environment, w: World, op: Operation): Reply
    requires !op.PublishAnalysis?
  {
    match op
    case SubmitProposal(_, _, _, _, _, _, _, _) => SubmitReply(env, w, op)
    case ResolveReview(_, _, _, _, _, _, _, _, _) => ResolveReply(env, w, op)
    case Finalize(_, _, _, _, _, _, _) => FinalizeReply(env, w, op)
  }

  // --- The services on one case's records ----------------------------------------------------------

  class CaseRecords {
    const env: Environment
    var token: Token
    var receipts: seq<Receipt>
    var journal: seq<J.Row>
    var decisions: seq<Decision>
    var outbox: seq<OutboxEvent>

    constructor (env: Environment)
      ensures this.env == env && State() == World(Token(0, None, None), [], [], [], [])
    {
      this.env := env;
      token, receipts, journal, decisions, outbox := Token(0, None, None), [], [], [], [];
    }

    function State(): World
      reads this
    {
      World(token, receipts, journal, decisions, outbox)
    }

    method PublishSelection(op: Operation, s: Selection) returns (ok: bool)
      requires op.SubmitProposal?
      modifies this
      ensures ok <==> Publish(env, old(State()), op, s).Some?
      ensures State() == if ok then Publish(env, old(State()), op, s).value else old(State())
    {
      hide Journaled, Submit, Superseding, J.Latest, FindReceipt;
      var pending := OpenReview(env, State(), op, s);
      if pending.None? || token != op.expected { return false; }
      if exists r :: r in receipts && (r.key == op.key || r.selection.id == s.id
                                       || (s.reviewId.Some? && r.selection.reviewId == s.reviewId)) { return false; }
      var left := ReviewOf(pending.value, CurrentSelection(State()));
      var settled := Superseding(env, pending.value, left, op.now, "selection-supersede:" + s.id);
      if settled.None? { return false; }
      journal := settled.value;
      receipts := receipts + [Receipt(s, op.expected, op.key, op.fingerprint)];
      token := Token(token.generation + 1, token.analysis, Some(s.id));
      return true;
    }

    method SubmitSelection(op: Operation) returns (reply: Reply)
      requires op.SubmitProposal?
      modifies this
      ensures reply == ReplyTo(env, old(State()), op)
      ensures State() == Alone(env, old(State()), op)
    {
      hide IsAlex, OpenReview, Publish, CurrentSelection;
      if !IsAlex(env, op.actor) { return Refused; }
      var stored := ReceiptByKey(receipts, op.key);
      if stored.Some? {
        if stored.value.fingerprint != op.fingerprint { return KeyConflict; }
        if !IsAlex(env, stored.value.selection.submittedBy) { return Refused; }
        return SubmissionReply(journal, stored.value.selection);
      }
      if token != op.expected || token.analysis.None? { return Refused; }
      var previous := CurrentSelection(State());
      if previous.Some? && !IsAlex(env, previous.value.submittedBy) { return Refused; }
      var analysis := token.analysis.value;
      var cost := env.cost(analysis.id, op.optionId);
      if cost.None? { return Refused; }
      var s := SelectionFor(env, op, analysis, cost.value);
      var published := PublishSelection(op, s);
      if !published { return Refused; }
      return SubmissionReply(journal, s);
    }

    method ResolvePending(op: Operation) returns (reply: Reply)
      requires op.ResolveReview?
      modifies this`token, this`journal
      ensures reply == ReplyTo(env, old(State()), op)
      ensures State() == Alone(env, old(State()), op)
    {
      hide IsAlex, IsTaylor, Resolve, Journaled, J.Latest, J.ByKey, CurrentSelection, CurrentReview;
      var key := "finance-resolve:" + op.key;
      if !IsTaylor(env, op.actor) { return Refused; }
      var stored := J.ByKey(journal, key);
      if stored.Some? {
        var review := stored.value.review;
        if stored.value.fingerprint != op.fingerprint { return KeyConflict; }
        if !IsAlex(env, review.submittedBy) { return Refused; }
        if review.reviewedBy.None? || !IsTaylor(env, review.reviewedBy.value) { return Refused; }
        return Resolved(review, stored.value.revision);
      }
      var latest, selection := J.Latest(journal, op.reviewId), CurrentSelection(State());
      if latest.None? || !IsAlex(env, latest.value.review.submittedBy) { return Refused; }
      if token != op.expected || selection.None? || CurrentReview(State()) != latest
         || latest.value.revision != op.expectedRevision || latest.value.review.reviewId != op.reviewId {
        return Refused;
      }
      var resolved := Resolve(env.parse, latest.value.review, selection.value.proposal, op.actor, op.approved,
                              op.reason, op.now);
      if resolved.Err? { return Refused; }
      var appended := Journaled(env, journal,
                                J.Request(resolved.value, Some(op.expectedRevision), key, op.fingerprint));
      if appended.None? { return Refused; }
      journal := appended.value;
      token := Advanced(token);
      return Resolved(resolved.value, op.expectedRevision + 1);
    }

    method ApproveCurrent(op: Operation) returns (reply: Reply)
      requires op.Finalize? && op.expected == token && op.expected.analysis.Some?
      modifies this`token, this`decisions, this`outbox
      ensures reply == if DoApprove(env, old(State()), old(State()), op).None? then Refused
        else Finalized(ApprovalOf(op, EvidenceOf(env, old(State())).value))
      ensures State() == if reply.Finalized? then DoApprove(env, old(State()), old(State()), op).value else old(State())
    {
      var evidence := EvidenceOf(env, State());
      if evidence.None? || AlreadyApproved(State(), evidence.value.selection.id) { return Refused; }
      var option := Some(evidence.value.selection.proposal.optionId);
      if !env.authorized(op.actor, Approve, option) { return Refused; }
      var d := ApprovalOf(op, evidence.value);
      if !ValidApproval(env, d) || Recorded(State(), d.id, d.key) { return Refused; }
      token := Advanced(token);
      decisions := decisions + [d];
      outbox := outbox + [OutboxEvent(d.id, d.analysisId, d.decidedAt)];
      return Finalized(d);
    }

    method RejectCurrent(op: Operation) returns (reply: Reply)
      requires op.Finalize? && op.expected == token && op.expected.analysis.Some?
      modifies this`token, this`decisions, this`journal
      ensures reply == if DoReject(env, old(State()), old(State()), op).None? then Refused
        else Finalized(RejectionOf(op))
      ensures State() == if reply.Finalized? then DoReject(env, old(State()), old(State()), op).value else old(State())
    {
      var s := CurrentSelection(State());
      if s.Some? && AlreadyApproved(State(), s.value.id) { return Refused; }
      if !env.authorized(op.actor, Reject, None) || Recorded(State(), op.decisionId, op.key) { return Refused; }
      if s.Some? && op.now < s.value.submittedAt { return Refused; }
      var settled := Superseding(env, journal, CurrentReview(State()), op.now, "decision-withdraw:" + op.decisionId);
      if settled.None? { return Refused; }
      var d := RejectionOf(op);
      token := Token(token.generation + 1, token.analysis, None);
      decisions := decisions + [d];
      journal := settled.value;
      return Finalized(d);
    }

    method FinalizeCurrent(op: Operation) returns (reply: Reply)
      requires op.Finalize?
      modifies this`token, this`decisions, this`journal, this`outbox
      ensures reply == ReplyTo(env, old(State()), op)
      ensures State() == Alone(env, old(State()), op)
    {
      hide IsAlex, EvidenceOf, DoApprove, DoReject, CurrentSelection;
      if !IsAlex(env, op.actor) { return Refused; }
      var stored := DecisionByKey(decisions, op.key);
      if stored.Some? {
        var d := stored.value;
        if d.fingerprint != op.fingerprint { return KeyConflict; }
        if !IsAlex(env, d.actor) { return Refused; }
        if d.evidence.Some? && !IsAlex(env, d.evidence.value.selection.submittedBy) { return Refused; }
        return Finalized(d);
      }
      var s := CurrentSelection(State());
      if token != op.expected || (s.Some? && !IsAlex(env, s.value.submittedBy)) || token.analysis.None? {
        return Refused;
      }
      if op.kind == Approve { reply := ApproveCurrent(op); } else { reply := RejectCurrent(op); }
    }
  }

  // --- Concurrent clients --------------------------------------------------------------------------

  datatype Client =
    | Waiting(op: Operation) | Reading(op: Operation, seen: World) | Finished(op: Operation, committed: bool)

  datatype Global = Global(world: World, clients: seq<Client>)

  /** One client's step: it reads, or it tries to commit what it decided on what it read. */
  function Step(env: Environment, g: Global, i: nat): Global {
    if i >= |g.clients| then g
    else match g.clients[i]
      case Waiting(op) => g.(clients := g.clients[i := Reading(op, g.world)])
      case Reading(op, seen) =>
        (match Do(env, seen, g.world, op)
         case None => g.(clients := g.clients[i := Finished(op, false)])
         case Some(w) => Global(w, g.clients[i := Finished(op, true)]))
      case Finished(_, _) => g
  }

  function Run(env: Environment, g: Global, schedule: seq<nat>): Global {
    if |schedule| == 0 then g else Step(env, Run(env, g, schedule[..|schedule| - 1]), schedule[|schedule| - 1])
  }
}
