/** What becomes of Taylor's verdict: the command's own verdict is what is stored and answered, nothing else stores
    one, and a well-formed verdict on the current pending review is never refused
    (services/finance/service.py:314-371, services/policy/finance_review.py:62-115). */
module VerdictLaws {
  import opened Basics
  import opened PythonText
  import opened FinancePolicy
  import opened FinanceDecisions
  import opened FinanceDecisionLaws
  import J = FinanceJournal

  // --- The command's verdict is what is recorded ------------------------------------------------

  /** The stored row for a verdict: whose it is, what it says, when and why. */
  ghost predicate RecordsVerdict(row: J.Row, op: Operation)
    requires op.ResolveReview?
  {
    && row.review.reviewId == op.reviewId && row.key == "finance-resolve:" + op.key && row.fingerprint == op.fingerprint
    && row.revision == op.expectedRevision + 1
    && (op.approved ==> row.review.status == Approved)
    && (!op.approved ==> row.review.status == Rejected)
    && row.review.reviewedBy == Some(op.actor) && row.review.reviewedAt == Some(op.now)
    && (op.reason.None? || Blank(op.reason.value) ==> row.review.reason.None?)
    && (op.reason.Some? && !Blank(op.reason.value) ==> row.review.reason == Some(Strip(op.reason.value)))
    && row.review.supersededAt.None?
  }

  lemma VerdictOf(parse: UuidParser, review: Review, current: Proposal, actor: Identity, approved: bool,
                  reason: Option<string>, now: int)
    requires Resolve(parse, review, current, actor, approved, reason, now).Ok?
    ensures var r := Resolve(parse, review, current, actor, approved, reason, now).value;
      && r.status == (if approved then Approved else Rejected)
      && r.reviewId == review.reviewId && r.proposal == review.proposal && r.submittedBy == review.submittedBy
      && r.submittedAt == review.submittedAt && r.supersededAt == review.supersededAt
      && r.reviewedBy == Some(actor) && r.reviewedAt == Some(now)
      && r.reason == (if reason.Some? && !Blank(reason.value) then Some(Strip(reason.value)) else None)
      && r.supersededAt.None?
  {
    if reason.Some? {
      StripStrips(reason.value);
      StripStrips(Strip(reason.value));
      StrippedIsFixed(Strip(reason.value));
    }
  }

  /** A committed resolution appends one row, which records the command's own verdict on the review's own terms, and
      answers with it; nothing else changes but the token. */
  lemma CommittedVerdictIsRecorded(env: Environment, w: World, op: Operation)
    requires J.Journal(JournalEnv(env), w.journal) && op.ResolveReview? && Do(env, w, w, op).Some?
    ensures var w' := Alone(env, w, op);
      && |w'.journal| == |w.journal| + 1 && w'.journal[..|w.journal|] == w.journal
      && RecordsVerdict(w'.journal[|w.journal|], op)
      && ReplyTo(env, w, op) == Resolved(w'.journal[|w.journal|].review, w'.journal[|w.journal|].revision)
      && w'.receipts == w.receipts && w'.decisions == w.decisions && w'.outbox == w.outbox
      && w'.token == w.token.(generation := w.token.generation + 1)
  {
    hide IsAlex, IsTaylor, J.Journal, CurrentReview, CurrentSelection, Resolve, Journaled, J.Latest, J.ByKey,
      RecordsVerdict;
    ResolutionIsRecorded(env, w, op);
    var q := ResolutionRequest(env, w, op).value;
    RequestRecordsVerdict(env, w, op);
    assert (w.journal + [J.RowFor(q, op.expectedRevision + 1)])[..|w.journal|] == w.journal;
  }

  lemma RequestRecordsVerdict(env: Environment, w: World, op: Operation)
    requires J.Journal(JournalEnv(env), w.journal) && op.ResolveReview? && Do(env, w, w, op).Some?
    requires ResolutionRequest(env, w, op).Some?
    ensures RecordsVerdict(J.RowFor(ResolutionRequest(env, w, op).value, op.expectedRevision + 1), op)
  {
    hide IsAlex, IsTaylor, CurrentReview, CurrentSelection, Resolve, Journaled, J.Latest, J.ByKey;
    var latest := J.Latest(w.journal, op.reviewId).value;
    VerdictOf(env.parse, latest.review, CurrentSelection(w).value.proposal, op.actor, op.approved, op.reason, op.now);
  }

  // --- Nothing else stores a verdict ------------------------------------------------------------

  /** A verdict that stands: not pending, not superseded. */
  predicate IsVerdict(row: J.Row) { row.review.status == Approved || row.review.status == Rejected }

  /** The operation is the resolution that this row records. */
  ghost predicate Gave(op: Operation, row: J.Row) { op.ResolveReview? && RecordsVerdict(row, op) }

  /** What an operation appends are verdicts only if it is the resolution that gave them. */
  ghost predicate AppendsOwnVerdicts(w: World, w': World, op: Operation) {
    w.journal <= w'.journal
    && forall k | |w.journal| <= k < |w'.journal| && IsVerdict(w'.journal[k]) :: Gave(op, w'.journal[k])
  }

  lemma SupersedingAppendsNoVerdict(env: Environment, journal: seq<J.Row>, left: Option<J.Row>, now: int, key: string)
    requires Superseding(env, journal, left, now, key).Some?
    ensures var journal' := Superseding(env, journal, left, now, key).value;
      journal <= journal' && forall k | |journal| <= k < |journal'| :: !IsVerdict(journal'[k])
  {
    hide J.ByKey, J.Latest, J.Refuse, ValidReview;
    if left.Some? { assert Supersede(left.value.review, now).value.status == Superseded; }
  }

  lemma OpeningAppendsNoVerdict(env: Environment, w: World, op: Operation, s: Selection)
    requires op.SubmitProposal? && OpenReview(env, w, op, s).Some?
    ensures var journal' := OpenReview(env, w, op, s).value;
      w.journal <= journal' && forall k | |w.journal| <= k < |journal'| :: !IsVerdict(journal'[k])
  {
    hide J.ByKey, J.Latest, J.Refuse, RequireSubmitter, ValidReview;
  }

  lemma SubmitAppendsNoVerdict(env: Environment, w: World, op: Operation)
    requires op.SubmitProposal? && DoSubmit(env, w, w, op).Some?
    ensures AppendsOwnVerdicts(w, DoSubmit(env, w, w, op).value, op)
  {
    hide Superseding, OpenReview, IsAlex, CurrentSelection;
    var analysis := op.expected.analysis.value;
    var s := SelectionFor(env, op, analysis, env.cost(analysis.id, op.optionId).value);
    var pending := OpenReview(env, w, op, s).value;
    OpeningAppendsNoVerdict(env, w, op, s);
    SupersedingAppendsNoVerdict(env, pending, ReviewOf(pending, CurrentSelection(w)), op.now,
                                "selection-supersede:" + s.id);
  }

  lemma OperationAppendsOwnVerdicts(env: Environment, w: World, op: Operation)
    requires J.Journal(JournalEnv(env), w.journal)
    ensures AppendsOwnVerdicts(w, Alone(env, w, op), op)
  {
    hide DoSubmit, DoResolve, Superseding, IsAlex, EvidenceOf, ValidApproval, CurrentReview, CurrentSelection,
      IsVerdict, RecordsVerdict, J.Journal;
    if Do(env, w, w, op).Some? {
      match op {
        case SubmitProposal(_, _, _, _, _, _, _, _) => SubmitAppendsNoVerdict(env, w, op);
        case ResolveReview(_, _, _, _, _, _, _, _, _) => CommittedVerdictIsRecorded(env, w, op);
        case Finalize(_, _, _, _, _, _, _) =>
          if op.kind == Reject {
            SupersedingAppendsNoVerdict(env, w.journal, CurrentReview(w), op.now, "decision-withdraw:" + op.decisionId);
          }
        case PublishAnalysis(_, _) =>
          SupersedingAppendsNoVerdict(env, w.journal, CurrentReview(w), op.now, "analysis-supersede:" + op.analysis.id);
      }
    }
  }

  ghost predicate GivenBy(ops: seq<Operation>, row: J.Row) { exists k :: 0 <= k < |ops| && Gave(ops[k], row) }

  lemma {:induction false} VerdictsAreGiven(env: Environment, w: World, ops: seq<Operation>)
    requires Sound(env, w) && forall row | row in w.journal :: !IsVerdict(row)
    ensures forall row | row in AloneInTurn(env, w, ops).journal && IsVerdict(row) :: GivenBy(ops, row)
  {
    hide Sound, Alone, Gave, IsVerdict;
    if |ops| > 0 {
      var front, op := ops[..|ops| - 1], ops[|ops| - 1];
      var before := AloneInTurn(env, w, front);
      VerdictsAreGiven(env, w, front);
      AloneInTurnKeeps(env, w, front);
      SoundJournal(env, before);
      OperationAppendsOwnVerdicts(env, before, op);
      var after := AloneInTurn(env, w, ops);
      forall row | row in after.journal && IsVerdict(row) ensures GivenBy(ops, row) {
        var k :| 0 <= k < |after.journal| && after.journal[k] == row;
        if k < |before.journal| {
          assert row == before.journal[k];
          var i :| 0 <= i < |front| && Gave(front[i], row);
          assert Gave(ops[i], row);
        } else {
          assert Gave(ops[|ops| - 1], row);
        }
      }
    }
  }

  lemma SoundJournal(env: Environment, w: World)
    requires Sound(env, w)
    ensures J.Journal(JournalEnv(env), w.journal)
  {
  }

  /** Client i of the run has committed its operation. */
  ghost predicate CommittedIn(g: Global, end: Global, i: nat) {
    i < |g.clients| && i < |end.clients| && end.clients[i] == Finished(g.clients[i].op, true)
  }

  /** In every run a stored approval was sent as one, and a stored rejection as one: by a resolution that committed, of
      that review, by that reviewer, at that time. */
  lemma EveryVerdictWasGiven(env: Environment, g: Global, schedule: seq<nat>)
    requires AllWaiting(g) && g.world == EMPTY
    ensures var end := Run(env, g, schedule);
      forall row | row in end.world.journal && (row.review.status == Approved || row.review.status == Rejected) ::
        exists i: nat :: CommittedIn(g, end, i) && Gave(g.clients[i].op, row)
  {
    hide Sound, AloneInTurn, AllCommit, Gave, Run, Fresh;
    EveryRunIsSequential(env, g, schedule);
    EmptyIsSound(env);
    var end, order := Run(env, g, schedule), Committers(env, g, schedule);
    VerdictsAreGiven(env, EMPTY, OperationsOf(g, order));
    forall row | row in end.world.journal && IsVerdict(row)
      ensures exists i: nat :: CommittedIn(g, end, i) && Gave(g.clients[i].op, row)
    {
      var k :| 0 <= k < |order| && Gave(OperationsOf(g, order)[k], row);
      assert order[k] in order && CommittedIn(g, end, order[k]) && Gave(g.clients[order[k]].op, row);
    }
  }

  /** So in every run an approved proposal that costs more than 20,000 USD had its review approved, in a command of
      another person of the submitter's tenant, who sent it as an approval. */
  lemma ExpensiveApprovalsWereVoted(env: Environment, g: Global, schedule: seq<nat>, d: Decision)
    requires AllWaiting(g) && g.world == EMPTY && d in Run(env, g, schedule).world.decisions && d.kind == Approve
    ensures d.evidence.Some?
    ensures d.evidence.value.selection.proposal.cost > 2_000_000 ==>
      var end, s := Run(env, g, schedule), d.evidence.value.selection;
      exists i: nat :: CommittedIn(g, end, i)
        && g.clients[i].op.ResolveReview? && g.clients[i].op.approved && Some(g.clients[i].op.reviewId) == s.reviewId
        && s.submittedAt <= g.clients[i].op.now <= d.decidedAt
        && OtherPerson(env, g.clients[i].op.actor, s.submittedBy)
  {
    hide Sound, Run, ValidEvidence, FourEyes;
    var end := Run(env, g, schedule);
    ApprovalsAreJustified(env, g, schedule);
    assert Justified(env, end.world, d);
    var e := d.evidence.value;
    if e.selection.proposal.cost > 2_000_000 {
      var r := e.review.value;
      EveryVerdictWasGiven(env, g, schedule);
      StoredIsRow(end.world.journal, r, e.revision.value);
      var row :| row in end.world.journal && row.review == r;
      var i: nat :| CommittedIn(g, end, i) && Gave(g.clients[i].op, row);
      EvidenceNamesItsReview(env, g, schedule, d);
      FourEyesAreOthers(env, g.clients[i].op.actor, e.selection.submittedBy);
    }
  }

  /** Two people of one tenant, told apart by their parsed identifiers. */
  ghost predicate OtherPerson(env: Environment, a: Identity, b: Identity) {
    && a.tenant.Some? && b.tenant.Some? && a.object'.Some? && b.object'.Some?
    && env.parse(a.tenant.value).Some? && env.parse(a.tenant.value) == env.parse(b.tenant.value)
    && env.parse(a.object'.value).Some? && env.parse(b.object'.value).Some?
    && env.parse(a.object'.value) != env.parse(b.object'.value)
  }

  lemma FourEyesAreOthers(env: Environment, a: Identity, b: Identity)
    requires FourEyes(env.parse, a, b)
    ensures OtherPerson(env, a, b)
  {
  }

  lemma StoredIsRow(journal: seq<J.Row>, r: Review, revision: int)
    requires Stored(journal, r, revision)
    ensures exists row :: row in journal && row.review == r
  {
    J.HistoryMembers(journal, r.reviewId);
    var row :| row in J.History(journal, r.reviewId) && row.review == r && row.revision == revision;
    assert row in journal;
  }

  lemma EvidenceNamesItsReview(env: Environment, g: Global, schedule: seq<nat>, d: Decision)
    requires AllWaiting(g) && g.world == EMPTY && d in Run(env, g, schedule).world.decisions && d.kind == Approve
    ensures d.evidence.Some?
    ensures d.evidence.value.review.Some? ==>
      d.evidence.value.selection.reviewId == Some(d.evidence.value.review.value.reviewId)
  {
    hide Run, Chosen, Stored, J.Journal;
    EveryRunIsSound(env, g, schedule);
    assert SoundDecision(env, Run(env, g, schedule).world, d);
  }

  // --- A well-formed verdict on the current pending review commits -----------------------------------

  /** What binds a review to its analysis is its proposal. */
  ghost predicate BoundByProposal(env: Environment) {
    forall r: Review, s: Review | r.proposal == s.proposal :: env.bound(r) == env.bound(s)
  }

  /** A reason of at most 4000 characters; a rejection has one that is not blank. */
  ghost predicate LegalReason(approved: bool, reason: Option<string>) {
    && (reason.Some? ==> |Strip(reason.value)| <= 4000)
    && (!approved ==> reason.Some? && !Blank(reason.value))
  }

  lemma ResolveSucceedsWhen(env: Environment, review: Review, actor: Identity, approved: bool, reason: Option<string>,
                            now: int)
    requires DifferentPeople(env) && ValidReview(review) && IsAlex(env, review.submittedBy) && IsTaylor(env, actor)
    ensures Resolve(env.parse, review, review.proposal, actor, approved, reason, now).Ok? <==>
      review.status == Pending && review.submittedAt <= now && LegalReason(approved, reason)
  {
    ResolutionIsValid(env.parse, review, review.proposal, actor, approved, reason, now);
    ConfiguredFourEyes(env, review.submittedBy, actor);
    if reason.Some? {
      StripStrips(reason.value);
      StripStrips(Strip(reason.value));
      StrippedIsFixed(Strip(reason.value));
    }
  }

  /** Resolving with the recorded reason records the same. */
  lemma ResolveIsStable(parse: UuidParser, review: Review, actor: Identity, approved: bool, reason: Option<string>,
                        now: int)
    requires Resolve(parse, review, review.proposal, actor, approved, reason, now).Ok?
    ensures var r := Resolve(parse, review, review.proposal, actor, approved, reason, now).value;
      Resolve(parse, review, review.proposal, actor, approved, r.reason, now) == Ok(r)
  {
    if reason.Some? {
      StripStrips(reason.value);
      StripStrips(Strip(reason.value));
      StrippedIsFixed(Strip(reason.value));
    }
  }

  lemma VerdictIsAccepted(env: Environment, previous: Review, actor: Identity, approved: bool, reason: Option<string>,
                          now: int)
    requires ValidReview(previous) && previous.status == Pending && env.bound(previous) && BoundByProposal(env)
    requires Resolve(env.parse, previous, previous.proposal, actor, approved, reason, now).Ok?
    ensures var r := Resolve(env.parse, previous, previous.proposal, actor, approved, reason, now).value;
      ValidReview(r) && J.RefuseNext(JournalEnv(env), previous, r).None?
  {
    ResolutionIsValid(env.parse, previous, previous.proposal, actor, approved, reason, now);
    VerdictOf(env.parse, previous, previous.proposal, actor, approved, reason, now);
    ResolveIsStable(env.parse, previous, actor, approved, reason, now);
    hide Resolve, ValidReview, FourEyes;
  }

  lemma PrefixedIsNotBlank(key: string)
    ensures !Blank("finance-resolve:" + key)
  {
    assert ("finance-resolve:" + key)[0] in "finance-resolve:" + key;
  }

  lemma VerdictIsJournaled(env: Environment, w: World, op: Operation, q: J.Request)
    requires J.Journal(JournalEnv(env), w.journal) && op.ResolveReview? && ResolutionRequest(env, w, op) == Some(q)
    requires J.Latest(w.journal, op.reviewId).Some?
    requires J.Latest(w.journal, op.reviewId).value.revision == op.expectedRevision
    requires q.review.reviewId == op.reviewId && ValidReview(q.review)
    requires J.RefuseNext(JournalEnv(env), J.Latest(w.journal, op.reviewId).value.review, q.review).None?
    ensures Journaled(env, w.journal, q).Some? <==> J.ByKey(w.journal, q.key).None? && IsDigest(op.fingerprint)
  {
    hide J.RefuseNext, ValidReview, J.ByKey, IsDigest, Resolve, J.Journal, CurrentSelection;
    PrefixedIsNotBlank(op.key);
    J.StoryOfAReview(JournalEnv(env), w.journal, op.reviewId);
    LatestIsStored(env, w.journal, op.reviewId);
  }

  /** The review a verdict is asked for is the current one, pending, and as the command expects it. */
  ghost predicate AwaitsVerdict(w: World, op: Operation)
    requires op.ResolveReview?
  {
    && op.expected == w.token && CurrentReview(w).Some?
    && CurrentReview(w).value.review.reviewId == op.reviewId && CurrentReview(w).value.revision == op.expectedRevision
    && CurrentReview(w).value.review.status == Pending && CurrentReview(w).value.review.submittedAt <= op.now
  }

  lemma CurrentReviewIsLatest(env: Environment, w: World)
    requires Sound(env, w) && CurrentReview(w).Some?
    ensures CurrentSelection(w).Some?
    ensures var row, s := CurrentReview(w).value, CurrentSelection(w).value;
      && J.Latest(w.journal, row.review.reviewId) == Some(row) && ValidReview(row.review) && env.bound(row.review)
      && row.review.proposal == s.proposal && row.review.submittedBy == s.submittedBy && IsAlex(env, s.submittedBy)
  {
    hide J.Journal, SoundDecisions, IsAlex, ValidReview;
    var s := CurrentSelection(w).value;
    CurrentIsChosen(w);
    assert SoundSelection(env, w.journal, s);
    LatestKeepsTerms(env, w.journal, s);
    J.StoryOfAReview(JournalEnv(env), w.journal, s.reviewId.value);
    LatestIsStored(env, w.journal, s.reviewId.value);
  }

  /** In a sound state a verdict commits exactly when the configured reviewer gives it, under an unused key, on the
      current pending review as expected, not before its submission, with a legal reason. */
  lemma VerdictCommitsWhen(env: Environment, w: World, op: Operation)
    requires DifferentPeople(env) && BoundByProposal(env) && Sound(env, w) && op.ResolveReview?
    ensures Do(env, w, w, op).Some? <==>
      && IsTaylor(env, op.actor) && AwaitsVerdict(w, op) && LegalReason(op.approved, op.reason)
      && IsDigest(op.fingerprint) && forall row | row in w.journal :: row.key != "finance-resolve:" + op.key
  {
    hide Sound, J.Journal, IsAlex, IsTaylor, ValidReview, Resolve, Journaled, CurrentReview, CurrentSelection, J.Latest,
      J.ByKey, LegalReason, IsDigest, J.RefuseNext;
    SoundJournal(env, w);
    J.ByKeyFinds(w.journal, "finance-resolve:" + op.key);
    if CurrentReview(w).Some? { CurrentReviewIsLatest(env, w); }
    if IsTaylor(env, op.actor) && CurrentReview(w).Some? && CurrentReview(w).value.review.reviewId == op.reviewId {
      var row := CurrentReview(w).value;
      ResolveSucceedsWhen(env, row.review, op.actor, op.approved, op.reason, op.now);
      if row.review.status == Pending && row.review.submittedAt <= op.now && LegalReason(op.approved, op.reason) {
        VerdictIsAccepted(env, row.review, op.actor, op.approved, op.reason, op.now);
        VerdictOf(env.parse, row.review, row.review.proposal, op.actor, op.approved, op.reason, op.now);
        if row.revision == op.expectedRevision {
          VerdictIsJournaled(env, w, op, ResolutionRequest(env, w, op).value);
        }
      }
    }
  }
}
