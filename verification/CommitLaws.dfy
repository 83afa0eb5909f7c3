/** What submissions, finalizations and new analyses record on the case, and exactly when they do
    (services/finance/service.py:208-312, services/finance/decisions.py:97-215,
    services/persistence/proposals.py:328-487, services/persistence/store.py:778-806). */
module CommitLaws {
  import opened Basics
  import opened PythonText
  import opened FinancePolicy
  import opened FinanceDecisions
  import opened FinanceDecisionLaws
  import opened VerdictLaws
  import J = FinanceJournal

  // --- The review a change leaves behind ---------------------------------------------------------

  ghost predicate KeyUnused(journal: seq<J.Row>, key: string) { forall row | row in journal :: row.key != key }

  /** Hashes are digests. */
  ghost predicate HashesAreDigests(env: Environment) { forall text :: IsDigest(env.digest(text)) }

  /** The next revision of the same review: superseded now, its terms and its verdict as they were. */
  ghost predicate SupersedesRow(env: Environment, row: J.Row, left: J.Row, now: int, key: string) {
    row == J.Row(left.review.(status := Superseded, supersededAt := Some(now)), left.revision + 1, key, env.digest(key))
  }

  /** The journal with the review left behind, if there is one, superseded. */
  ghost predicate Leaves(env: Environment, journal: seq<J.Row>, journal': seq<J.Row>, left: Option<J.Row>, now: int,
                         key: string) {
    match left
    case None => journal' == journal
    case Some(row) =>
      && |journal'| == |journal| + 1 && journal <= journal'
      && SupersedesRow(env, journal'[|journal|], row, now, key)
  }

  /** It is not superseded yet, nor ahead of time, and the key is unused. */
  ghost predicate CanLeave(journal: seq<J.Row>, left: Option<J.Row>, now: int, key: string) {
    match left
    case None => true
    case Some(row) =>
      && row.review.status != Superseded && row.review.submittedAt <= now
      && (row.review.reviewedAt.Some? ==> row.review.reviewedAt.value <= now) && KeyUnused(journal, key)
  }

  lemma SupersededAs(review: Review, now: int)
    requires ValidReview(review) && review.status != Superseded
    ensures Supersede(review, now).Ok?
        <==> review.submittedAt <= now && (review.reviewedAt.Some? ==> review.reviewedAt.value <= now)
    ensures Supersede(review, now).Ok? ==>
      Supersede(review, now).value == review.(status := Superseded, supersededAt := Some(now))
  {
    SupersessionIsValid(review, now);
    if review.reason.Some? {
      StripStrips(review.reason.value);
      StrippedIsFixed(review.reason.value);
    }
  }

  lemma SupersessionIsAccepted(env: Environment, previous: Review, now: int)
    requires ValidReview(previous) && previous.status != Superseded && env.bound(previous) && BoundByProposal(env)
    requires Supersede(previous, now).Ok?
    ensures var r := Supersede(previous, now).value;
      ValidReview(r) && J.RefuseNext(JournalEnv(env), previous, r).None?
  {
    SupersededAs(previous, now);
    SupersessionIsValid(previous, now);
    hide Supersede, ValidReview;
  }

  lemma SupersedingIs(env: Environment, journal: seq<J.Row>, id: string, left: J.Row, now: int, key: string)
    requires J.Journal(JournalEnv(env), journal) && HashesAreDigests(env) && BoundByProposal(env) && !Blank(key)
    requires J.Latest(journal, id) == Some(left) && left.review.reviewId == id && left.revision > 0
    requires ValidReview(left.review) && env.bound(left.review)
    ensures Superseding(env, journal, Some(left), now, key).Some? <==> CanLeave(journal, Some(left), now, key)
    ensures Superseding(env, journal, Some(left), now, key).Some? ==>
      Leaves(env, journal, Superseding(env, journal, Some(left), now, key).value, Some(left), now, key)
  {
    hide J.Journal, J.RefuseNext, ValidReview, Supersede, IsDigest, Blank, J.ByKey, J.Latest;
    J.ByKeyFinds(journal, key);
    if left.review.status != Superseded {
      SupersededAs(left.review, now);
      if Supersede(left.review, now).Ok? { SupersessionIsAccepted(env, left.review, now); }
    }
  }

  lemma PrefixIsNotBlank(prefix: string, rest: string)
    requires |prefix| > 0 && !IsSpace(prefix[0])
    ensures !Blank(prefix + rest)
  {
    assert (prefix + rest)[0] in prefix + rest;
  }

  /** The current selection's review can be left exactly when `CanLeave` says so, and is then superseded. */
  lemma CurrentIsLeft(env: Environment, w: World, journal: seq<J.Row>, now: int, key: string)
    requires HashesAreDigests(env) && BoundByProposal(env) && Sound(env, w) && !Blank(key)
    requires Grows(env, w.journal, journal)
    requires CurrentReview(w).Some? ==>
      J.Latest(journal, CurrentReview(w).value.review.reviewId) == CurrentReview(w)
    ensures var settled := Superseding(env, journal, CurrentReview(w), now, key);
      && (settled.Some? <==> CanLeave(journal, CurrentReview(w), now, key))
      && (settled.Some? ==> Leaves(env, journal, settled.value, CurrentReview(w), now, key))
  {
    hide J.Journal, SoundReceipts, SoundDecisions, CanLeave, Leaves, Superseding, Blank, HashesAreDigests,
      CurrentReview;
    if CurrentReview(w).Some? {
      var row := CurrentReview(w).value;
      CurrentReviewIsLatest(env, w);
      RevisionsCount(env, w.journal, row.review.reviewId);
      SupersedingIs(env, journal, row.review.reviewId, row, now, key);
    } else {
      NothingIsLeft(env, journal, now, key);
    }
  }

  lemma RevisionsCount(env: Environment, journal: seq<J.Row>, id: string)
    requires J.Journal(JournalEnv(env), journal) && J.Latest(journal, id).Some?
    ensures J.Latest(journal, id).value.revision > 0
  {
    J.StoryOfAReview(JournalEnv(env), journal, id);
    assert J.Legal(JournalEnv(env), J.History(journal, id));
    J.LatestIsLast(JournalEnv(env), journal, id);
  }

  lemma NothingIsLeft(env: Environment, journal: seq<J.Row>, now: int, key: string)
    ensures Superseding(env, journal, None, now, key) == Some(journal) && CanLeave(journal, None, now, key)
    ensures Leaves(env, journal, journal, None, now, key)
  {
  }

  // --- A new analysis ----------------------------------------------------------------------------------

  /** A new analysis is published exactly when the review it leaves behind can be superseded; it clears the selection,
      advances the token, supersedes that review and changes nothing else. */
  lemma AnalysisCommitsWhen(env: Environment, w: World, op: Operation)
    requires HashesAreDigests(env) && BoundByProposal(env) && Sound(env, w) && op.PublishAnalysis?
    ensures var key, done := "analysis-supersede:" + op.analysis.id, Do(env, w, w, op);
      && (done.Some? <==> CanLeave(w.journal, CurrentReview(w), op.now, key))
      && (done.Some? ==>
            && done.value.token == Token(w.token.generation + 1, Some(op.analysis), None)
            && Leaves(env, w.journal, done.value.journal, CurrentReview(w), op.now, key)
            && done.value.receipts == w.receipts && done.value.decisions == w.decisions
            && done.value.outbox == w.outbox)
  {
    hide Sound, CanLeave, Leaves, Superseding, CurrentReview, J.Journal, Do;
    SoundJournal(env, w);
    AnalysisSteps(env, w, op);
    PrefixIsNotBlank("analysis-supersede:", op.analysis.id);
    if CurrentReview(w).Some? { CurrentReviewIsLatest(env, w); }
    CurrentIsLeft(env, w, w.journal, op.now, "analysis-supersede:" + op.analysis.id);
  }

  lemma AnalysisSteps(env: Environment, w: World, op: Operation)
    requires op.PublishAnalysis?
    ensures var done, key := Do(env, w, w, op), "analysis-supersede:" + op.analysis.id;
      var settled := Superseding(env, w.journal, CurrentReview(w), op.now, key);
      && (done.Some? <==> settled.Some?)
      && (done.Some? ==>
            done.value == w.(token := Token(w.token.generation + 1, Some(op.analysis), None), journal := settled.value))
  {
    hide Superseding, CurrentReview;
  }

  // --- A rejection ---------------------------------------------------------------------------------------

  /** No decision has this id or this key. */
  ghost predicate DecisionUnused(w: World, op: Operation)
    requires op.Finalize?
  {
    forall d | d in w.decisions :: d.id != op.decisionId && d.key != op.key
  }

  /** The selection has an approval. */
  ghost predicate IsApproved(w: World, s: Selection) {
    exists d :: d in w.decisions && d.kind == Approve && d.evidence.Some? && d.evidence.value.selection.id == s.id
  }

  lemma RejectionSteps(env: Environment, w: World, op: Operation)
    requires op.Finalize? && op.kind == Reject
    ensures var s, key := CurrentSelection(w), "decision-withdraw:" + op.decisionId;
      var settled := Superseding(env, w.journal, CurrentReview(w), op.now, key);
      && (Do(env, w, w, op).Some? <==>
            && IsAlex(env, op.actor) && op.expected == w.token && w.token.analysis.Some? && DecisionUnused(w, op)
            && env.authorized(op.actor, Reject, None)
            && (s.Some? ==>
                  IsAlex(env, s.value.submittedBy) && !IsApproved(w, s.value) && s.value.submittedAt <= op.now)
            && settled.Some?)
      && (Do(env, w, w, op).Some? ==>
            Alone(env, w, op) == w.(token := Token(w.token.generation + 1, w.token.analysis, None),
                                    decisions := w.decisions + [RejectionOf(op)], journal := settled.value))
  {
    hide Superseding, CurrentReview, CurrentSelection, IsAlex;
  }

  /** A rejection commits exactly when Alex sends it against the current token, under an unused key and id, on an
      analysis, as one authorized to, and the selection, if there is one, is not approved nor ahead of time and its
      review can be superseded. */
  lemma RejectionCommitsWhen(env: Environment, w: World, op: Operation)
    requires HashesAreDigests(env) && BoundByProposal(env) && Sound(env, w) && op.Finalize? && op.kind == Reject
    ensures var s := CurrentSelection(w);
      Do(env, w, w, op).Some? <==>
        && IsAlex(env, op.actor) && op.expected == w.token && w.token.analysis.Some? && DecisionUnused(w, op)
        && env.authorized(op.actor, Reject, None)
        && (s.Some? ==> !IsApproved(w, s.value) && s.value.submittedAt <= op.now)
        && CanLeave(w.journal, CurrentReview(w), op.now, "decision-withdraw:" + op.decisionId)
  {
    hide Sound, CanLeave, Leaves, Superseding, CurrentReview, CurrentSelection, J.Journal, IsAlex, Do, IsApproved;
    SoundJournal(env, w);
    PrefixIsNotBlank("decision-withdraw:", op.decisionId);
    if CurrentReview(w).Some? { CurrentReviewIsLatest(env, w); }
    CurrentIsLeft(env, w, w.journal, op.now, "decision-withdraw:" + op.decisionId);
    if CurrentSelection(w).Some? { CurrentIsAlexs(env, w); }
    RejectionSteps(env, w, op);
  }

  /** A committed rejection records the decision and answers with it, withdraws the selection, supersedes its review,
      and says nothing in the outbox. */
  lemma RejectionRecords(env: Environment, w: World, op: Operation)
    requires HashesAreDigests(env) && BoundByProposal(env) && Sound(env, w) && op.Finalize? && op.kind == Reject
    requires Do(env, w, w, op).Some?
    ensures w.token.analysis.Some?
    ensures var w' := Alone(env, w, op);
      var d := Decision(op.decisionId, Reject, op.key, op.fingerprint, op.actor, w.token.analysis.value.id, None, None,
                        op.now);
      && w'.token == Token(w.token.generation + 1, w.token.analysis, None) && w'.decisions == w.decisions + [d]
      && Leaves(env, w.journal, w'.journal, CurrentReview(w), op.now, "decision-withdraw:" + op.decisionId)
      && w'.receipts == w.receipts && w'.outbox == w.outbox && ReplyTo(env, w, op) == Finalized(d)
  {
    hide Sound, CanLeave, Leaves, Superseding, CurrentReview, CurrentSelection, J.Journal, IsAlex, Do, Alone, ReplyTo;
    SoundJournal(env, w);
    PrefixIsNotBlank("decision-withdraw:", op.decisionId);
    if CurrentReview(w).Some? { CurrentReviewIsLatest(env, w); }
    CurrentIsLeft(env, w, w.journal, op.now, "decision-withdraw:" + op.decisionId);
    RejectionSteps(env, w, op);
    RejectionIsAnswered(env, w, op);
  }

  lemma RejectionIsAnswered(env: Environment, w: World, op: Operation)
    requires op.Finalize? && op.kind == Reject && Do(env, w, w, op).Some?
    ensures ReplyTo(env, w, op) == Finalized(RejectionOf(op))
  {
    hide Superseding, CurrentReview, CurrentSelection, IsAlex, DoReject;
  }

  lemma CurrentIsAlexs(env: Environment, w: World)
    requires Sound(env, w) && CurrentSelection(w).Some?
    ensures IsAlex(env, CurrentSelection(w).value.submittedBy)
    ensures SoundSelection(env, w.journal, CurrentSelection(w).value)
  {
    hide J.Journal, SoundDecisions, IsAlex;
    CurrentIsChosen(w);
  }

  // --- An approval ------------------------------------------------------------------------------------------

  /** The selection's latest review stands approved by Taylor, and not ahead of time. */
  ghost predicate TaylorApproved(env: Environment, w: World, now: int) {
    && CurrentReview(w).Some?
    && var r := CurrentReview(w).value.review;
       && r.status == Approved && r.reviewedBy.Some? && IsTaylor(env, r.reviewedBy.value)
       && r.reviewedAt.Some? && r.reviewedAt.value <= now
  }

  /** The current selection is of the current analysis, at the cost the analysis still names. */
  predicate Current(env: Environment, w: World, s: Selection) {
    && w.token.analysis.Some? && s.proposal.analysisId == w.token.analysis.value.id
    && env.cost(s.proposal.analysisId, s.proposal.optionId) == Some(s.proposal.cost)
  }

  lemma EvidenceIs(env: Environment, w: World)
    requires EvidenceOf(env, w).Some?
    ensures CurrentSelection(w).Some?
    ensures var s := CurrentSelection(w).value;
      EvidenceOf(env, w).value ==
        if s.proposal.cost > 2_000_000 && CurrentReview(w).Some?
        then Evidence(s, Some(CurrentReview(w).value.review), Some(CurrentReview(w).value.revision))
        else Evidence(s, None, None)
  {
    hide ValidEvidence, CurrentReview, CurrentSelection, IsAlex, IsTaylor;
  }

  lemma AlexIsAlex(env: Environment, a: Identity, b: Identity)
    requires IsAlex(env, a) && IsAlex(env, b)
    ensures RequireUuid(env.parse, a.tenant) == RequireUuid(env.parse, b.tenant)
    ensures RequireUuid(env.parse, a.object') == RequireUuid(env.parse, b.object')
  {
  }

  lemma ApprovalIsValid(env: Environment, w: World, op: Operation, e: Evidence)
    requires op.Finalize? && op.expected.analysis.Some? && EvidenceOf(env, w) == Some(e)
    requires op.expected == w.token && IsAlex(env, op.actor) && IsAlex(env, e.selection.submittedBy)
    ensures ValidApproval(env, ApprovalOf(op, e)) <==>
      && Current(env, w, e.selection) && e.selection.submittedAt <= op.now
      && (e.review.Some? && e.review.value.reviewedAt.Some? ==> e.review.value.reviewedAt.value <= op.now)
  {
    AlexIsAlex(env, op.actor, e.selection.submittedBy);
    assert ValidEvidence(env, e) by { EvidenceIsValid(env, w); }
    hide EvidenceOf, ValidEvidence, IsAlex;
  }

  lemma EvidenceIsValid(env: Environment, w: World)
    requires EvidenceOf(env, w).Some?
    ensures ValidEvidence(env, EvidenceOf(env, w).value)
  {
    hide ValidEvidence, CurrentReview, CurrentSelection, IsAlex, IsTaylor;
  }

  lemma ApprovalSteps(env: Environment, w: World, op: Operation)
    requires op.Finalize? && op.kind == Approve
    ensures var e, s := EvidenceOf(env, w), CurrentSelection(w);
      && (Do(env, w, w, op).Some? <==>
            && IsAlex(env, op.actor) && op.expected == w.token && w.token.analysis.Some? && DecisionUnused(w, op)
            && (s.Some? ==> IsAlex(env, s.value.submittedBy))
            && e.Some? && !IsApproved(w, e.value.selection)
            && env.authorized(op.actor, Approve, Some(e.value.selection.proposal.optionId))
            && ValidApproval(env, ApprovalOf(op, e.value)))
      && (Do(env, w, w, op).Some? ==>
            && ReplyTo(env, w, op) == Finalized(ApprovalOf(op, e.value))
            && var d := ApprovalOf(op, e.value);
               Alone(env, w, op) == w.(token := w.token.(generation := w.token.generation + 1),
                                       decisions := w.decisions + [d],
                                       outbox := w.outbox + [OutboxEvent(d.id, d.analysisId, d.decidedAt)]))
  {
    hide EvidenceOf, CurrentSelection, IsAlex, ValidApproval;
  }

  /** An approval commits exactly when Alex sends it against the current token, under an unused key and id, as one
      authorized to approve that option, for a selection that is current, not ahead of time and not yet approved, and
      that is either cheap or stands approved by Taylor. */
  lemma ApprovalCommitsWhen(env: Environment, w: World, op: Operation)
    requires DifferentPeople(env) && Sound(env, w) && op.Finalize? && op.kind == Approve
    ensures Do(env, w, w, op).Some? <==>
      && IsAlex(env, op.actor) && op.expected == w.token && DecisionUnused(w, op) && CurrentSelection(w).Some?
      && var s := CurrentSelection(w).value;
         && Current(env, w, s) && s.submittedAt <= op.now && !IsApproved(w, s)
         && env.authorized(op.actor, Approve, Some(s.proposal.optionId))
         && (s.proposal.cost > 2_000_000 ==> TaylorApproved(env, w, op.now))
  {
    hide Sound, EvidenceOf, CurrentReview, CurrentSelection, IsAlex, IsTaylor, Do, IsApproved, ValidApproval, J.Journal,
      DecisionUnused;
    ApprovalSteps(env, w, op);
    EvidenceAvailability(env, w);
    if CurrentSelection(w).Some? { CurrentIsAlexs(env, w); }
    if CurrentReview(w).Some? { CurrentIsDated(env, w); }
    if EvidenceOf(env, w).Some? {
      EvidenceIs(env, w);
      if IsAlex(env, op.actor) && op.expected == w.token && w.token.analysis.Some? {
        ApprovalIsValid(env, w, op, EvidenceOf(env, w).value);
      }
    }
  }

  /** A reviewed review says when. */
  lemma CurrentIsDated(env: Environment, w: World)
    requires Sound(env, w) && CurrentReview(w).Some?
    ensures CurrentReview(w).value.review.reviewedBy.Some? <==> CurrentReview(w).value.review.reviewedAt.Some?
  {
    hide CurrentReview, Sound;
    CurrentReviewIsLatest(env, w);
  }

  /** A committed approval records the decision on the current selection, with its review when it costs more than 20,000
      USD, answers with it, and puts its event in the outbox; nothing else changes but the token. */
  lemma ApprovalRecords(env: Environment, w: World, op: Operation)
    requires DifferentPeople(env) && Sound(env, w) && op.Finalize? && op.kind == Approve && Do(env, w, w, op).Some?
    ensures w.token.analysis.Some? && CurrentSelection(w).Some?
    ensures CurrentSelection(w).value.proposal.cost > 2_000_000 ==> CurrentReview(w).Some?
    ensures var w', s, analysisId := Alone(env, w, op), CurrentSelection(w).value, w.token.analysis.value.id;
      var e := if s.proposal.cost > 2_000_000
               then Evidence(s, Some(CurrentReview(w).value.review), Some(CurrentReview(w).value.revision))
               else Evidence(s, None, None);
      var d := Decision(op.decisionId, Approve, op.key, op.fingerprint, op.actor, analysisId, Some(s.proposal.optionId),
                        Some(e), op.now);
      && w'.token == w.token.(generation := w.token.generation + 1) && w'.decisions == w.decisions + [d]
      && w'.outbox == w.outbox + [OutboxEvent(op.decisionId, analysisId, op.now)]
      && w'.receipts == w.receipts && w'.journal == w.journal && ReplyTo(env, w, op) == Finalized(d)
  {
    hide Sound, EvidenceOf, CurrentReview, CurrentSelection, IsAlex, IsTaylor, Do, Alone, ReplyTo, IsApproved,
      ValidApproval, J.Journal, DecisionUnused;
    ApprovalSteps(env, w, op);
    EvidenceAvailability(env, w);
    EvidenceIs(env, w);
  }

  // --- A submission ----------------------------------------------------------------------------------------

  /** What is selected: the option at the cost the analysis names, under review when that is more than 20,000 USD. */
  function Proposed(env: Environment, op: Operation, analysis: Analysis, cost: int): Selection
    requires op.SubmitProposal?
  {
    Selection(op.selectionId, Proposal(env.caseId, analysis.id, analysis.hash, op.optionId, cost), op.actor, op.now,
              if cost > 2_000_000 then Some(op.newReviewId) else None)
  }

  /** The first revision of the review of a selection: pending, on the selection's own terms. */
  ghost predicate OpensRow(row: J.Row, s: Selection, fingerprint: string) {
    && s.reviewId.Some? && row.revision == 1 && row.key == "finance-pending:" + s.id && row.fingerprint == fingerprint
    && row.review == Review(s.reviewId.value, s.proposal, s.submittedBy, s.submittedAt, Pending, None, None, None, None)
  }

  /** The journal with the review of the selection opened, if it has one. */
  ghost predicate Opens(journal: seq<J.Row>, journal': seq<J.Row>, s: Selection, fingerprint: string) {
    if s.reviewId.None? then journal' == journal
    else
      && |journal'| == |journal| + 1 && journal <= journal' && OpensRow(journal'[|journal|], s, fingerprint)
      && J.Latest(journal, s.reviewId.value).None?
  }

  lemma OpeningIs(env: Environment, w: World, op: Operation, s: Selection)
    requires op.SubmitProposal? && J.Journal(JournalEnv(env), w.journal) && OpenReview(env, w, op, s).Some?
    ensures Opens(w.journal, OpenReview(env, w, op, s).value, s, op.fingerprint)
    ensures Grows(env, w.journal, OpenReview(env, w, op, s).value)
  {
    hide J.Journal, RequireSubmitter, ValidReview, J.ByKey, J.Refuse, J.History, J.Latest;
    PendingStarts(env, w, op, s);
  }

  lemma {:induction false} LatestElsewhere(journal: seq<J.Row>, row: J.Row, id: string)
    requires row.review.reviewId != id
    ensures J.Latest(journal + [row], id) == J.Latest(journal, id)
  {
    assert (journal + [row])[..|journal|] == journal;
  }

  /** Opening a new review leaves the current one the latest of its own. */
  lemma OpeningLeavesCurrent(env: Environment, w: World, journal: seq<J.Row>, s: Selection, fingerprint: string)
    requires Sound(env, w) && Opens(w.journal, journal, s, fingerprint)
    ensures ReviewOf(journal, CurrentSelection(w)) == CurrentReview(w)
    ensures CurrentReview(w).Some? ==> J.Latest(journal, CurrentReview(w).value.review.reviewId) == CurrentReview(w)
  {
    hide Sound, J.Latest, CurrentSelection;
    if CurrentSelection(w).Some? && CurrentSelection(w).value.reviewId.Some? {
      var id := CurrentSelection(w).value.reviewId.value;
      CurrentHasReview(env, w);
      if s.reviewId.Some? {
        LatestElsewhere(w.journal, journal[|w.journal|], id);
        assert journal == w.journal + [journal[|w.journal|]];
      }
    }
  }

  lemma CurrentHasReview(env: Environment, w: World)
    requires Sound(env, w) && CurrentSelection(w).Some? && CurrentSelection(w).value.reviewId.Some?
    ensures CurrentReview(w).Some? && CurrentReview(w).value.review.reviewId == CurrentSelection(w).value.reviewId.value
    ensures J.Latest(w.journal, CurrentSelection(w).value.reviewId.value) == CurrentReview(w)
  {
    hide J.Journal, SoundDecisions, SoundReceipts, SoundSelection, J.Latest, CurrentSelection;
    CurrentIsAlexs(env, w);
    LatestKeepsTerms(env, w.journal, CurrentSelection(w).value);
  }

  function PendingReview(s: Selection): Review
    requires s.reviewId.Some?
  {
    Review(s.reviewId.value, s.proposal, s.submittedBy, s.submittedAt, Pending, None, None, None, None)
  }

  /** Its review can be opened: it is new, well-formed and bound to its analysis, under an unused key and a digest. */
  ghost predicate CanOpen(env: Environment, journal: seq<J.Row>, s: Selection, fingerprint: string) {
    s.reviewId.Some? ==>
      && J.Latest(journal, s.reviewId.value).None? && KeyUnused(journal, "finance-pending:" + s.id)
      && IsDigest(fingerprint)
      && !Blank(s.reviewId.value) && ValidProposal(s.proposal) && env.bound(PendingReview(s))
  }

  lemma PendingIs(env: Environment, s: Selection)
    requires s.reviewId.Some? && IsAlex(env, s.submittedBy) && s.proposal.cost > 2_000_000
    ensures var r := Submit(env.parse, s.reviewId.value, s.proposal, s.submittedBy, s.submittedAt);
      && (r.Ok? <==> !Blank(s.reviewId.value) && ValidProposal(s.proposal))
      && (r.Ok? ==> r.value == PendingReview(s) && ValidReview(r.value))
  {
    hide ValidProposal, Blank;
    AlexSubmits(env, s.submittedBy);
  }

  lemma OpensWhen(env: Environment, w: World, op: Operation, s: Selection)
    requires op.SubmitProposal? && IsAlex(env, s.submittedBy) && (s.reviewId.Some? ==> s.proposal.cost > 2_000_000)
    ensures OpenReview(env, w, op, s).Some? <==> CanOpen(env, w.journal, s, op.fingerprint)
  {
    hide J.ByKey, ValidReview, Submit, IsDigest, ValidProposal, IsAlex, J.Latest;
    if s.reviewId.Some? {
      var key := "finance-pending:" + s.id;
      PendingIs(env, s);
      J.ByKeyFinds(w.journal, key);
      PrefixIsNotBlank("finance-pending:", s.id);
    }
  }

  /** No submission has this key, this id or this review. */
  ghost predicate SubmissionUnused(w: World, op: Operation, s: Selection)
    requires op.SubmitProposal?
  {
    forall r | r in w.receipts ::
      r.key != op.key && r.selection.id != s.id && (s.reviewId.Some? ==> r.selection.reviewId != s.reviewId)
  }

  lemma PublishSteps(env: Environment, w: World, op: Operation, s: Selection)
    requires op.SubmitProposal?
    ensures var journal := OpenReview(env, w, op, s);
      && (Publish(env, w, op, s).Some? ==> journal.Some?)
      && (journal.Some? ==>
            var settled := Superseding(env, journal.value, ReviewOf(journal.value, CurrentSelection(w)), op.now,
                                       "selection-supersede:" + s.id);
            && (Publish(env, w, op, s).Some? <==> op.expected == w.token && SubmissionUnused(w, op, s) && settled.Some?)
            && (Publish(env, w, op, s).Some? ==>
                  Publish(env, w, op, s).value
                  == w.(token := Token(w.token.generation + 1, w.token.analysis, Some(s.id)),
                        receipts := w.receipts + [Receipt(s, op.expected, op.key, op.fingerprint)],
                        journal := settled.value)))
  {
    hide Superseding, OpenReview, CurrentSelection, ReviewOf;
  }

  lemma SubmissionSteps(env: Environment, w: World, op: Operation)
    requires op.SubmitProposal? && Sound(env, w)
    ensures var analysis := w.token.analysis;
      && (Do(env, w, w, op).Some? ==> analysis.Some? && env.cost(analysis.value.id, op.optionId).Some?)
      && (analysis.Some? && env.cost(analysis.value.id, op.optionId).Some? ==>
            var s := Proposed(env, op, analysis.value, env.cost(analysis.value.id, op.optionId).value);
            && (Do(env, w, w, op).Some? <==> IsAlex(env, op.actor) && Publish(env, w, op, s).Some?)
            && (Do(env, w, w, op).Some? ==>
                  Alone(env, w, op) == Publish(env, w, op, s).value && op.expected == w.token))
  {
    hide Publish, IsAlex, CurrentSelection, Sound;
    if CurrentSelection(w).Some? { CurrentIsAlexs(env, w); }
    var analysis := w.token.analysis;
    if analysis.Some? && env.cost(analysis.value.id, op.optionId).Some? {
      var cost := env.cost(analysis.value.id, op.optionId).value;
      assert SelectionFor(env, op, analysis.value, cost) == Proposed(env, op, analysis.value, cost);
      var s := SelectionFor(env, op, analysis.value, cost);
      if Publish(env, w, op, s).Some? { PublishesUnused(env, w, op, s); }
    }
  }

  lemma PublishesUnused(env: Environment, w: World, op: Operation, s: Selection)
    requires op.SubmitProposal? && Publish(env, w, op, s).Some?
    ensures op.expected == w.token && SubmissionUnused(w, op, s)
  {
    hide OpenReview, Superseding, ReviewOf;
  }

  lemma OtherKey(id: string)
    ensures "finance-pending:" + id != "selection-supersede:" + id
  {
    assert ("finance-pending:" + id)[0] == 'f' && ("selection-supersede:" + id)[0] == 's';
  }

  /** Opening the new review takes nothing from leaving the old one. */
  lemma OpeningAllowsLeaving(journal: seq<J.Row>, journal': seq<J.Row>, s: Selection, fingerprint: string,
                             left: Option<J.Row>, now: int)
    requires Opens(journal, journal', s, fingerprint)
    ensures CanLeave(journal', left, now, "selection-supersede:" + s.id)
        <==> CanLeave(journal, left, now, "selection-supersede:" + s.id)
  {
    OtherKey(s.id);
    if s.reviewId.Some? {
      assert journal' == journal + [journal'[|journal|]];
      assert forall row :: row in journal' <==> row in journal || row == journal'[|journal|];
    }
  }

  lemma SettlingIs(env: Environment, w: World, op: Operation, s: Selection)
    requires HashesAreDigests(env) && BoundByProposal(env) && Sound(env, w) && op.SubmitProposal?
    requires OpenReview(env, w, op, s).Some?
    ensures var started, key := OpenReview(env, w, op, s).value, "selection-supersede:" + s.id;
      var settled := Superseding(env, started, ReviewOf(started, CurrentSelection(w)), op.now, key);
      && Opens(w.journal, started, s, op.fingerprint)
      && (settled.Some? <==> CanLeave(w.journal, CurrentReview(w), op.now, key))
      && (settled.Some? ==> Leaves(env, started, settled.value, CurrentReview(w), op.now, key))
  {
    hide OpenReview, Superseding, CanLeave, Leaves, Sound, CurrentSelection, CurrentReview, ReviewOf, Opens, J.Journal;
    SoundJournal(env, w);
    var started, key := OpenReview(env, w, op, s).value, "selection-supersede:" + s.id;
    OpeningIs(env, w, op, s);
    OpeningLeavesCurrent(env, w, started, s, op.fingerprint);
    PrefixIsNotBlank("selection-supersede:", s.id);
    CurrentIsLeft(env, w, started, op.now, key);
    OpeningAllowsLeaving(w.journal, started, s, op.fingerprint, CurrentReview(w), op.now);
  }

  /** A submission commits exactly when Alex sends it against the current token, for an executable option of the
      current analysis, under an unused key, id and review, the review it needs can be opened, and the one it leaves
      behind can be superseded. */
  lemma SubmissionCommitsWhen(env: Environment, w: World, op: Operation)
    requires HashesAreDigests(env) && BoundByProposal(env) && Sound(env, w) && op.SubmitProposal?
    ensures Do(env, w, w, op).Some? <==>
      && IsAlex(env, op.actor) && op.expected == w.token
      && w.token.analysis.Some? && env.cost(w.token.analysis.value.id, op.optionId).Some?
      && var s := Proposed(env, op, w.token.analysis.value, env.cost(w.token.analysis.value.id, op.optionId).value);
         && SubmissionUnused(w, op, s) && CanOpen(env, w.journal, s, op.fingerprint)
         && CanLeave(w.journal, CurrentReview(w), op.now, "selection-supersede:" + s.id)
  {
    hide Sound, Do, Publish, CanOpen, CanLeave, Leaves, Opens, OpenReview, Superseding, CurrentReview, CurrentSelection,
      ReviewOf, SubmissionUnused, IsAlex;
    SubmissionSteps(env, w, op);
    if w.token.analysis.Some? && env.cost(w.token.analysis.value.id, op.optionId).Some? && IsAlex(env, op.actor) {
      var s := Proposed(env, op, w.token.analysis.value, env.cost(w.token.analysis.value.id, op.optionId).value);
      PublishSteps(env, w, op, s);
      OpensWhen(env, w, op, s);
      if OpenReview(env, w, op, s).Some? { SettlingIs(env, w, op, s); }
    }
  }

  /** A committed submission records and selects the option at the analysis' own cost, opens the pending review that a
      cost above 20,000 USD needs, supersedes the review it leaves behind, and touches no decision. */
  lemma SubmissionRecords(env: Environment, w: World, op: Operation)
    requires HashesAreDigests(env) && BoundByProposal(env) && Sound(env, w)
    requires op.SubmitProposal? && Do(env, w, w, op).Some?
    ensures w.token.analysis.Some? && env.cost(w.token.analysis.value.id, op.optionId).Some?
    ensures var w', analysis := Alone(env, w, op), w.token.analysis.value;
      var s := Proposed(env, op, analysis, env.cost(analysis.id, op.optionId).value);
      && w'.token == Token(w.token.generation + 1, Some(analysis), Some(s.id))
      && w'.receipts == w.receipts + [Receipt(s, w.token, op.key, op.fingerprint)]
      && (exists started :: Opens(w.journal, started, s, op.fingerprint)
            && Leaves(env, started, w'.journal, CurrentReview(w), op.now, "selection-supersede:" + s.id))
      && w'.decisions == w.decisions && w'.outbox == w.outbox
  {
    hide Sound, Do, Alone, Publish, CanLeave, Leaves, Opens, OpenReview, Superseding, CurrentReview, CurrentSelection,
      ReviewOf, SubmissionUnused, IsAlex;
    SubmissionSteps(env, w, op);
    var s := Proposed(env, op, w.token.analysis.value, env.cost(w.token.analysis.value.id, op.optionId).value);
    PublishSteps(env, w, op, s);
    SettlingIs(env, w, op, s);
  }

  /** In a journal a review's revisions tell its rows apart. */
  lemma RevisionsDiffer(env: Environment, journal: seq<J.Row>, a: J.Row, b: J.Row)
    requires J.Journal(JournalEnv(env), journal) && a in journal && b in journal
    requires a.review.reviewId == b.review.reviewId && a.revision == b.revision
    ensures a == b
  {
    hide J.Journal, ValidReview, J.Succeeds, J.SameSubmission;
    var h := J.History(journal, a.review.reviewId);
    J.StoryOfAReview(JournalEnv(env), journal, a.review.reviewId);
    J.HistoryMembers(journal, a.review.reviewId);
    var i :| 0 <= i < |h| && h[i] == a;
    var j :| 0 <= j < |h| && h[j] == b;
  }

  lemma {:induction false} RevisionIs(journal: seq<J.Row>, row: J.Row)
    requires row in journal
    requires forall x | x in journal && x.review.reviewId == row.review.reviewId && x.revision == row.revision ::
               x == row
    ensures RevisionAt(journal, row.review.reviewId, row.revision) == Some(row.review)
  {
    if journal[0] != row {
      assert journal[0] in journal;
      RevisionIs(journal[1..], row);
    }
  }

  /** A committed submission is answered with the selection and its pending review. */
  lemma SubmissionIsAnswered(env: Environment, w: World, op: Operation)
    requires HashesAreDigests(env) && BoundByProposal(env) && Sound(env, w)
    requires op.SubmitProposal? && Do(env, w, w, op).Some?
    ensures w.token.analysis.Some? && env.cost(w.token.analysis.value.id, op.optionId).Some?
    ensures var analysis := w.token.analysis.value;
      var s := Proposed(env, op, analysis, env.cost(analysis.id, op.optionId).value);
      ReplyTo(env, w, op) == Submitted(s, if s.reviewId.Some? then Some(PendingReview(s)) else None)
  {
    hide Sound, Do, Alone, DoSubmit, Opens, Leaves, CanLeave, CurrentReview, J.Journal, IsAlex;
    SubmissionRecords(env, w, op);
    AloneKeeps(env, w, op);
    SoundJournal(env, Alone(env, w, op));
    SubmissionReplies(env, w, op);
    var analysis := w.token.analysis.value;
    var s := Proposed(env, op, analysis, env.cost(analysis.id, op.optionId).value);
    if s.reviewId.Some? { PendingIsStored(env, w, op, s); }
  }

  lemma SubmissionReplies(env: Environment, w: World, op: Operation)
    requires Sound(env, w) && op.SubmitProposal? && Do(env, w, w, op).Some?
    ensures w.token.analysis.Some? && env.cost(w.token.analysis.value.id, op.optionId).Some?
    ensures var s := Proposed(env, op, w.token.analysis.value, env.cost(w.token.analysis.value.id, op.optionId).value);
      ReplyTo(env, w, op) == SubmissionReply(Alone(env, w, op).journal, s)
  {
    hide Sound, Publish, IsAlex, CurrentSelection, SubmissionReply;
    SubmissionSteps(env, w, op);
    SoundJournal(env, w);
    SubmitExtends(env, w, op);
  }

  lemma PendingIsStored(env: Environment, w: World, op: Operation, s: Selection)
    requires s.reviewId.Some? && op.SubmitProposal? && J.Journal(JournalEnv(env), Alone(env, w, op).journal)
    requires exists started :: Opens(w.journal, started, s, op.fingerprint)
               && Leaves(env, started, Alone(env, w, op).journal, CurrentReview(w), op.now,
                         "selection-supersede:" + s.id)
    ensures RevisionAt(Alone(env, w, op).journal, s.reviewId.value, 1) == Some(PendingReview(s))
  {
    hide Alone, CurrentReview, J.Journal;
    var journal := Alone(env, w, op).journal;
    var started :| Opens(w.journal, started, s, op.fingerprint)
      && Leaves(env, started, journal, CurrentReview(w), op.now, "selection-supersede:" + s.id);
    var row := started[|w.journal|];
    assert journal[|w.journal|] == row && row in journal;
    forall x | x in journal && x.review.reviewId == row.review.reviewId && x.revision == row.revision ensures x == row {
      RevisionsDiffer(env, journal, x, row);
    }
    RevisionIs(journal, row);
  }

  // --- The people ---------------------------------------------------------------------------------------

  /** The configured tenant and person, whom these identifiers parse to. */
  predicate Identifies(env: Environment, a: Identity, person: nat) {
    && a.origin == Entra && a.tenant.Some? && a.tenant.value != "" && env.parse(a.tenant.value) == Some(env.tenant)
    && a.object'.Some? && a.object'.value != "" && env.parse(a.object'.value) == Some(person)
  }

  /** Alex and Taylor are known by persona, source, roles and identifiers alike. */
  lemma ActorsAre(env: Environment, a: Identity)
    ensures IsAlex(env, a) <==>
      && a.persona == "RL-PERSONA-ALEX" && a.source == "RL-ENTRA-ALEX"
      && a.roles == ["material_planner", "response_approver"] && Identifies(env, a, env.alex)
    ensures IsTaylor(env, a) <==>
      && a.persona == "RL-PERSONA-TAYLOR" && a.source == "RL-ENTRA-TAYLOR" && a.roles == ["finance_approver"]
      && Identifies(env, a, env.taylor)
  {
  }

  // --- A key used for another command ---------------------------------------------------------------------

  /** Another command of the same kind and person under the same key. */
  predicate Collides(env: Environment, op: Operation, other: Operation) {
    match (op, other)
    case (SubmitProposal(_, _, _, _, _, _, _, _), SubmitProposal(_, _, key, fingerprint, actor, _, _, _)) =>
      key == op.key && fingerprint != op.fingerprint && IsAlex(env, actor)
    case (ResolveReview(_, _, _, _, _, _, _, _, _), ResolveReview(_, _, _, _, _, key, fingerprint, actor, _)) =>
      key == op.key && fingerprint != op.fingerprint && IsTaylor(env, actor)
    case (Finalize(_, _, _, _, _, _, _), Finalize(_, _, key, fingerprint, actor, _, _)) =>
      key == op.key && fingerprint != op.fingerprint && IsAlex(env, actor)
    case _ => false
  }

  lemma SubmissionCollides(env: Environment, w: World, op: Operation, later: World, other: Operation)
    requires J.Journal(JournalEnv(env), w.journal) && op.SubmitProposal? && other.SubmitProposal?
    requires DoSubmit(env, w, w, op).Some? && Extends(DoSubmit(env, w, w, op).value, later) && Collides(env, op, other)
    ensures SubmitReply(env, later, other) == KeyConflict && DoSubmit(env, later, later, other).None?
  {
    hide Superseding, OpenReview, IsAlex, J.Journal, Publish;
    SubmitExtends(env, w, op);
    var w' := DoSubmit(env, w, w, op).value;
    ReceiptAdded(w.receipts, w'.receipts[|w.receipts|]);
    ReceiptStays(w'.receipts, later.receipts, op.key);
  }

  lemma ResolutionCollides(env: Environment, w: World, op: Operation, later: World, other: Operation)
    requires J.Journal(JournalEnv(env), w.journal) && op.ResolveReview? && other.ResolveReview?
    requires DoResolve(env, w, w, op).Some? && Extends(DoResolve(env, w, w, op).value, later)
    requires Collides(env, op, other)
    requires J.Journal(JournalEnv(env), later.journal)
    ensures ResolveReply(env, later, other) == KeyConflict && DoResolve(env, later, later, other).None?
  {
    hide IsAlex, IsTaylor, J.Journal, CurrentReview, Resolve, Journaled;
    ResolutionIsRecorded(env, w, op);
    var n := |w.journal|;
    assert later.journal[n] == DoResolve(env, w, w, op).value.journal[n];
    J.KeyedRow(JournalEnv(env), later.journal, n);
  }

  lemma FinalizationCollides(env: Environment, w: World, op: Operation, later: World, other: Operation)
    requires op.Finalize? && other.Finalize? && DoFinalize(env, w, w, op).Some?
    requires Extends(DoFinalize(env, w, w, op).value, later) && Collides(env, op, other)
    ensures FinalizeReply(env, later, other) == KeyConflict && DoFinalize(env, later, later, other).None?
  {
    hide IsAlex, DoApprove, DoReject, EvidenceOf, CurrentSelection;
    FinalizationIsRecorded(env, w, op);
    DecisionIsFound(w.decisions, DecisionFor(env, w, op));
    DecisionStays(w.decisions + [DecisionFor(env, w, op)], later.decisions, op.key);
  }

  /** A key that a committed command used answers any other command of its kind with a conflict, whatever happened in
      between, and that command changes nothing. */
  lemma UsedKeysConflict(env: Environment, w: World, op: Operation, between: seq<Operation>, other: Operation)
    requires Sound(env, w) && Do(env, w, w, op).Some? && Collides(env, op, other)
    ensures var later := AloneInTurn(env, Alone(env, w, op), between);
      ReplyTo(env, later, other) == KeyConflict && Alone(env, later, other) == later
  {
    hide DoSubmit, DoResolve, DoFinalize, SubmitReply, ResolveReply, FinalizeReply, IsAlex, IsTaylor, J.Journal;
    var now := Alone(env, w, op);
    var later := AloneInTurn(env, now, between);
    AloneKeeps(env, w, op);
    AloneInTurnExtends(env, now, between);
    SoundJournal(env, later);
    match op {
      case SubmitProposal(_, _, _, _, _, _, _, _) => SubmissionCollides(env, w, op, later, other);
      case ResolveReview(_, _, _, _, _, _, _, _, _) => ResolutionCollides(env, w, op, later, other);
      case Finalize(_, _, _, _, _, _, _) => FinalizationCollides(env, w, op, later, other);
      case PublishAnalysis(_, _) =>
    }
  }
}
