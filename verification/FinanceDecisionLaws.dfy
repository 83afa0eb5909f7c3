/** What every interleaving of submissions, reviews, finalizations and new analyses guarantees. */
module FinanceDecisionLaws {
  import opened Basics
  import opened FinancePolicy
  import opened FinanceDecisions
  import J = FinanceJournal

  // --- The token orders the changes ------------------------------------------------------------

  /** Whatever commits saw the token it finds, and advances its generation by one. */
  lemma CommitsNeedTheToken(env: Environment, seen: World, w: World, op: Operation)
    requires Do(env, seen, w, op).Some?
    ensures seen.token == w.token && Do(env, seen, w, op).value.token.generation == w.token.generation + 1
  {
    hide IsAlex, IsTaylor, EvidenceOf, ValidApproval, Superseding, Journaled, OpenReview;
  }

  /** A client that read an older state holds an older generation; one that holds the current generation
      read the current state. */
  ghost predicate Fresh(g: Global) {
    forall i | 0 <= i < |g.clients| && g.clients[i].Reading? ::
      && g.clients[i].seen.token.generation <= g.world.token.generation
      && (g.clients[i].seen.token.generation == g.world.token.generation ==> g.clients[i].seen == g.world)
  }

  /** The next step of client i commits its operation. */
  ghost predicate Commits(env: Environment, g: Global, i: nat) {
    i < |g.clients| && g.clients[i].Reading? && Do(env, g.clients[i].seen, g.world, g.clients[i].op).Some?
  }

  /** A commit does what the operation would have done alone on the state it found; no other step changes the state. */
  lemma StepIsAtomic(env: Environment, g: Global, i: nat)
    requires Fresh(g)
    ensures Fresh(Step(env, g, i))
    ensures if Commits(env, g, i) then Do(env, g.world, g.world, g.clients[i].op) == Some(Step(env, g, i).world)
            else Step(env, g, i).world == g.world
  {
    hide Do;
    if Commits(env, g, i) { CommitsNeedTheToken(env, g.clients[i].seen, g.world, g.clients[i].op); }
  }

  function AloneInTurn(env: Environment, w: World, ops: seq<Operation>): World {
    if |ops| == 0 then w else Alone(env, AloneInTurn(env, w, ops[..|ops| - 1]), ops[|ops| - 1])
  }

  ghost predicate AllWaiting(g: Global) { forall i | 0 <= i < |g.clients| :: g.clients[i].Waiting? }

  /** The clients whose operations a run commits, in the order of their commits. */
  ghost function Committers(env: Environment, g: Global, schedule: seq<nat>): seq<nat> {
    if |schedule| == 0 then []
    else
      var front, i := schedule[..|schedule| - 1], schedule[|schedule| - 1];
      Committers(env, g, front) + if Commits(env, Run(env, g, front), i) then [i] else []
  }

  predicate ClientsOf(g: Global, order: seq<nat>) { forall k | 0 <= k < |order| :: order[k] < |g.clients| }

  function OperationsOf(g: Global, order: seq<nat>): seq<Operation>
    requires ClientsOf(g, order)
  {
    seq(|order|, k requires 0 <= k < |order| => g.clients[order[k]].op)
  }

  /** Run alone one after another, every operation commits. */
  ghost predicate AllCommit(env: Environment, w: World, ops: seq<Operation>) {
    forall k | 0 <= k < |ops| ::
      Do(env, AloneInTurn(env, w, ops[..k]), AloneInTurn(env, w, ops[..k]), ops[k]).Some?
  }

  /** Each client is listed once, exactly when it has committed. */
  ghost predicate Tallied(g: Global, end: Global, order: seq<nat>) {
    && |end.clients| == |g.clients| && ClientsOf(g, order) && Distinct(order)
    && forall i: nat | i < |g.clients| ::
         end.clients[i].op == g.clients[i].op && (i in order <==> end.clients[i] == Finished(g.clients[i].op, true))
  }

  lemma {:induction false} CommittersAreTallied(env: Environment, g: Global, schedule: seq<nat>)
    requires AllWaiting(g)
    ensures Tallied(g, Run(env, g, schedule), Committers(env, g, schedule))
  {
    hide Tallied, Step, Commits;
    if |schedule| == 0 {
      NobodyTallied(g);
    } else {
      var front, i := schedule[..|schedule| - 1], schedule[|schedule| - 1];
      CommittersAreTallied(env, g, front);
      TallyNext(env, g, Run(env, g, front), Committers(env, g, front), i);
    }
  }

  lemma NobodyTallied(g: Global)
    requires AllWaiting(g)
    ensures Tallied(g, g, [])
  {
  }

  lemma TallyNext(env: Environment, g: Global, before: Global, order: seq<nat>, i: nat)
    requires Tallied(g, before, order)
    ensures Tallied(g, Step(env, before, i), order + if Commits(env, before, i) then [i] else [])
  {
    hide Do;
    if Commits(env, before, i) {
      assert i !in order;
      TallyCommit(g, before, Step(env, before, i), order, i);
    } else {
      assert order + [] == order;
    }
  }

  lemma TallyCommit(g: Global, before: Global, after: Global, order: seq<nat>, i: nat)
    requires Tallied(g, before, order) && i < |g.clients| && i !in order
    requires after.clients == before.clients[i := Finished(g.clients[i].op, true)]
    ensures Tallied(g, after, order + [i])
  {
  }

  /** Every interleaving ends in the state that the committed operations, each client's once and in the order of the
      commits, produce alone one after another; each of them commits there too. */
  lemma {:induction false} EveryRunIsSequential(env: Environment, g: Global, schedule: seq<nat>)
    requires AllWaiting(g)
    ensures var end, order := Run(env, g, schedule), Committers(env, g, schedule);
      && Fresh(end) && Tallied(g, end, order)
      && end.world == AloneInTurn(env, g.world, OperationsOf(g, order))
      && AllCommit(env, g.world, OperationsOf(g, order))
  {
    hide Step, Do, Fresh, Commits, Tallied;
    CommittersAreTallied(env, g, schedule);
    assert ClientsOf(g, Committers(env, g, schedule)) by {
      TalliedAreClients(g, Run(env, g, schedule), Committers(env, g, schedule));
    }
    if |schedule| == 0 {
      WaitingIsFresh(g);
    } else {
      var front, i := schedule[..|schedule| - 1], schedule[|schedule| - 1];
      EveryRunIsSequential(env, g, front);
      var before, order := Run(env, g, front), Committers(env, g, front);
      StepIsAtomic(env, before, i);
      TalliedAreClients(g, before, order);
      if Commits(env, before, i) {
        OneMore(env, g, before, order, i);
        assert Committers(env, g, schedule) == order + [i];
      } else {
        assert Committers(env, g, schedule) == order;
      }
    }
  }

  lemma TalliedAreClients(g: Global, end: Global, order: seq<nat>)
    requires Tallied(g, end, order)
    ensures ClientsOf(g, order)
  {
  }

  lemma OneMore(env: Environment, g: Global, before: Global, order: seq<nat>, i: nat)
    requires Tallied(g, before, order) && Commits(env, before, i) && Fresh(before)
    requires before.world == AloneInTurn(env, g.world, OperationsOf(g, order))
      && AllCommit(env, g.world, OperationsOf(g, order))
    ensures ClientsOf(g, order + [i])
    ensures AllCommit(env, g.world, OperationsOf(g, order + [i]))
    ensures Step(env, before, i).world == AloneInTurn(env, g.world, OperationsOf(g, order + [i]))
  {
    hide Do;
    StepIsAtomic(env, before, i);
    var ops, op := OperationsOf(g, order), before.clients[i].op;
    var more := OperationsOf(g, order + [i]);
    assert more == ops + [op] && more[..|ops|] == ops;
    forall k | 0 <= k < |more|
      ensures Do(env, AloneInTurn(env, g.world, more[..k]), AloneInTurn(env, g.world, more[..k]), more[k]).Some? {
      if k < |ops| { assert more[..k] == ops[..k]; }
    }
  }

  lemma WaitingIsFresh(g: Global)
    requires AllWaiting(g)
    ensures Fresh(g)
  {
  }

  // --- What is always true ------------------------------------------------------------------------

  predicate SameTerms(r: Review, s: Selection) {
    r.proposal == s.proposal && r.submittedBy == s.submittedBy && r.submittedAt == s.submittedAt
  }

  /** A selection was submitted by Alex, and has a review exactly when its cost requires one. */
  ghost predicate SoundSelection(env: Environment, journal: seq<J.Row>, s: Selection) {
    && IsAlex(env, s.submittedBy)
    && (s.reviewId.Some? <==> RequiresFinanceApproval(s.proposal.cost))
    && (s.reviewId.Some? ==>
          var h := J.History(journal, s.reviewId.value); |h| > 0 && SameTerms(h[0].review, s))
  }

  ghost predicate SoundReceipts(env: Environment, w: World) {
    && (forall r | r in w.receipts :: SoundSelection(env, w.journal, r.selection))
    && (forall i, j | 0 <= i < j < |w.receipts| :: w.receipts[i].selection.id != w.receipts[j].selection.id)
  }

  ghost predicate Chosen(w: World, s: Selection) { exists r :: r in w.receipts && r.selection == s }

  ghost predicate Stored(journal: seq<J.Row>, r: Review, revision: int) {
    exists row :: row in J.History(journal, r.reviewId) && row.review == r && row.revision == revision
  }

  /** An approval names a selection of the case and, if the cost requires it, a stored approved review. */
  ghost predicate SoundDecision(env: Environment, w: World, d: Decision) {
    if d.kind == Reject then d.evidence.None?
    else
      && ValidApproval(env, d) && Chosen(w, d.evidence.value.selection)
      && (d.evidence.value.review.Some? ==>
          Stored(w.journal, d.evidence.value.review.value, d.evidence.value.revision.value))
  }

  function Events(decisions: seq<Decision>): seq<OutboxEvent> {
    if |decisions| == 0 then []
    else
      var d := decisions[|decisions| - 1];
      Events(decisions[..|decisions| - 1])
        + if d.kind == Approve then [OutboxEvent(d.id, d.analysisId, d.decidedAt)] else []
  }

  ghost predicate SoundDecisions(env: Environment, w: World) {
    && (forall d | d in w.decisions :: SoundDecision(env, w, d))
    && (forall i, j | 0 <= i < j < |w.decisions| && w.decisions[i].kind == Approve && w.decisions[j].kind == Approve
                      && w.decisions[i].evidence.Some? && w.decisions[j].evidence.Some? ::
          w.decisions[i].evidence.value.selection.id != w.decisions[j].evidence.value.selection.id)
    && w.outbox == Events(w.decisions)
  }

  ghost predicate Sound(env: Environment, w: World) {
    J.Journal(JournalEnv(env), w.journal) && SoundReceipts(env, w) && SoundDecisions(env, w)
  }

  // --- The journal only grows -----------------------------------------------------------------------

  lemma HistoryExtends(rows: seq<J.Row>, rows': seq<J.Row>, id: string)
    requires rows <= rows'
    ensures J.History(rows, id) <= J.History(rows', id)
  {
    assert rows' == rows + rows'[|rows|..];
    FilterSplit((row: J.Row) => row.review.reviewId == id, rows, rows'[|rows|..]);
  }

  ghost predicate Grows(env: Environment, rows: seq<J.Row>, rows': seq<J.Row>) {
    rows <= rows' && J.Journal(JournalEnv(env), rows')
  }

  lemma JournaledGrows(env: Environment, journal: seq<J.Row>, q: J.Request)
    requires J.Journal(JournalEnv(env), journal) && Journaled(env, journal, q).Some?
    ensures Grows(env, journal, Journaled(env, journal, q).value)
  {
    J.AppendKeepsJournal(JournalEnv(env), journal, q);
  }

  lemma SupersedingGrows(env: Environment, journal: seq<J.Row>, left: Option<J.Row>, now: int, key: string)
    requires J.Journal(JournalEnv(env), journal) && Superseding(env, journal, left, now, key).Some?
    ensures Grows(env, journal, Superseding(env, journal, left, now, key).value)
  {
    hide Journaled, J.Journal;
    if left.Some? {
      JournaledGrows(env, journal, J.Request(Supersede(left.value.review, now).value, Some(left.value.revision), key,
                                             env.digest(key)));
    }
  }

  /** The first revision of a new review is the pending one. */
  lemma PendingStarts(env: Environment, w: World, op: Operation, s: Selection)
    requires op.SubmitProposal? && J.Journal(JournalEnv(env), w.journal) && OpenReview(env, w, op, s).Some?
    ensures Grows(env, w.journal, OpenReview(env, w, op, s).value)
    ensures s.reviewId.Some? ==>
      var h := J.History(OpenReview(env, w, op, s).value, s.reviewId.value); |h| > 0 && SameTerms(h[0].review, s)
  {
    if s.reviewId.Some? {
      var review := Submit(env.parse, s.reviewId.value, s.proposal, s.submittedBy, s.submittedAt).value;
      var q := J.Request(review, None, "finance-pending:" + s.id, op.fingerprint);
      JournaledGrows(env, w.journal, q);
      FirstIsAlone(env, w.journal, q);
    }
  }

  lemma FirstIsAlone(env: Environment, journal: seq<J.Row>, q: J.Request)
    requires J.Journal(JournalEnv(env), journal) && q.expected.None? && Journaled(env, journal, q).Some?
    ensures J.History(Journaled(env, journal, q).value, q.review.reviewId) == [J.RowFor(q, 1)]
  {
    var id := q.review.reviewId;
    assert J.Legal(JournalEnv(env), J.History(journal, id));
    J.LatestIsLast(JournalEnv(env), journal, id);
    J.HistoryGrows(journal, J.RowFor(q, 1), id);
    assert J.Latest(journal, id).None?;
  }

  lemma SelectionStaysSound(env: Environment, rows: seq<J.Row>, rows': seq<J.Row>, s: Selection)
    requires SoundSelection(env, rows, s) && rows <= rows'
    ensures SoundSelection(env, rows', s)
  {
    if s.reviewId.Some? { HistoryExtends(rows, rows', s.reviewId.value); }
  }

  lemma StoredStays(rows: seq<J.Row>, rows': seq<J.Row>, r: Review, revision: int)
    requires Stored(rows, r, revision) && rows <= rows'
    ensures Stored(rows', r, revision)
  {
    HistoryExtends(rows, rows', r.reviewId);
  }

  // --- Every operation keeps it ----------------------------------------------------------------------

  /** Growing the journal and the selections leaves earlier decisions sound. */
  lemma DecisionStaysSound(env: Environment, w: World, w': World, d: Decision)
    requires SoundDecision(env, w, d) && w.journal <= w'.journal && forall r | r in w.receipts :: r in w'.receipts
    ensures SoundDecision(env, w', d)
  {
    if d.kind == Approve && d.evidence.value.review.Some? {
      StoredStays(w.journal, w'.journal, d.evidence.value.review.value, d.evidence.value.revision.value);
    }
  }

  lemma ReceiptsStaySound(env: Environment, w: World, w': World)
    requires SoundReceipts(env, w) && w'.receipts == w.receipts && w.journal <= w'.journal
    ensures SoundReceipts(env, w')
  {
    forall r | r in w'.receipts ensures SoundSelection(env, w'.journal, r.selection) {
      SelectionStaysSound(env, w.journal, w'.journal, r.selection);
    }
  }

  lemma DecisionsStaySound(env: Environment, w: World, w': World)
    requires SoundDecisions(env, w) && w'.decisions == w.decisions && w'.outbox == w.outbox && w.journal <= w'.journal
    requires forall r | r in w.receipts :: r in w'.receipts
    ensures SoundDecisions(env, w')
  {
    forall d | d in w'.decisions ensures SoundDecision(env, w', d) { DecisionStaysSound(env, w, w', d); }
  }

  lemma SubmitKeeps(env: Environment, w: World, op: Operation)
    requires Sound(env, w) && op.SubmitProposal? && DoSubmit(env, w, w, op).Some?
    ensures Sound(env, DoSubmit(env, w, w, op).value)
  {
    hide SoundDecisions, J.Journal, Superseding, OpenReview, IsAlex;
    var analysis := op.expected.analysis.value;
    var cost := env.cost(analysis.id, op.optionId).value;
    PublishKeeps(env, w, op, SelectionFor(env, op, analysis, cost));
  }

  lemma PublishKeeps(env: Environment, w: World, op: Operation, s: Selection)
    requires Sound(env, w) && op.SubmitProposal? && Publish(env, w, op, s).Some?
    requires IsAlex(env, s.submittedBy) && (s.reviewId.Some? <==> RequiresFinanceApproval(s.proposal.cost))
    ensures Sound(env, Publish(env, w, op, s).value)
  {
    hide IsAlex, Superseding, OpenReview, J.Journal, SoundDecisions;
    var w' := Publish(env, w, op, s).value;
    var pending := OpenReview(env, w, op, s).value;
    PendingStarts(env, w, op, s);
    SupersedingGrows(env, pending, ReviewOf(pending, CurrentSelection(w)), op.now, "selection-supersede:" + s.id);
    assert w.journal <= pending <= w'.journal;
    NewReceiptSound(env, w, w', op, s, pending);
    DecisionsStaySound(env, w, w');
  }

  lemma NewReceiptSound(env: Environment, w: World, w': World, op: Operation, s: Selection, pending: seq<J.Row>)
    requires op.SubmitProposal? && SoundReceipts(env, w) && w.journal <= pending <= w'.journal
    requires w'.receipts == w.receipts + [Receipt(s, op.expected, op.key, op.fingerprint)]
    requires forall r | r in w.receipts :: r.selection.id != s.id
    requires IsAlex(env, s.submittedBy) && (s.reviewId.Some? <==> RequiresFinanceApproval(s.proposal.cost))
    requires s.reviewId.Some? ==> var h := J.History(pending, s.reviewId.value); |h| > 0 && SameTerms(h[0].review, s)
    ensures SoundReceipts(env, w')
  {
    hide IsAlex;
    assert SoundSelection(env, pending, s);
    SelectionStaysSound(env, pending, w'.journal, s);
    forall r | r in w.receipts ensures SoundSelection(env, w'.journal, r.selection) {
      SelectionStaysSound(env, w.journal, w'.journal, r.selection);
    }
    assert forall i | 0 <= i < |w.receipts| :: w'.receipts[i] == w.receipts[i] && w.receipts[i] in w.receipts;
  }

  lemma ResolveKeeps(env: Environment, w: World, op: Operation)
    requires Sound(env, w) && op.ResolveReview? && DoResolve(env, w, w, op).Some?
    ensures Sound(env, DoResolve(env, w, w, op).value)
  {
    hide SoundDecisions, SoundReceipts, J.Journal, Journaled, Resolve, IsAlex, IsTaylor, CurrentReview;
    var key := "finance-resolve:" + op.key;
    var latest := J.Latest(w.journal, op.reviewId).value;
    var resolved := Resolve(env.parse, latest.review, CurrentSelection(w).value.proposal, op.actor, op.approved,
                            op.reason, op.now).value;
    JournaledGrows(env, w.journal, J.Request(resolved, Some(op.expectedRevision), key, op.fingerprint));
    var w' := DoResolve(env, w, w, op).value;
    ReceiptsStaySound(env, w, w');
    DecisionsStaySound(env, w, w');
  }

  lemma AnalysisKeeps(env: Environment, w: World, op: Operation)
    requires Sound(env, w) && op.PublishAnalysis? && DoPublishAnalysis(env, w, w, op).Some?
    ensures Sound(env, DoPublishAnalysis(env, w, w, op).value)
  {
    hide SoundDecisions, SoundReceipts, J.Journal, Superseding, CurrentReview;
    SupersedingGrows(env, w.journal, CurrentReview(w), op.now, "analysis-supersede:" + op.analysis.id);
    var w' := DoPublishAnalysis(env, w, w, op).value;
    ReceiptsStaySound(env, w, w');
    DecisionsStaySound(env, w, w');
  }

  lemma EventsGrow(decisions: seq<Decision>, d: Decision)
    ensures Events(decisions + [d])
         == Events(decisions) + if d.kind == Approve then [OutboxEvent(d.id, d.analysisId, d.decidedAt)] else []
  {
    assert (decisions + [d])[..|decisions|] == decisions;
  }

  /** Recording one more decision, on a journal that may have grown. */
  lemma DecisionAdded(env: Environment, w: World, w': World, d: Decision)
    requires SoundDecisions(env, w) && w'.receipts == w.receipts && w.journal <= w'.journal
    requires w'.decisions == w.decisions + [d] && SoundDecision(env, w', d)
    requires w'.outbox == w.outbox + if d.kind == Approve then [OutboxEvent(d.id, d.analysisId, d.decidedAt)] else []
    requires d.kind == Approve && d.evidence.Some? ==> !AlreadyApproved(w, d.evidence.value.selection.id)
    ensures SoundDecisions(env, w')
  {
    hide SoundDecision, Stored, Chosen, Events;
    EventsGrow(w.decisions, d);
    forall x | x in w'.decisions ensures SoundDecision(env, w', x) {
      if x in w.decisions { DecisionStaysSound(env, w, w', x); }
    }
    assert forall i | 0 <= i < |w.decisions| :: w'.decisions[i] == w.decisions[i] && w.decisions[i] in w.decisions;
  }

  lemma RejectKeeps(env: Environment, w: World, op: Operation)
    requires Sound(env, w) && op.Finalize? && op.expected.analysis.Some? && DoReject(env, w, w, op).Some?
    ensures Sound(env, DoReject(env, w, w, op).value)
  {
    hide SoundDecisions, SoundReceipts, J.Journal, Superseding, CurrentReview;
    SupersedingGrows(env, w.journal, CurrentReview(w), op.now, "decision-withdraw:" + op.decisionId);
    var w' := DoReject(env, w, w, op).value;
    ReceiptsStaySound(env, w, w');
    DecisionAdded(env, w, w', w'.decisions[|w.decisions|]);
  }

  lemma CurrentIsChosen(w: World)
    requires CurrentSelection(w).Some?
    ensures Chosen(w, CurrentSelection(w).value)
  {
    var r := FindReceipt(w.receipts, w.token.selection.value).value;
    assert r in w.receipts;
  }

  /** The review that is evidence is stored as the revision it is said to be. */
  lemma EvidenceIsStored(env: Environment, w: World)
    requires J.Journal(JournalEnv(env), w.journal) && EvidenceOf(env, w).Some?
    ensures var e := EvidenceOf(env, w).value;
      ValidEvidence(env, e) && Chosen(w, e.selection)
        && (e.review.Some? ==> Stored(w.journal, e.review.value, e.revision.value))
  {
    hide ValidEvidence, IsAlex, IsTaylor;
    var e := EvidenceOf(env, w).value;
    CurrentIsChosen(w);
    if e.review.Some? {
      LatestIsStored(env, w.journal, e.selection.reviewId.value);
    }
  }

  lemma LatestIsStored(env: Environment, journal: seq<J.Row>, id: string)
    requires J.Journal(JournalEnv(env), journal) && J.Latest(journal, id).Some?
    ensures var row := J.Latest(journal, id).value;
      row in J.History(journal, id) && Stored(journal, row.review, row.revision) && row.review.reviewId == id
  {
    var je := JournalEnv(env);
    assert J.Legal(je, J.History(journal, id));
    J.LatestIsLast(je, journal, id);
    J.HistoryMembers(journal, id);
  }

  lemma ApproveKeeps(env: Environment, w: World, op: Operation)
    requires Sound(env, w) && op.Finalize? && op.expected.analysis.Some? && DoApprove(env, w, w, op).Some?
    ensures Sound(env, DoApprove(env, w, w, op).value)
  {
    hide SoundDecisions, SoundReceipts, J.Journal, EvidenceOf, Stored, Chosen, ValidEvidence;
    EvidenceIsStored(env, w);
    var w' := DoApprove(env, w, w, op).value;
    ReceiptsStaySound(env, w, w');
    var d := w'.decisions[|w.decisions|];
    ChosenStays(w, w', d.evidence.value.selection);
    DecisionAdded(env, w, w', d);
  }

  lemma ChosenStays(w: World, w': World, s: Selection)
    requires Chosen(w, s) && w'.receipts == w.receipts
    ensures Chosen(w', s)
  {
  }

  lemma AloneKeeps(env: Environment, w: World, op: Operation)
    requires Sound(env, w)
    ensures Sound(env, Alone(env, w, op))
  {
    hide Sound, DoSubmit, DoResolve, DoApprove, DoReject, DoPublishAnalysis, IsAlex, CurrentSelection;
    if Do(env, w, w, op).Some? {
      match op {
        case SubmitProposal(_, _, _, _, _, _, _, _) => SubmitKeeps(env, w, op);
        case ResolveReview(_, _, _, _, _, _, _, _, _) => ResolveKeeps(env, w, op);
        case Finalize(kind, _, _, _, _, _, _) =>
          if kind == Approve { ApproveKeeps(env, w, op); } else { RejectKeeps(env, w, op); }
        case PublishAnalysis(_, _) => AnalysisKeeps(env, w, op);
      }
    }
  }

  lemma {:induction false} AloneInTurnKeeps(env: Environment, w: World, ops: seq<Operation>)
    requires Sound(env, w)
    ensures Sound(env, AloneInTurn(env, w, ops))
  {
    hide Sound, Alone;
    if |ops| > 0 {
      AloneInTurnKeeps(env, w, ops[..|ops| - 1]);
      AloneKeeps(env, AloneInTurn(env, w, ops[..|ops| - 1]), ops[|ops| - 1]);
    }
  }

  const EMPTY := World(Token(0, None, None), [], [], [], [])

  lemma EmptyIsSound(env: Environment)
    ensures Sound(env, EMPTY)
  {
    assert forall id: string :: J.History([], id) == [];
  }

  lemma EveryRunIsSound(env: Environment, g: Global, schedule: seq<nat>)
    requires AllWaiting(g) && g.world == EMPTY
    ensures Sound(env, Run(env, g, schedule).world)
  {
    hide Sound;
    EveryRunIsSequential(env, g, schedule);
    EmptyIsSound(env);
    AloneInTurnKeeps(env, g.world, OperationsOf(g, Committers(env, g, schedule)));
  }

  // --- What that means ----------------------------------------------------------------------------------

  /** An approval is of a low cost, or rests on an approved review of exactly that proposal, by another
      person of the same tenant; and submission, review and decision follow one another in time. */
  ghost predicate Justified(env: Environment, w: World, d: Decision) {
    && d.evidence.Some?
    && var e := d.evidence.value;
       && Chosen(w, e.selection) && e.selection.submittedAt <= d.decidedAt
       && if e.selection.proposal.cost <= 2_000_000 then e.review.None?
          else
            && e.review.Some? && e.revision.Some? && Stored(w.journal, e.review.value, e.revision.value)
            && e.review.value.status == Approved && e.review.value.proposal == e.selection.proposal
            && e.review.value.reviewedBy.Some? && e.review.value.reviewedAt.Some?
            && FourEyes(env.parse, e.review.value.reviewedBy.value, e.selection.submittedBy)
            && e.selection.submittedAt <= e.review.value.reviewedAt.value <= d.decidedAt
  }

  lemma StoredIsValid(env: Environment, journal: seq<J.Row>, r: Review, revision: int)
    requires J.Journal(JournalEnv(env), journal) && Stored(journal, r, revision)
    ensures ValidReview(r)
  {
    var h := J.History(journal, r.reviewId);
    var row :| row in h && row.review == r && row.revision == revision;
    var k :| 0 <= k < |h| && h[k] == row;
    assert J.Legal(JournalEnv(env), h);
    assert J.Follows(JournalEnv(env), h[..k], h[k]);
  }

  lemma SoundIsJustified(env: Environment, w: World, d: Decision)
    requires Sound(env, w) && d in w.decisions && d.kind == Approve
    ensures Justified(env, w, d)
  {
    assert SoundDecision(env, w, d);
    var e := d.evidence.value;
    if e.review.Some? { StoredIsValid(env, w.journal, e.review.value, e.revision.value); }
  }

  /** In every run each selection is approved at most once, every approval is justified, and the outbox
      holds exactly one event per approval, in order. */
  lemma ApprovalsAreJustified(env: Environment, g: Global, schedule: seq<nat>)
    requires AllWaiting(g) && g.world == EMPTY
    ensures var w := Run(env, g, schedule).world;
      && (forall d | d in w.decisions && d.kind == Approve :: Justified(env, w, d))
      && (forall i, j | 0 <= i < j < |w.decisions| && w.decisions[i].kind == Approve && w.decisions[j].kind == Approve
                        && w.decisions[i].evidence.Some? && w.decisions[j].evidence.Some? ::
            w.decisions[i].evidence.value.selection.id != w.decisions[j].evidence.value.selection.id)
      && w.outbox == Events(w.decisions)
  {
    hide Justified;
    EveryRunIsSound(env, g, schedule);
    var w := Run(env, g, schedule).world;
    forall d | d in w.decisions && d.kind == Approve ensures Justified(env, w, d) { SoundIsJustified(env, w, d); }
  }

  // --- Evidence that exists always validates ----------------------------------------------------------------

  lemma ConfiguredFourEyes(env: Environment, a: Identity, t: Identity)
    requires DifferentPeople(env) && IsAlex(env, a) && IsTaylor(env, t)
    ensures FourEyes(env.parse, t, a) && RequireSubmitter(env.parse, a).Ok? && RequireReviewer(env.parse, t).Ok?
  {
  }

  /** A selection's latest review has the selection's own terms, and is past its first revision once approved. */
  lemma LatestKeepsTerms(env: Environment, journal: seq<J.Row>, s: Selection)
    requires J.Journal(JournalEnv(env), journal) && SoundSelection(env, journal, s) && s.reviewId.Some?
    ensures J.Latest(journal, s.reviewId.value).Some?
    ensures var row := J.Latest(journal, s.reviewId.value).value;
      && ValidReview(row.review) && row.review.reviewId == s.reviewId.value && SameTerms(row.review, s)
      && (row.review.status != Pending ==> row.revision > 1)
  {
    var je, id := JournalEnv(env), s.reviewId.value;
    J.StoryOfAReview(je, journal, id);
    assert J.Legal(je, J.History(journal, id));
    J.LatestIsLast(je, journal, id);
    J.HistoryMembers(journal, id);
    var h := J.History(journal, id);
    assert J.SameSubmission(h[0].review, h[|h| - 1].review);
  }

  /** For every sound state: evidence is available exactly when the current proposal is cheap, or its latest
      review is Taylor's approval; what the evidence model checks beyond that always holds. */
  lemma EvidenceAvailability(env: Environment, w: World)
    requires DifferentPeople(env) && Sound(env, w)
    ensures EvidenceOf(env, w).Some? <==>
      && CurrentSelection(w).Some?
      && (RequiresFinanceApproval(CurrentSelection(w).value.proposal.cost) ==>
            && CurrentReview(w).Some? && CurrentReview(w).value.review.status == Approved
            && CurrentReview(w).value.review.reviewedBy.Some?
            && IsTaylor(env, CurrentReview(w).value.review.reviewedBy.value))
  {
    hide J.Journal, SoundDecisions, IsAlex, IsTaylor;
    if CurrentSelection(w).Some? {
      var s := CurrentSelection(w).value;
      CurrentIsChosen(w);
      assert SoundSelection(env, w.journal, s);
      if s.reviewId.Some? {
        LatestKeepsTerms(env, w.journal, s);
        var review := CurrentReview(w).value.review;
        if review.reviewedBy.Some? && IsTaylor(env, review.reviewedBy.value) {
          ConfiguredFourEyes(env, s.submittedBy, review.reviewedBy.value);
        }
      }
      AlexSubmits(env, s.submittedBy);
    }
  }

  lemma AlexSubmits(env: Environment, a: Identity)
    requires IsAlex(env, a)
    ensures RequireSubmitter(env.parse, a).Ok?
  {
  }

  // --- Asking again -------------------------------------------------------------------------------------------

  /** Selections and decisions are only ever added, like the journal's rows. */
  ghost predicate Extends(w: World, w': World) {
    w.receipts <= w'.receipts && w.journal <= w'.journal && w.decisions <= w'.decisions
  }

  lemma SubmitExtends(env: Environment, w: World, op: Operation)
    requires J.Journal(JournalEnv(env), w.journal) && op.SubmitProposal? && DoSubmit(env, w, w, op).Some?
    ensures Extends(w, DoSubmit(env, w, w, op).value)
    ensures var analysis := op.expected.analysis.value;
      var s := SelectionFor(env, op, analysis, env.cost(analysis.id, op.optionId).value);
      && DoSubmit(env, w, w, op).value.receipts == w.receipts + [Receipt(s, op.expected, op.key, op.fingerprint)]
      && ReceiptByKey(w.receipts, op.key).None?
      && (s.reviewId.Some? ==> RevisionAt(DoSubmit(env, w, w, op).value.journal, s.reviewId.value, 1).Some?)
  {
    hide Superseding, OpenReview, IsAlex, J.Journal;
    var analysis := op.expected.analysis.value;
    var s := SelectionFor(env, op, analysis, env.cost(analysis.id, op.optionId).value);
    var pending := OpenReview(env, w, op, s).value;
    PendingStarts(env, w, op, s);
    SupersedingGrows(env, pending, ReviewOf(pending, CurrentSelection(w)), op.now, "selection-supersede:" + s.id);
    if s.reviewId.Some? {
      PendingIsFirst(env, pending, s.reviewId.value);
      RevisionStays(pending, DoSubmit(env, w, w, op).value.journal, s.reviewId.value, 1);
    }
  }

  lemma PendingIsFirst(env: Environment, journal: seq<J.Row>, id: string)
    requires J.Journal(JournalEnv(env), journal) && |J.History(journal, id)| > 0
    ensures RevisionAt(journal, id, 1).Some?
  {
    var h := J.History(journal, id);
    J.StoryOfAReview(JournalEnv(env), journal, id);
    J.HistoryMembers(journal, id);
    assert h[0] in h;
    RevisionFound(journal, h[0]);
  }

  lemma {:induction false} RevisionFound(journal: seq<J.Row>, row: J.Row)
    requires row in journal
    ensures RevisionAt(journal, row.review.reviewId, row.revision).Some?
  {
    if journal[0] != row { RevisionFound(journal[1..], row); }
  }

  lemma {:induction false} RevisionStays(rows: seq<J.Row>, rows': seq<J.Row>, id: string, revision: int)
    requires rows <= rows' && RevisionAt(rows, id, revision).Some?
    ensures RevisionAt(rows', id, revision) == RevisionAt(rows, id, revision)
  {
    if !(rows[0].review.reviewId == id && rows[0].revision == revision) {
      RevisionStays(rows[1..], rows'[1..], id, revision);
    }
  }

  lemma {:induction false} ReceiptStays(receipts: seq<Receipt>, receipts': seq<Receipt>, key: string)
    requires receipts <= receipts' && ReceiptByKey(receipts, key).Some?
    ensures ReceiptByKey(receipts', key) == ReceiptByKey(receipts, key)
  {
    if receipts[0].key != key { ReceiptStays(receipts[1..], receipts'[1..], key); }
  }

  lemma {:induction false} ReceiptAdded(receipts: seq<Receipt>, r: Receipt)
    requires ReceiptByKey(receipts, r.key).None?
    ensures ReceiptByKey(receipts + [r], r.key) == Some(r)
  {
    if |receipts| > 0 {
      assert receipts[0] in receipts;
      assert (receipts + [r])[1..] == receipts[1..] + [r];
      ReceiptAdded(receipts[1..], r);
    }
  }

  lemma {:induction false} DecisionStays(decisions: seq<Decision>, decisions': seq<Decision>, key: string)
    requires decisions <= decisions' && DecisionByKey(decisions, key).Some?
    ensures DecisionByKey(decisions', key) == DecisionByKey(decisions, key)
  {
    if decisions[0].key != key { DecisionStays(decisions[1..], decisions'[1..], key); }
  }

  lemma {:induction false} DecisionIsFound(decisions: seq<Decision>, d: Decision)
    requires DecisionByKey(decisions, d.key).None?
    ensures DecisionByKey(decisions + [d], d.key) == Some(d)
  {
    if |decisions| > 0 {
      assert decisions[0] in decisions;
      assert (decisions + [d])[1..] == decisions[1..] + [d];
      DecisionIsFound(decisions[1..], d);
    }
  }

  lemma AloneExtends(env: Environment, w: World, op: Operation)
    requires J.Journal(JournalEnv(env), w.journal)
    ensures Extends(w, Alone(env, w, op))
  {
    hide DoSubmit, J.Journal, Superseding, Journaled, Resolve, EvidenceOf, ValidApproval, CurrentReview, IsAlex,
      IsTaylor;
    if Do(env, w, w, op).Some? {
      match op {
        case SubmitProposal(_, _, _, _, _, _, _, _) => SubmitExtends(env, w, op);
        case ResolveReview(_, _, _, _, _, _, _, _, _) =>
          JournaledGrows(env, w.journal, ResolutionRequest(env, w, op).value);
        case Finalize(_, _, _, _, _, _, _) =>
          if op.kind == Reject {
            SupersedingGrows(env, w.journal, CurrentReview(w), op.now, "decision-withdraw:" + op.decisionId);
          }
        case PublishAnalysis(_, _) =>
          SupersedingGrows(env, w.journal, CurrentReview(w), op.now, "analysis-supersede:" + op.analysis.id);
      }
    }
  }

  lemma {:induction false} AloneInTurnExtends(env: Environment, w: World, ops: seq<Operation>)
    requires Sound(env, w)
    ensures Extends(w, AloneInTurn(env, w, ops)) && Sound(env, AloneInTurn(env, w, ops))
  {
    hide Alone;
    AloneInTurnKeeps(env, w, ops);
    if |ops| > 0 {
      var front := ops[..|ops| - 1];
      AloneInTurnExtends(env, w, front);
      AloneExtends(env, AloneInTurn(env, w, front), ops[|ops| - 1]);
    }
  }

  lemma SubmittedAgain(env: Environment, w: World, op: Operation, later: World)
    requires J.Journal(JournalEnv(env), w.journal) && op.SubmitProposal? && DoSubmit(env, w, w, op).Some?
    requires Extends(DoSubmit(env, w, w, op).value, later)
    ensures SubmitReply(env, later, op) == SubmitReply(env, w, op) && DoSubmit(env, later, later, op).None?
    ensures SubmitReply(env, w, op).Submitted?
  {
    hide Superseding, OpenReview, IsAlex, J.Journal, Publish;
    SubmitExtends(env, w, op);
    var w' := DoSubmit(env, w, w, op).value;
    var stored := w'.receipts[|w.receipts|];
    ReceiptAdded(w.receipts, stored);
    ReceiptStays(w'.receipts, later.receipts, op.key);
    if stored.selection.reviewId.Some? { RevisionStays(w'.journal, later.journal, stored.selection.reviewId.value, 1); }
  }

  /** A committed resolution appends one row, for the review as Taylor left it. */
  lemma ResolutionIsRecorded(env: Environment, w: World, op: Operation)
    requires J.Journal(JournalEnv(env), w.journal) && op.ResolveReview? && DoResolve(env, w, w, op).Some?
    ensures ResolutionRequest(env, w, op).Some?
    ensures var q := ResolutionRequest(env, w, op).value;
      && DoResolve(env, w, w, op).value.journal == w.journal + [J.RowFor(q, op.expectedRevision + 1)]
      && q.key == "finance-resolve:" + op.key && q.fingerprint == op.fingerprint
      && IsAlex(env, q.review.submittedBy) && q.review.reviewedBy == Some(op.actor)
  {
    hide IsAlex, IsTaylor, J.Journal, CurrentReview, CurrentSelection, Resolve, Journaled, J.Latest, J.ByKey;
    var latest := J.Latest(w.journal, op.reviewId).value;
    var proposal := CurrentSelection(w).value.proposal;
    ResolvedBy(env.parse, latest.review, proposal, op.actor, op.approved, op.reason, op.now);
    JournaledAppends(env, w.journal, ResolutionRequest(env, w, op).value);
  }

  lemma ResolvedBy(parse: UuidParser, review: Review, current: Proposal, actor: Identity, approved: bool,
                   reason: Option<string>, now: int)
    ensures var r := Resolve(parse, review, current, actor, approved, reason, now);
      r.Ok? ==> r.value.submittedBy == review.submittedBy && r.value.reviewedBy == Some(actor)
  {
    hide RequireReviewer, RequireUuid, ValidReview;
  }

  lemma JournaledAppends(env: Environment, journal: seq<J.Row>, q: J.Request)
    requires Journaled(env, journal, q).Some? && q.expected.Some?
    ensures Journaled(env, journal, q).value == journal + [J.RowFor(q, q.expected.value + 1)]
  {
    hide J.ByKey, J.Latest, J.Refuse;
  }

  lemma ResolvedAgain(env: Environment, w: World, op: Operation, later: World)
    requires J.Journal(JournalEnv(env), w.journal) && op.ResolveReview? && DoResolve(env, w, w, op).Some?
    requires Extends(DoResolve(env, w, w, op).value, later) && J.Journal(JournalEnv(env), later.journal)
    ensures ResolveReply(env, later, op) == ResolveReply(env, w, op) && DoResolve(env, later, later, op).None?
    ensures ResolveReply(env, w, op).Resolved?
  {
    hide IsAlex, IsTaylor, J.Journal, CurrentReview, Resolve, Journaled;
    ResolutionIsRecorded(env, w, op);
    var n := |w.journal|;
    assert later.journal[n] == DoResolve(env, w, w, op).value.journal[n];
    J.KeyedRow(JournalEnv(env), later.journal, n);
  }

  /** The decision a finalization records. */
  function DecisionFor(env: Environment, w: World, op: Operation): Decision
    requires op.Finalize? && op.expected.analysis.Some? && (op.kind == Approve ==> EvidenceOf(env, w).Some?)
  {
    if op.kind == Approve then ApprovalOf(op, EvidenceOf(env, w).value) else RejectionOf(op)
  }

  lemma FinalizationIsRecorded(env: Environment, w: World, op: Operation)
    requires op.Finalize? && DoFinalize(env, w, w, op).Some?
    ensures op.expected.analysis.Some? && (op.kind == Approve ==> EvidenceOf(env, w).Some?)
    ensures var d := DecisionFor(env, w, op);
      && DoFinalize(env, w, w, op).value.decisions == w.decisions + [d]
      && DecisionByKey(w.decisions, op.key).None?
      && d.key == op.key && d.fingerprint == op.fingerprint && d.actor == op.actor
      && (d.evidence.Some? ==> IsAlex(env, d.evidence.value.selection.submittedBy))
  {
    hide IsAlex, ValidApproval, Superseding, CurrentReview, CurrentSelection, ValidEvidence, Recorded;
  }

  lemma FinalizedAgain(env: Environment, w: World, op: Operation, later: World)
    requires op.Finalize? && DoFinalize(env, w, w, op).Some? && Extends(DoFinalize(env, w, w, op).value, later)
    ensures FinalizeReply(env, later, op) == FinalizeReply(env, w, op) && DoFinalize(env, later, later, op).None?
    ensures FinalizeReply(env, w, op).Finalized?
  {
    hide IsAlex, DoApprove, DoReject, EvidenceOf, CurrentSelection;
    FinalizationIsRecorded(env, w, op);
    DecisionIsFound(w.decisions, DecisionFor(env, w, op));
    DecisionStays(w.decisions + [DecisionFor(env, w, op)], later.decisions, op.key);
  }

  /** A committed submission, resolution or finalization that is sent again, after whatever operations came between,
      is answered with what it was answered the first time, and changes nothing. */
  lemma AskingAgainChangesNothing(env: Environment, w: World, op: Operation, between: seq<Operation>)
    requires Sound(env, w) && !op.PublishAnalysis? && Do(env, w, w, op).Some?
    ensures var later := AloneInTurn(env, Alone(env, w, op), between);
      ReplyTo(env, later, op) == ReplyTo(env, w, op) && Alone(env, later, op) == later
    ensures ReplyTo(env, w, op) != Refused && ReplyTo(env, w, op) != KeyConflict
  {
    hide DoSubmit, DoResolve, DoFinalize, SubmitReply, ResolveReply, FinalizeReply;
    var now := Alone(env, w, op);
    var later := AloneInTurn(env, now, between);
    AloneKeeps(env, w, op);
    AloneInTurnExtends(env, now, between);
    match op {
      case SubmitProposal(_, _, _, _, _, _, _, _) => SubmittedAgain(env, w, op, later);
      case ResolveReview(_, _, _, _, _, _, _, _, _) => ResolvedAgain(env, w, op, later);
      case Finalize(_, _, _, _, _, _, _) => FinalizedAgain(env, w, op, later);
    }
  }
}
