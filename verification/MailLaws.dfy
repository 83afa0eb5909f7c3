/** What every interleaving of editors, reviewers, senders and late provider answers guarantees. */
module MailLaws {
  import opened Basics
  import opened Mail

  // --- What is always true ------------------------------------------------------------------

  /** The stored email: numbered revisions of which only the current one can be under review, and a delivery
      that is beyond `draft` only for the reviewed current revision, under the latest claim. */
  ghost predicate Sane(e: Email, claims: nat) {
    var d, n := e.delivery, |e.revisions|;
    && n > 0 && (forall k | 0 <= k < n :: e.revisions[k].number == k + 1)
    && (d.reviewedRevision == if Current(e).review.Some? then Some(n) else None)
    && d.providerMessageId.None? && d.internetMessageId.None?
    && (d.status == Draft <==> d.correlation.None?)
    && (d.correlation.Some? ==> d.correlation.value < claims && d.reviewedRevision.Some?)
  }

  ghost predicate RecordedFailure(call: Call) { call.recorded.Some? && call.recorded.value.status == Failed }

  /** The log: claims in order, each for a revision that was reviewed and has stayed as it was; and every
      call that is not the delivery's own has a recorded failure. */
  ghost predicate Logged(e: Email, calls: seq<Call>, claims: nat) {
    && (forall i, j | 0 <= i < j < |calls| :: calls[i].correlation < calls[j].correlation)
    && (forall i | 0 <= i < |calls| ::
          && calls[i].correlation < claims && Frozen(e, calls[i].content)
          && if e.delivery.correlation == Some(calls[i].correlation)
             then calls[i].recorded == if e.delivery.status == Submitting then None else Some(OutcomeOf(e.delivery))
             else RecordedFailure(calls[i]))
    && (forall i | 0 <= i < |calls| :: e.delivery.correlation.Some? ==>
        calls[i].correlation <= e.delivery.correlation.value)
  }

  /** A reviewed revision, which nothing can change any more. */
  ghost predicate Frozen(e: Email, r: Revision) {
    r.review.Some? && 1 <= r.number <= |e.revisions| && e.revisions[r.number - 1] == r
  }

  ghost predicate Holds(e: Email, calls: seq<Call>, c: nat, called: bool) {
    && e.delivery.correlation == Some(c) && e.delivery.status == Submitting
    && (called <==> exists i :: 0 <= i < |calls| && calls[i].correlation == c)
  }

  /** What an agent has read still matters in this way. */
  ghost predicate Knows(w: World, a: Agent) {
    match a
    case ReviewerRead(expected, reviewed, marked) =>
      && reviewed.review.Some? && 1 <= expected <= |w.email.revisions|
      && reviewed.number == expected
      && (expected == |w.email.revisions| && Current(w.email).review.None? ==>
            && reviewed.(review := None) == Current(w.email)
            && marked == w.email.delivery.(reviewedRevision := Some(expected), updatedAt := reviewed.review.value.at))
    case SenderRead(content, delivery) =>
      Frozen(w.email, content) && delivery.reviewedRevision == Some(content.number)
    case Claimed(content, c) =>
      Holds(w.email, w.calls, c, false) && |w.email.revisions| > 0 && content == Current(w.email)
        && content.review.Some?
    case Called(_, c) => Holds(w.email, w.calls, c, true)
    case Answered(c, _) => Holds(w.email, w.calls, c, true)
    case Returning(c, changed) =>
      && Holds(w.email, w.calls, c, true) && changed.status != Submitting && changed.status != Draft
      && changed == w.email.delivery.(status := changed.status, failure := changed.failure,
                                      updatedAt := changed.updatedAt)
    case _ => true
  }

  /** The claim an agent is pursuing, if any. */
  function Pursues(a: Agent): Option<nat> {
    match a
    case Claimed(_, c) => Some(c)
    case Called(_, c) => Some(c)
    case Answered(c, _) => Some(c)
    case Returning(c, _) => Some(c)
    case _ => None
  }

  ghost predicate Consistent(w: World) {
    && Sane(w.email, w.claims) && Logged(w.email, w.calls, w.claims)
    && (forall i | 0 <= i < |w.agents| :: Knows(w, w.agents[i]))
    && (forall i, j | 0 <= i < j < |w.agents| && Pursues(w.agents[i]).Some? ::
        Pursues(w.agents[i]) != Pursues(w.agents[j]))
  }

  lemma {:induction false} AnswerOfOne(calls: seq<Call>, c: nat, a: Answer)
    ensures |WithAnswer(calls, c, a)| == |calls|
    ensures forall i | 0 <= i < |calls| ::
      WithAnswer(calls, c, a)[i] == if calls[i].correlation == c then calls[i].(answer := Some(a)) else calls[i]
  {
    if |calls| > 0 { AnswerOfOne(calls[1..], c, a); }
  }

  lemma {:induction false} OutcomeOfOne(calls: seq<Call>, c: nat, s: Outcome)
    ensures |WithOutcome(calls, c, s)| == |calls|
    ensures forall i | 0 <= i < |calls| ::
      WithOutcome(calls, c, s)[i] == if calls[i].correlation == c then calls[i].(recorded := Some(s)) else calls[i]
  {
    if |calls| > 0 { OutcomeOfOne(calls[1..], c, s); }
  }

  // --- The steps ----------------------------------------------------------------------------------

  lemma SaveKeeps(w: World, a: Agent, m: Move)
    requires Sane(w.email, w.claims) && Logged(w.email, w.calls, w.claims) && a.Editor?
    ensures Save(w, a, m).1.Done? && Save(w, a, m).0.claims == w.claims
    ensures var w' := Save(w, a, m).0;
      && Sane(w'.email, w'.claims) && Logged(w'.email, w'.calls, w'.claims)
      && forall b | Knows(w, b) :: Knows(w', b)
  {
    var w' := Save(w, a, m).0;
    if w'.email != w.email {
      assert w.email.delivery.status != Submitting;
      forall r | Frozen(w.email, r) ensures Frozen(w'.email, r) { }
    }
  }

  lemma MarkKeeps(w: World, a: Agent)
    requires Sane(w.email, w.claims) && Logged(w.email, w.calls, w.claims) && a.ReviewerRead? && Knows(w, a)
    ensures MarkReviewed(w.email, a.reviewed, a.marked, a.expected) != Inconsistent
    ensures Mark(w, a).1.Done? && Mark(w, a).0.claims == w.claims
    ensures var w' := Mark(w, a).0;
      && Sane(w'.email, w'.claims) && Logged(w'.email, w'.calls, w'.claims)
      && forall b | Knows(w, b) :: Knows(w', b)
  {
    var w' := Mark(w, a).0;
    if w'.email != w.email {
      assert Current(w.email).review.None?;
      assert w.email.delivery.status == Draft;
      assert Current(w'.email) == a.reviewed;
      forall r | Frozen(w.email, r) ensures Frozen(w'.email, r) { }
    }
  }

  lemma ClaimKeeps(w: World, a: Agent, m: Move)
    requires Sane(w.email, w.claims) && Logged(w.email, w.calls, w.claims) && a.SenderRead? && Knows(w, a)
    ensures var next := Claim(w, a, m);
      && Sane(next.0.email, next.0.claims) && Logged(next.0.email, next.0.calls, next.0.claims)
      && Knows(next.0, next.1) && next.0.claims >= w.claims
      && (Pursues(next.1).Some? ==> Pursues(next.1) == Some(w.claims))
      && forall b | Knows(w, b) :: Knows(next.0, b)
  {
    hide Sane, Logged, Knows, Claim;
    ClaimKeepsLog(w, a, m);
    ClaimIsKnown(w, a, m);
    forall b | Knows(w, b) ensures Knows(Claim(w, a, m).0, b) { ClaimKeepsKnowledge(w, a, m, b); }
  }

  lemma ClaimKeepsLog(w: World, a: Agent, m: Move)
    requires Sane(w.email, w.claims) && Logged(w.email, w.calls, w.claims) && a.SenderRead? && Knows(w, a)
    ensures var w' := Claim(w, a, m).0; Sane(w'.email, w'.claims) && Logged(w'.email, w'.calls, w'.claims)
  {
    hide Frozen;
    var w' := Claim(w, a, m).0;
    forall r | Frozen(w.email, r) ensures Frozen(w'.email, r) { FrozenStays(w.email, w'.email, r); }
  }

  lemma ClaimIsKnown(w: World, a: Agent, m: Move)
    requires Sane(w.email, w.claims) && Logged(w.email, w.calls, w.claims) && a.SenderRead? && Knows(w, a)
    ensures var next := Claim(w, a, m);
      && Knows(next.0, next.1) && next.0.claims >= w.claims
      && (Pursues(next.1).Some? ==> Pursues(next.1) == Some(w.claims))
  {
  }

  lemma ClaimKeepsKnowledge(w: World, a: Agent, m: Move, b: Agent)
    requires Sane(w.email, w.claims) && a.SenderRead? && Knows(w, a) && Knows(w, b)
    ensures Knows(Claim(w, a, m).0, b)
  {
  }

  lemma CallKeeps(w: World, a: Agent)
    requires Sane(w.email, w.claims) && Logged(w.email, w.calls, w.claims) && a.Claimed? && Knows(w, a)
    ensures var w' := w.(calls := w.calls + [Call(a.content, a.correlation, None, None)]);
      && Logged(w'.email, w'.calls, w'.claims) && Knows(w', Called(a.content, a.correlation))
      && forall b | Knows(w, b) && Pursues(b) != Some(a.correlation) :: Knows(w', b)
  {
    var w' := w.(calls := w.calls + [Call(a.content, a.correlation, None, None)]);
    assert w'.calls[|w.calls|].correlation == a.correlation;
    forall i | 0 <= i < |w.calls| ensures w.calls[i].correlation < a.correlation {
      assert w.calls[i].correlation != a.correlation;
    }
  }

  lemma RecordSucceeds(w: World, a: Agent)
    requires a.Returning? && Knows(w, a)
    ensures var outcome := WithOutcome(w.calls, a.correlation, OutcomeOf(a.changed));
      Record(w, a) == (w.(email := w.email.(delivery := a.changed), calls := outcome), Done(Recorded(a.changed.status)))
    ensures a.changed.status != Submitting && a.changed.status != Draft && w.email.delivery.status == Submitting
    ensures w.email.delivery.correlation == Some(a.correlation)
    ensures a.changed == w.email.delivery.(status := a.changed.status, failure := a.changed.failure,
                                           updatedAt := a.changed.updatedAt)
  {
  }

  lemma FrozenStays(e: Email, e': Email, r: Revision)
    requires Frozen(e, r) && e'.revisions == e.revisions
    ensures Frozen(e', r)
  {
  }

  lemma RecordKeepsLog(w: World, a: Agent)
    requires Sane(w.email, w.claims) && Logged(w.email, w.calls, w.claims) && a.Returning? && Knows(w, a)
    ensures var w' := Record(w, a).0; Sane(w'.email, w'.claims) && Logged(w'.email, w'.calls, w'.claims)
  {
    hide Knows, Frozen, Record, WithOutcome;
    RecordSucceeds(w, a);
    OutcomeOfOne(w.calls, a.correlation, OutcomeOf(a.changed));
    var w' := Record(w, a).0;
    forall r | Frozen(w.email, r) ensures Frozen(w'.email, r) { FrozenStays(w.email, w'.email, r); }
  }

  lemma RecordKeepsKnowledge(w: World, a: Agent, b: Agent)
    requires Sane(w.email, w.claims) && a.Returning? && Knows(w, a) && Knows(w, b) && Pursues(b) != Some(a.correlation)
    ensures Knows(Record(w, a).0, b)
  {
    hide Record, WithOutcome;
    RecordSucceeds(w, a);
  }

  lemma RecordKeeps(w: World, a: Agent)
    requires Sane(w.email, w.claims) && Logged(w.email, w.calls, w.claims) && a.Returning? && Knows(w, a)
    ensures Record(w, a).1 == Done(Recorded(a.changed.status)) && Record(w, a).0.claims == w.claims
    ensures var w' := Record(w, a).0;
      && Sane(w'.email, w'.claims) && Logged(w'.email, w'.calls, w'.claims)
      && forall b | Knows(w, b) && Pursues(b) != Some(a.correlation) :: Knows(w', b)
  {
    hide Sane, Logged, Knows, Record;
    RecordSucceeds(w, a);
    RecordKeepsLog(w, a);
    forall b | Knows(w, b) && Pursues(b) != Some(a.correlation) ensures Knows(Record(w, a).0, b) {
      RecordKeepsKnowledge(w, a, b);
    }
  }

  /** Hearing the provider's answer. */
  lemma HearKeeps(w: World, a: Agent, m: Move)
    requires Logged(w.email, w.calls, w.claims) && a.Called? && Knows(w, a)
    ensures var w', a' := Act(w, a, m).0, Act(w, a, m).1;
      && w'.email == w.email && w'.claims == w.claims && a' == Answered(a.correlation, m.answer)
      && Logged(w'.email, w'.calls, w'.claims) && Knows(w', a')
      && forall b | Knows(w, b) :: Knows(w', b)
  {
    hide WithAnswer, Frozen, Logged, Holds;
    LogHears(w.email, w.calls, w.claims, a.correlation, m.answer);
  }

  lemma LogHears(e: Email, calls: seq<Call>, claims: nat, c: nat, answer: Answer)
    requires Logged(e, calls, claims)
    ensures Logged(e, WithAnswer(calls, c, answer), claims)
    ensures forall d, called | Holds(e, calls, d, called) :: Holds(e, WithAnswer(calls, c, answer), d, called)
  {
    hide WithAnswer, Frozen;
    AnswerOfOne(calls, c, answer);
    forall d, called | Holds(e, calls, d, called) ensures Holds(e, WithAnswer(calls, c, answer), d, called) {
      assert forall i | 0 <= i < |calls| :: WithAnswer(calls, c, answer)[i].correlation == calls[i].correlation;
    }
  }

  /** The steps that only read. */
  lemma ReadKeeps(w: World, a: Agent, m: Move)
    requires Sane(w.email, w.claims) && Knows(w, a)
    requires a.Reviewer? || a.Sender? || a.Answered? || a.Done?
    ensures Act(w, a, m).0 == w && Knows(w, Act(w, a, m).1)
    ensures Pursues(Act(w, a, m).1).Some? ==> Pursues(Act(w, a, m).1) == Pursues(a)
  {
  }

  lemma DoneKnowsNothing(w: World, a: Agent)
    ensures a.Done? ==> Knows(w, a)
  {
  }

  lemma SaneHasRevisions(e: Email, claims: nat)
    requires Sane(e, claims)
    ensures |e.revisions| > 0
  {
  }

  /** One agent's step keeps everything, for itself and for the others. */
  lemma ActKeeps(w: World, a: Agent, m: Move)
    requires Sane(w.email, w.claims) && Logged(w.email, w.calls, w.claims) && Knows(w, a)
    ensures var next := Act(w, a, m);
      && Sane(next.0.email, next.0.claims) && Logged(next.0.email, next.0.calls, next.0.claims)
      && Knows(next.0, next.1) && next.0.claims >= w.claims
      && (Pursues(next.1).Some? ==> Pursues(next.1) == Pursues(a) || Pursues(next.1) == Some(w.claims))
      && forall b | Knows(w, b) && (Pursues(b).None? || Pursues(b) != Pursues(a)) :: Knows(next.0, b)
  {
    hide Sane, Logged, Knows, Save, Mark, Claim, Record, ReadForReview, ReadForSend, ReadForAnswer;
    SaneHasRevisions(w.email, w.claims);
    DoneKnowsNothing(Act(w, a, m).0, Act(w, a, m).1);
    match a {
      case Editor(_, _, _) => SaveKeeps(w, a, m);
      case ReviewerRead(_, _, _) => MarkKeeps(w, a);
      case SenderRead(_, _) => ClaimKeeps(w, a, m);
      case Claimed(_, _) => CallKeeps(w, a);
      case Called(_, _) => HearKeeps(w, a, m);
      case Returning(_, _) => RecordKeeps(w, a);
      case _ => ReadKeeps(w, a, m);
    }
  }

  lemma PursuedIsClaimed(w: World, a: Agent)
    requires Sane(w.email, w.claims) && Knows(w, a) && Pursues(a).Some?
    ensures Pursues(a).value < w.claims
  {
  }

  lemma StepKeeps(w: World, m: Move)
    requires Consistent(w)
    ensures Consistent(Step(w, m))
  {
    if m.agent < |w.agents| {
      var i, a := m.agent, w.agents[m.agent];
      ActKeeps(w, a, m);
      var next := Act(w, a, m);
      var w' := Step(w, m);
      forall k | 0 <= k < |w'.agents| ensures Knows(w', w'.agents[k]) {
        if k != i { OthersKnow(w, i, k); }
        SameKnowledge(next.0, w', w'.agents[k]);
      }
      forall j, k | 0 <= j < k < |w'.agents| && Pursues(w'.agents[j]).Some?
        ensures Pursues(w'.agents[j]) != Pursues(w'.agents[k])
      {
        if j != i { PursuedIsClaimed(w, w.agents[j]); }
        if k != i && Pursues(w.agents[k]).Some? { PursuedIsClaimed(w, w.agents[k]); }
      }
    }
  }

  lemma OthersKnow(w: World, i: nat, k: nat)
    requires Consistent(w) && i < |w.agents| && k < |w.agents| && i != k
    ensures Pursues(w.agents[k]).None? || Pursues(w.agents[k]) != Pursues(w.agents[i])
  {
  }

  lemma SameKnowledge(w: World, w': World, a: Agent)
    requires Knows(w, a) && w'.email == w.email && w'.calls == w.calls
    ensures Knows(w', a)
  {
  }

  // --- Every run ---------------------------------------------------------------------------------

  /** An email just opened, and agents who have not begun. */
  ghost predicate Begins(w: World, subject: string, body: string, now: int) {
    && w.email == Opened(subject, body, now) && w.calls == [] && w.claims == 0
    && forall i | 0 <= i < |w.agents| :: w.agents[i].Editor? || w.agents[i].Reviewer? || w.agents[i].Sender?
  }

  lemma {:induction false} EveryRunIsConsistent(w: World, subject: string, body: string, now: int, moves: seq<Move>)
    requires Begins(w, subject, body, now)
    ensures Consistent(Run(w, moves))
  {
    if |moves| > 0 {
      EveryRunIsConsistent(w, subject, body, now, moves[..|moves| - 1]);
      StepKeeps(Run(w, moves[..|moves| - 1]), moves[|moves| - 1]);
    }
  }

  /** In every run all provider calls but the last have a recorded failure: so each revision, and the email
      as a whole, has at most one call that did not fail. */
  lemma AllButTheLastCallFailed(w: World, subject: string, body: string, now: int, moves: seq<Move>)
    requires Begins(w, subject, body, now)
    ensures var calls := Run(w, moves).calls;
      && (forall i | 0 <= i < |calls| - 1 :: RecordedFailure(calls[i]))
      && (forall i, j | 0 <= i < |calls| && 0 <= j < |calls| && !RecordedFailure(calls[i])
          && !RecordedFailure(calls[j]) :: i == j)
  {
    EveryRunIsConsistent(w, subject, body, now, moves);
    var end := Run(w, moves);
    assert forall i | 0 <= i < |end.calls| - 1 :: end.calls[i].correlation < end.calls[|end.calls| - 1].correlation;
  }

  /** Every call carries the content of a revision that had been reviewed, and the stored revision is still
      exactly that content. */
  lemma CallsCarryReviewedContent(w: World, subject: string, body: string, now: int, moves: seq<Move>, i: nat)
    requires Begins(w, subject, body, now) && i < |Run(w, moves).calls|
    ensures var end := Run(w, moves);
      var sent := end.calls[i].content;
      sent.review.Some? && 1 <= sent.number <= |end.email.revisions| && end.email.revisions[sent.number - 1] == sent
  {
    EveryRunIsConsistent(w, subject, body, now, moves);
    assert Frozen(Run(w, moves).email, Run(w, moves).calls[i].content);
  }

  /** At the moment of the call that revision is the current one, and the delivery names it as reviewed. */
  lemma CallsAreCurrent(w: World, subject: string, body: string, now: int, moves: seq<Move>, m: Move)
    requires Begins(w, subject, body, now)
    ensures var before := Run(w, moves);
      var after := Step(before, m);
      |after.calls| > |before.calls| ==>
        && |after.calls| == |before.calls| + 1
        && after.calls[|before.calls|].content == Current(after.email)
        && after.email.delivery.reviewedRevision == Some(Current(after.email).number)
        && after.email.delivery.correlation == Some(after.calls[|before.calls|].correlation)
  {
    EveryRunIsConsistent(w, subject, body, now, moves);
    var before := Run(w, moves);
    if m.agent < |before.agents| {
      var a := before.agents[m.agent];
      assert Knows(before, a);
      if a.Returning? { OutcomeOfOne(before.calls, a.correlation, OutcomeOf(a.changed)); }
      if a.Called? { AnswerOfOne(before.calls, a.correlation, m.answer); }
    }
  }

  lemma {:induction false} AgentsStay(w: World, moves: seq<Move>)
    requires |w.email.revisions| > 0
    ensures |Run(w, moves).agents| == |w.agents|
  {
    if |moves| > 0 { AgentsStay(w, moves[..|moves| - 1]); }
  }

  /** A provider's answer always finds its own claim: no answer to an older claim is ever outstanding, so
      recording one neither fails nor touches another claim's delivery. */
  lemma AnswersFindTheirClaim(w: World, subject: string, body: string, now: int, moves: seq<Move>, m: Move)
    requires Begins(w, subject, body, now) && m.agent < |w.agents|
    ensures |Run(w, moves).agents| == |w.agents|
    ensures var before, after := Run(w, moves), Step(Run(w, moves), m);
      && (before.agents[m.agent].Answered? ==> after.agents[m.agent].Returning?)
      && (before.agents[m.agent].Returning? ==>
            && after.agents[m.agent] == Done(Recorded(before.agents[m.agent].changed.status))
            && before.email.delivery.correlation == Some(before.agents[m.agent].correlation)
            && after.email == Email(before.email.revisions, before.agents[m.agent].changed))
  {
    AgentsStay(w, moves);
    EveryRunIsConsistent(w, subject, body, now, moves);
    assert Knows(Run(w, moves), Run(w, moves).agents[m.agent]);
  }

  // --- Answers to an older claim ------------------------------------------------------------------

  /** Claim c was drawn and is not the delivery's; what is about to be recorded names the claim it answers. */
  ghost predicate Overtaken(w: World, c: nat) {
    && |w.email.revisions| > 0 && c < w.claims && w.email.delivery.correlation != Some(c)
    && forall i | 0 <= i < |w.agents| && w.agents[i].Returning? ::
         w.agents[i].changed.correlation == Some(w.agents[i].correlation)
  }

  /** An agent that still pursues c: whatever it does, the email stays as it is. */
  ghost predicate LeavesTheEmail(w: World, m: Move, c: nat)
    requires |w.email.revisions| > 0
  {
    m.agent < |w.agents| && Pursues(w.agents[m.agent]) == Some(c) ==> Step(w, m).email == w.email
  }

  lemma OvertakenStays(w: World, m: Move, c: nat)
    requires Overtaken(w, c)
    ensures Overtaken(Step(w, m), c) && LeavesTheEmail(w, m, c)
  {
  }

  /** From any state, reachable or not: once a claim is no longer the delivery's it never becomes so again, and however
      late its answers come, in whatever interleaving, no step that pursues it changes the email. */
  lemma {:induction false} LateAnswersChangeNothing(w: World, moves: seq<Move>, c: nat)
    requires Overtaken(w, c)
    ensures Overtaken(Run(w, moves), c)
    ensures forall m: Move :: LeavesTheEmail(Run(w, moves), m, c)
  {
    if |moves| > 0 {
      var front := moves[..|moves| - 1];
      LateAnswersChangeNothing(w, front, c);
      OvertakenStays(Run(w, front), moves[|moves| - 1], c);
    }
    forall m: Move ensures LeavesTheEmail(Run(w, moves), m, c) { OvertakenStays(Run(w, moves), m, c); }
  }

  /** No run makes the store refuse a claim or a recorded state as malformed. */
  lemma UpdatesAreWellFormed(w: World, subject: string, body: string, now: int, moves: seq<Move>, m: Move)
    requires Begins(w, subject, body, now) && m.agent < |w.agents|
    ensures |Run(w, moves).agents| == |w.agents|
    ensures var before := Run(w, moves);
      var a := before.agents[m.agent];
      && (a.SenderRead? ==> Step(before, m).agents[m.agent] != Done(Refused))
      && (a.Returning? ==> WellFormedUpdate(a.changed, a.correlation))
  {
    AgentsStay(w, moves);
    EveryRunIsConsistent(w, subject, body, now, moves);
    assert Knows(Run(w, moves), Run(w, moves).agents[m.agent]);
  }

  /** No run ever stores a provider message id, so nothing that waits for one can proceed. */
  lemma ProviderIdsStayUnset(w: World, subject: string, body: string, now: int, moves: seq<Move>)
    requires Begins(w, subject, body, now)
    ensures Run(w, moves).email.delivery.providerMessageId.None? && Run(w, moves).email.delivery.internetMessageId.None?
  {
    EveryRunIsConsistent(w, subject, body, now, moves);
  }
}
