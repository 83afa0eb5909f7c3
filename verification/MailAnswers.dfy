/** What the provider answered is what is recorded, and only an answered failure is ever followed by another call
    (services/execution/mail_service.py:410-432). */
module MailAnswers {
  import opened Basics
  import opened Mail
  import opened MailLaws

  /** The recorded outcome for each of the provider's answers. */
  ghost predicate Reports(a: Answer, o: Outcome) {
    match a
    case AnswerAccepted => o == Outcome(Accepted, None)
    case AnswerFailed(code) => o == Outcome(Failed, Some(code))
    case AnswerUncertain(code) => o == Outcome(Uncertain, Some(code))
  }

  /** The call under a claim has this answer. */
  ghost predicate Heard(calls: seq<Call>, c: nat, answer: Option<Answer>) {
    forall i | 0 <= i < |calls| && calls[i].correlation == c :: calls[i].answer == answer
  }

  /** A recorded outcome is the answer's. */
  ghost predicate Faithful(call: Call) {
    call.recorded.Some? ==> call.answer.Some? && Reports(call.answer.value, call.recorded.value)
  }

  /** What an agent carries is its call's answer. */
  ghost predicate Carries(calls: seq<Call>, a: Agent) {
    match a
    case Called(_, c) => Heard(calls, c, None)
    case Answered(c, answer) => Heard(calls, c, Some(answer))
    case Returning(c, changed) => forall i | 0 <= i < |calls| && calls[i].correlation == c ::
      calls[i].answer.Some? && Reports(calls[i].answer.value, OutcomeOf(changed))
    case _ => true
  }

  ghost predicate Truthful(w: World) {
    && (forall i | 0 <= i < |w.calls| :: Faithful(w.calls[i]))
    && forall i | 0 <= i < |w.agents| :: Carries(w.calls, w.agents[i])
  }

  /** What a step does to the calls leaves what the others carry as it is. */
  ghost predicate CallsStay(calls: seq<Call>, calls': seq<Call>, moved: Option<nat>) {
    && |calls| <= |calls'|
    && (forall i | 0 <= i < |calls| :: calls'[i].correlation == calls[i].correlation
          && (Some(calls[i].correlation) != moved ==> calls'[i] == calls[i]))
    && forall i | |calls| <= i < |calls'| :: Some(calls'[i].correlation) == moved
  }

  lemma OthersCarry(calls: seq<Call>, calls': seq<Call>, moved: Option<nat>, b: Agent)
    requires CallsStay(calls, calls', moved) && Carries(calls, b) && (Pursues(b).None? || Pursues(b) != moved)
    ensures Carries(calls', b)
  {
    hide Reports;
  }

  lemma ActIsTruthful(w: World, a: Agent, m: Move)
    requires |w.email.revisions| > 0 && Knows(w, a) && Carries(w.calls, a)
    requires forall i | 0 <= i < |w.calls| :: Faithful(w.calls[i])
    ensures var next := Act(w, a, m);
      && CallsStay(w.calls, next.0.calls, Pursues(a)) && Carries(next.0.calls, next.1)
      && forall i | 0 <= i < |next.0.calls| :: Faithful(next.0.calls[i])
  {
    match a {
      case Called(_, c) => AnswerOfOne(w.calls, c, m.answer);
      case Returning(c, changed) => OutcomeOfOne(w.calls, c, OutcomeOf(changed));
      case _ =>
    }
  }

  lemma StepIsTruthful(w: World, m: Move)
    requires Consistent(w) && Truthful(w)
    ensures |w.email.revisions| > 0 && Truthful(Step(w, m))
  {
    hide Knows, Act, Reports, Faithful, Carries, CallsStay, Sane, Logged;
    SaneHasRevisions(w.email, w.claims);
    if m.agent < |w.agents| {
      ActIsTruthful(w, w.agents[m.agent], m);
      var next, w' := Act(w, w.agents[m.agent], m), Step(w, m);
      forall k | 0 <= k < |w'.agents| ensures Carries(w'.calls, w'.agents[k]) {
        if k != m.agent {
          OthersKnow(w, m.agent, k);
          OthersCarry(w.calls, next.0.calls, Pursues(w.agents[m.agent]), w.agents[k]);
        }
      }
    }
  }

  lemma {:induction false} EveryRunIsTruthful(w: World, subject: string, body: string, now: int, moves: seq<Move>)
    requires Begins(w, subject, body, now)
    ensures Truthful(Run(w, moves))
  {
    hide Truthful, Consistent;
    if |moves| == 0 {
      BeginsTruthful(w, subject, body, now);
    } else {
      var front := moves[..|moves| - 1];
      EveryRunIsTruthful(w, subject, body, now, front);
      EveryRunIsConsistent(w, subject, body, now, front);
      StepIsTruthful(Run(w, front), moves[|moves| - 1]);
    }
  }

  lemma BeginsTruthful(w: World, subject: string, body: string, now: int)
    requires Begins(w, subject, body, now)
    ensures Truthful(w)
  {
  }

  /** In every run each recorded outcome is accepted, failed or uncertain exactly as the provider answered that call,
      with the code it gave; and every call but the last was answered with a failure. */
  lemma RecordedAsAnswered(w: World, subject: string, body: string, now: int, moves: seq<Move>)
    requires Begins(w, subject, body, now)
    ensures var calls := Run(w, moves).calls;
      && (forall i | 0 <= i < |calls| && calls[i].recorded.Some? ::
            && calls[i].answer.Some?
            && (calls[i].recorded.value.status == Accepted <==> calls[i].answer.value == AnswerAccepted)
            && (calls[i].recorded.value.status == Failed <==> calls[i].answer.value.AnswerFailed?)
            && (calls[i].recorded.value.status == Uncertain <==> calls[i].answer.value.AnswerUncertain?)
            && (calls[i].recorded.value.code.None? <==> calls[i].answer.value == AnswerAccepted)
            && (calls[i].answer.value.AnswerFailed? || calls[i].answer.value.AnswerUncertain? ==>
                  calls[i].recorded.value.code == Some(calls[i].answer.value.code)))
      && (forall i | 0 <= i < |calls| - 1 :: calls[i].answer.Some? && calls[i].answer.value.AnswerFailed?)
  {
    EveryRunIsTruthful(w, subject, body, now, moves);
    AllButTheLastCallFailed(w, subject, body, now, moves);
    var calls := Run(w, moves).calls;
    forall i | 0 <= i < |calls| && calls[i].recorded.Some? ensures Faithful(calls[i]) { }
  }

  /** The delivery shows the provider's answer to the latest claim's call. */
  lemma DeliveryShowsTheAnswer(w: World, subject: string, body: string, now: int, moves: seq<Move>)
    requires Begins(w, subject, body, now)
    ensures var d, calls := Run(w, moves).email.delivery, Run(w, moves).calls;
      (d.status == Accepted || d.status == Failed || d.status == Uncertain) ==>
        forall i | 0 <= i < |calls| && Some(calls[i].correlation) == d.correlation ::
          calls[i].answer.Some? && match calls[i].answer.value
            case AnswerAccepted => d.status == Accepted && d.failure.None?
            case AnswerFailed(code) => d.status == Failed && d.failure == Some(code)
            case AnswerUncertain(code) => d.status == Uncertain && d.failure == Some(code)
  {
    EveryRunIsTruthful(w, subject, body, now, moves);
    EveryRunIsConsistent(w, subject, body, now, moves);
    var end := Run(w, moves);
    forall i | 0 <= i < |end.calls| && Some(end.calls[i].correlation) == end.email.delivery.correlation
      ensures Faithful(end.calls[i])
    {
    }
  }

  // --- Accepted mail is never sent again ---------------------------------------------------------

  /** Calls are only added; an answer, once heard, stays. */
  ghost predicate CallsGrow(calls: seq<Call>, calls': seq<Call>) {
    && |calls| <= |calls'|
    && forall i | 0 <= i < |calls| ::
         calls'[i].content == calls[i].content && calls'[i].correlation == calls[i].correlation
         && (calls[i].answer.Some? ==> calls'[i].answer == calls[i].answer)
  }

  lemma StepCallsGrow(w: World, m: Move)
    requires Consistent(w) && Truthful(w)
    ensures |w.email.revisions| > 0 && CallsGrow(w.calls, Step(w, m).calls)
  {
    if m.agent < |w.agents| {
      var a := w.agents[m.agent];
      assert Knows(w, a) && Carries(w.calls, a);
      hide Sane, Logged, Knows, Faithful;
      ActCallsGrow(w, a, m);
    }
  }

  lemma ActCallsGrow(w: World, a: Agent, m: Move)
    requires |w.email.revisions| > 0 && Carries(w.calls, a)
    ensures CallsGrow(w.calls, Act(w, a, m).0.calls)
  {
    hide WithAnswer, WithOutcome, Reports;
    if a.Called? { AnswerOfOne(w.calls, a.correlation, m.answer); }
    if a.Returning? { OutcomeOfOne(w.calls, a.correlation, OutcomeOf(a.changed)); }
  }

  lemma {:induction false} RunCallsGrow(w: World, subject: string, body: string, now: int, moves: seq<Move>,
                                        more: seq<Move>)
    requires Begins(w, subject, body, now)
    ensures CallsGrow(Run(w, moves).calls, Run(w, moves + more).calls)
  {
    hide Consistent, Truthful;
    if |more| == 0 {
      assert moves + more == moves;
    } else {
      var front, last := more[..|more| - 1], more[|more| - 1];
      assert (moves + more)[..|moves + more| - 1] == moves + front && (moves + more)[|moves + more| - 1] == last;
      RunCallsGrow(w, subject, body, now, moves, front);
      EveryRunIsConsistent(w, subject, body, now, moves + front);
      EveryRunIsTruthful(w, subject, body, now, moves + front);
      StepCallsGrow(Run(w, moves + front), last);
    }
  }

  /** Once the provider has accepted a message, or may have, nothing that anybody does afterwards calls it again. */
  lemma AcceptedIsNeverSentAgain(w: World, subject: string, body: string, now: int, moves: seq<Move>, more: seq<Move>,
                                 i: nat)
    requires Begins(w, subject, body, now) && i < |Run(w, moves).calls|
    requires Run(w, moves).calls[i].answer.Some? && !Run(w, moves).calls[i].answer.value.AnswerFailed?
    ensures |Run(w, moves + more).calls| == |Run(w, moves).calls|
  {
    RunCallsGrow(w, subject, body, now, moves, more);
    RecordedAsAnswered(w, subject, body, now, moves + more);
    RecordedAsAnswered(w, subject, body, now, moves);
  }

  // --- What editors and reviewers store ------------------------------------------------------------

  /** Over the current revision, while nothing is being sent or was accepted. */
  ghost predicate MaySave(w: World, a: Agent, m: Move)
    requires a.Editor?
  {
    && m.current && |w.email.revisions| == a.expected
    && (w.email.delivery.status == Draft || w.email.delivery.status == Failed)
  }

  /** In every run an edit is stored exactly over the current revision of an email that is in draft or failed, with the
      editor's own words, and puts the email back in draft; otherwise nothing changes. */
  lemma EditsAreStored(w: World, subject: string, body: string, now: int, moves: seq<Move>, m: Move)
    requires Begins(w, subject, body, now) && m.agent < |Run(w, moves).agents| && Run(w, moves).agents[m.agent].Editor?
    ensures var before, after := Run(w, moves), Step(Run(w, moves), m);
      var a := before.agents[m.agent];
      && after.agents[m.agent] == Done(if MaySave(before, a, m) then Saved else Refused)
      && (MaySave(before, a, m) ==>
            && |after.email.revisions| == a.expected + 1
            && after.email.revisions[..a.expected] == before.email.revisions
            && after.email.revisions[a.expected].number == a.expected + 1
            && after.email.revisions[a.expected].subject == a.subject
            && after.email.revisions[a.expected].body == a.body
            && after.email.revisions[a.expected].editedAt == m.now && after.email.revisions[a.expected].review.None?
            && after.email.delivery.status == Draft && after.email.delivery.reviewedRevision.None?
            && after.email.delivery.correlation.None? && after.email.delivery.failure.None?)
      && (!MaySave(before, a, m) ==> after.email == before.email)
  {
    EveryRunIsConsistent(w, subject, body, now, moves);
    hide Logged, Knows;
    var before := Run(w, moves);
    assert Current(before.email).number == |before.email.revisions|;
  }

  /** In every run a marking that succeeds puts the reviewer's name and reading time on the current revision, which was
      not reviewed before, and names it in the delivery; the text stays. */
  lemma ReviewsAreStored(w: World, subject: string, body: string, now: int, moves: seq<Move>, m: Move)
    requires Begins(w, subject, body, now) && m.agent < |Run(w, moves).agents|
    requires Run(w, moves).agents[m.agent].ReviewerRead?
    ensures var before, after := Run(w, moves), Step(Run(w, moves), m);
      var a, n := before.agents[m.agent], |before.email.revisions|;
      && n > 0
      && (after.email != before.email ==>
            && |after.email.revisions| == n && after.email.revisions[..n - 1] == before.email.revisions[..n - 1]
            && a.expected == n && before.email.revisions[n - 1].review.None? && a.reviewed.review.Some?
            && after.email.revisions[n - 1] == before.email.revisions[n - 1].(review := a.reviewed.review)
            && after.email.delivery.reviewedRevision == Some(n)
            && after.email.delivery.status == before.email.delivery.status)
  {
    EveryRunIsConsistent(w, subject, body, now, moves);
    var before := Run(w, moves);
    assert Knows(before, before.agents[m.agent]);
    hide Logged, Frozen, Run;
  }

  /** A reviewer whose decision and revision are current goes on to mark it if it is unreviewed, under their own name
      and the time of reading; if it is reviewed they are done when it was by them and the delivery names it; else
      refused. */
  lemma ReviewersReadTheCurrent(w: World, m: Move)
    requires |w.email.revisions| > 0 && m.agent < |w.agents| && w.agents[m.agent].Reviewer?
    ensures var a, a', d := w.agents[m.agent], Step(w, m).agents[m.agent], w.email.delivery;
      var current := Current(w.email);
      && Step(w, m).email == w.email
      && (if !m.current || current.number != a.expected then a' == Done(Refused)
          else if current.review.None? then
            a' == ReviewerRead(a.expected, current.(review := Some(Review(a.person, m.now))),
                               d.(reviewedRevision := Some(a.expected), updatedAt := m.now))
          else if current.review.value.person == a.person && d.reviewedRevision == Some(a.expected) then
            a' == Done(Reviewed)
          else a' == Done(Refused))
  {
  }

  // --- What senders do ------------------------------------------------------------------------------

  /** Nothing is being sent, and nothing was accepted or is in doubt. */
  predicate Idle(d: Delivery) { d.status == Draft || d.status == Failed }

  /** A sender goes on exactly when the decision is current, the revision it expects is the current one, reviewed, and
      named by the delivery, and the email is idle; it then carries that revision. */
  lemma SendersReadTheReviewed(w: World, m: Move)
    requires |w.email.revisions| > 0 && m.agent < |w.agents| && w.agents[m.agent].Sender?
    ensures var a, a', d := w.agents[m.agent], Step(w, m).agents[m.agent], w.email.delivery;
      var reviewed := m.current && Current(w.email).number == a.expected && Current(w.email).review.Some?
                      && d.reviewedRevision == Some(a.expected);
      && Step(w, m).email == w.email && Step(w, m).calls == w.calls
      && a' == (if !reviewed then Done(Refused)
                else if Idle(d) then SenderRead(Current(w.email), d)
                else Done(AlreadySending))
  {
  }

  /** In every run a claim succeeds exactly when the email still names that revision and is idle; the email is then
      being sent under a claim of its own, and without the earlier failure. */
  lemma ClaimsAreExclusive(w: World, subject: string, body: string, now: int, moves: seq<Move>, m: Move)
    requires Begins(w, subject, body, now) && m.agent < |Run(w, moves).agents|
    requires Run(w, moves).agents[m.agent].SenderRead?
    ensures var before, after := Run(w, moves), Step(Run(w, moves), m);
      var n, d, d' := before.agents[m.agent].content.number, before.email.delivery, after.email.delivery;
      && after.calls == before.calls && after.claims == before.claims + 1
      && after.email.revisions == before.email.revisions
      && (if d.reviewedRevision == Some(n) && Idle(d) then
            && after.agents[m.agent] == Claimed(before.agents[m.agent].content, before.claims)
            && d'.status == Submitting && d'.correlation == Some(before.claims) && d'.reviewedRevision == Some(n)
            && d'.failure.None? && d'.updatedAt == m.now
          else after.agents[m.agent] == Done(AlreadySending) && d' == d)
  {
    EveryRunIsConsistent(w, subject, body, now, moves);
    var before := Run(w, moves);
    assert Knows(before, before.agents[m.agent]);
    hide Logged;
  }

  /** A claim is followed by one call with the claimed revision, and the call by the provider's answer to it. */
  lemma CallsAreMade(w: World, m: Move)
    requires |w.email.revisions| > 0 && m.agent < |w.agents|
    ensures var a, w' := w.agents[m.agent], Step(w, m);
      && (a.Claimed? ==>
            && w'.calls == w.calls + [Call(a.content, a.correlation, None, None)] && w'.email == w.email
            && w'.agents[m.agent] == Called(a.content, a.correlation))
      && (a.Called? ==> w'.agents[m.agent] == Answered(a.correlation, m.answer) && w'.email == w.email)
      && (!a.Claimed? ==> |w'.calls| == |w.calls|)
  {
    var a := w.agents[m.agent];
    if a.Called? { AnswerOfOne(w.calls, a.correlation, m.answer); }
    if a.Returning? { OutcomeOfOne(w.calls, a.correlation, OutcomeOf(a.changed)); }
  }

  /** In every run an answer about to be recorded is recorded: on the delivery, which is still being sent under its
      claim, and on its own call. */
  lemma AnswersAreRecorded(w: World, subject: string, body: string, now: int, moves: seq<Move>, m: Move)
    requires Begins(w, subject, body, now) && m.agent < |Run(w, moves).agents|
    requires Run(w, moves).agents[m.agent].Returning?
    ensures var before, after := Run(w, moves), Step(Run(w, moves), m);
      var a, d := before.agents[m.agent], before.email.delivery;
      && d.status == Submitting && d.correlation == Some(a.correlation) && |after.calls| == |before.calls|
      && after.email.delivery == a.changed && after.agents[m.agent] == Done(Recorded(a.changed.status))
      && forall i | 0 <= i < |before.calls| && before.calls[i].correlation == a.correlation ::
           after.calls[i].recorded == Some(Outcome(a.changed.status, a.changed.failure))
  {
    EveryRunIsConsistent(w, subject, body, now, moves);
    var before := Run(w, moves);
    var a := before.agents[m.agent];
    assert Knows(before, a);
    hide Logged;
    OutcomeOfOne(before.calls, a.correlation, OutcomeOf(a.changed));
  }
}
