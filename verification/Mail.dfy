/** The reviewed supplier email: its store (services/persistence/store.py:2927-3139) and the steps of those
    who edit, review and send it (services/execution/mail_service.py:205-432). */
module Mail {
  import opened Basics

  datatype SendStatus = Draft | Submitting | Accepted | Failed | Uncertain

  datatype Review = Review(person: string, at: int)

  datatype Revision = Revision(number: nat, subject: string, body: string, editedAt: int, review: Option<Review>)

  datatype Delivery = Delivery(
    reviewedRevision: Option<nat>, status: SendStatus, correlation: Option<nat>, failure: Option<string>,
    providerMessageId: Option<string>, internetMessageId: Option<string>, updatedAt: int)

  /** The revisions of one decision's email, oldest first, and its delivery row. */
  datatype Email = Email(revisions: seq<Revision>, delivery: Delivery)

  function Current(e: Email): Revision
    requires |e.revisions| > 0
  {
    e.revisions[|e.revisions| - 1]
  }

  function Opened(subject: string, body: string, now: int): Email {
    Email([Revision(1, subject, body, now, None)], Delivery(None, Draft, None, None, None, None, now))
  }

  // --- The store's conditional updates; None when refused ------------------------------------

  function AppendRevision(e: Email, changed: Revision, expected: nat): Option<Email>
    requires |e.revisions| > 0
  {
    var d := e.delivery;
    var editable := d.status == Draft || (d.status == Failed && d.providerMessageId.None? && d.internetMessageId.None?);
    if Current(e).number != expected || !editable || changed.number != expected + 1 || changed.review.Some? then None
    else Some(Email(e.revisions + [changed], Delivery(None, Draft, None, None, None, None, changed.editedAt)))
  }

  datatype Marked = Stored(email: Email) | Conflict | Inconsistent

  function MarkReviewed(e: Email, reviewed: Revision, delivery: Delivery, expected: nat): Marked
    requires |e.revisions| > 0
  {
    var previous := Current(e);
    if previous.number != expected then Conflict
    else if previous.review.Some? then if previous == reviewed && e.delivery == delivery then Stored(e) else Conflict
    else if reviewed.(review := None) != previous || reviewed.review.None?
         || delivery != e.delivery.(reviewedRevision := Some(expected), updatedAt := reviewed.review.value.at)
    then Inconsistent
    else Stored(Email(e.revisions[..|e.revisions| - 1] + [reviewed], delivery))
  }

  /** What the store demands of the row that claims a send. */
  predicate WellFormedClaim(claimed: Delivery, expected: nat) {
    && claimed.reviewedRevision == Some(expected) && claimed.status == Submitting && claimed.correlation.Some?
    && claimed.providerMessageId.None? && claimed.internetMessageId.None? && claimed.failure.None?
  }

  function ClaimSend(e: Email, claimed: Delivery, expected: nat): Option<Email> {
    var d := e.delivery;
    if d.reviewedRevision == Some(expected)
       && (d.status == Draft || (d.status == Failed && d.providerMessageId.None? && d.internetMessageId.None?))
    then Some(e.(delivery := claimed)) else None
  }

  /** What the store demands of the row that records a send's state. */
  predicate WellFormedUpdate(changed: Delivery, correlation: nat) { changed.correlation == Some(correlation) }

  function UpdateDelivery(e: Email, changed: Delivery, correlation: nat, from: SendStatus): Option<Email> {
    if e.delivery.correlation == Some(correlation) && e.delivery.status == from then Some(e.(delivery := changed))
      else None
  }

  /** A conditional update's answer: whether a row changed, or the store's refusal of a malformed one. */
  datatype Updated = Applied(changed: bool) | Malformed

  // --- Those who act ---------------------------------------------------------------------------

  /** What the provider did with a message; an answer that never comes is a step never taken. */
  datatype Answer = AnswerAccepted | AnswerFailed(code: string) | AnswerUncertain(code: string)

  datatype Result = Refused | Saved | Reviewed | AlreadySending | Superseded | Recorded(status: SendStatus)

  datatype Agent =
    | Editor(expected: nat, subject: string, body: string)
    | Reviewer(expected: nat, person: string)
    | ReviewerRead(expected: nat, reviewed: Revision, marked: Delivery)   // read, about to mark
    | Sender(expected: nat)
    | SenderRead(content: Revision, delivery: Delivery)                   // read, about to claim
    | Claimed(content: Revision, correlation: nat)                        // committed, about to call the provider
    | Called(content: Revision, correlation: nat)                         // waiting for the provider
    | Answered(correlation: nat, answer: Answer)                          // about to read the delivery
    | Returning(correlation: nat, changed: Delivery)                      // about to record the answer
    | Done(result: Result)

  /** What was recorded for a call: a status and the provider's failure code, if any. */
  datatype Outcome = Outcome(status: SendStatus, code: Option<string>)

  /** A provider call: what it carried, under which claim, what the provider answered and what was recorded, if any. */
  datatype Call = Call(content: Revision, correlation: nat, answer: Option<Answer>, recorded: Option<Outcome>)

  /** `claims` counts the correlation ids drawn so far; each claim draws the next. */
  datatype World = World(email: Email, agents: seq<Agent>, calls: seq<Call>, claims: nat)

  /** One step: who moves, whether the approved decision is still current, the provider's answer, the time. */
  datatype Move = Move(agent: nat, current: bool, answer: Answer, now: int)

  function StatusOf(a: Answer): SendStatus {
    match a case AnswerAccepted => Accepted case AnswerFailed(_) => Failed case AnswerUncertain(_) => Uncertain
  }

  function CodeOf(a: Answer): Option<string> {
    match a case AnswerAccepted => None case AnswerFailed(c) => Some(c) case AnswerUncertain(c) => Some(c)
  }

  function Sendable(e: Email, expected: nat): bool
    requires |e.revisions| > 0
  {
    Current(e).number == expected && Current(e).review.Some? && e.delivery.reviewedRevision == Some(expected)
  }

  /** The step of `save`: the check and the insert are serialised on the delivery row. */
  function Save(w: World, a: Agent, m: Move): (World, Agent)
    requires a.Editor? && |w.email.revisions| > 0
  {
    var appended := AppendRevision(w.email, Revision(a.expected + 1, a.subject, a.body, m.now, None), a.expected);
    if !m.current || appended.None? then (w, Done(Refused)) else (w.(email := appended.value), Done(Saved))
  }

  /** The read of `review`. */
  function ReadForReview(w: World, a: Agent, m: Move): Agent
    requires a.Reviewer? && |w.email.revisions| > 0
  {
    var previous, delivery := Current(w.email), w.email.delivery;
    if !m.current || previous.number != a.expected then Done(Refused)
    else if previous.review.Some? then
      if previous.review.value.person == a.person && delivery.reviewedRevision == Some(a.expected) then Done(Reviewed)
        else Done(Refused)
    else ReviewerRead(a.expected, previous.(review := Some(Review(a.person, m.now))),
                      delivery.(reviewedRevision := Some(a.expected), updatedAt := m.now))
  }

  function Mark(w: World, a: Agent): (World, Agent)
    requires a.ReviewerRead? && |w.email.revisions| > 0
  {
    match MarkReviewed(w.email, a.reviewed, a.marked, a.expected)
    case Stored(e) => (w.(email := e), Done(Reviewed))
    case _ => (w, Done(Refused))
  }

  /** `_send_records` and the status check of `send`. */
  function ReadForSend(w: World, a: Agent, m: Move): Agent
    requires a.Sender? && |w.email.revisions| > 0
  {
    var content, delivery := Current(w.email), w.email.delivery;
    if !m.current || !Sendable(w.email, a.expected) then Done(Refused)
    else if delivery.status != Draft && delivery.status != Failed then Done(AlreadySending)
    else SenderRead(content, delivery)
  }

  function Claim(w: World, a: Agent, m: Move): (World, Agent)
    requires a.SenderRead?
  {
    var claimed := a.delivery.(status := Submitting, providerMessageId := None, internetMessageId := None,
                               correlation := Some(w.claims), failure := None, updatedAt := m.now);
    if !WellFormedClaim(claimed, a.content.number) then (w.(claims := w.claims + 1), Done(Refused))
    else match ClaimSend(w.email, claimed, a.content.number)
    case None => (w.(claims := w.claims + 1), Done(AlreadySending))
    case Some(e) => (w.(email := e, claims := w.claims + 1), Claimed(a.content, w.claims))
  }

  /** The first read of `_transition`. */
  function ReadForAnswer(w: World, a: Agent, m: Move): Agent
    requires a.Answered?
  {
    var d := w.email.delivery;
    if d.correlation != Some(a.correlation) then Done(Superseded)
    else Returning(a.correlation, d.(status := StatusOf(a.answer), failure := CodeOf(a.answer), updatedAt := m.now))
  }

  function WithAnswer(calls: seq<Call>, correlation: nat, answer: Answer): seq<Call> {
    if |calls| == 0 then []
    else [if calls[0].correlation == correlation then calls[0].(answer := Some(answer)) else calls[0]]
         + WithAnswer(calls[1..], correlation, answer)
  }

  function WithOutcome(calls: seq<Call>, correlation: nat, outcome: Outcome): seq<Call> {
    if |calls| == 0 then []
    else [if calls[0].correlation == correlation then calls[0].(recorded := Some(outcome)) else calls[0]]
         + WithOutcome(calls[1..], correlation, outcome)
  }

  function OutcomeOf(d: Delivery): Outcome { Outcome(d.status, d.failure) }

  function Record(w: World, a: Agent): (World, Agent)
    requires a.Returning?
  {
    if !WellFormedUpdate(a.changed, a.correlation) then (w, Done(Refused))
    else match UpdateDelivery(w.email, a.changed, a.correlation, Submitting)
    case None => (w, Done(Superseded))
    case Some(e) => (w.(email := e, calls := WithOutcome(w.calls, a.correlation, OutcomeOf(a.changed))),
                     Done(Recorded(a.changed.status)))
  }

  function Act(w: World, a: Agent, m: Move): (World, Agent)
    requires |w.email.revisions| > 0
  {
    match a
    case Editor(_, _, _) => Save(w, a, m)
    case Reviewer(_, _) => (w, ReadForReview(w, a, m))
    case ReviewerRead(_, _, _) => Mark(w, a)
    case Sender(_) => (w, ReadForSend(w, a, m))
    case SenderRead(_, _) => Claim(w, a, m)
    case Claimed(content, c) => (w.(calls := w.calls + [Call(content, c, None, None)]), Called(content, c))
    case Called(_, c) => (w.(calls := WithAnswer(w.calls, c, m.answer)), Answered(c, m.answer))
    case Answered(_, _) => (w, ReadForAnswer(w, a, m))
    case Returning(_, _) => Record(w, a)
    case Done(_) => (w, a)
  }

  function Step(w: World, m: Move): World
    requires |w.email.revisions| > 0
  {
    if m.agent >= |w.agents| then w
    else var next := Act(w, w.agents[m.agent], m); next.0.(agents := w.agents[m.agent := next.1])
  }

  function Run(w: World, moves: seq<Move>): (r: World)
    requires |w.email.revisions| > 0
    ensures |r.email.revisions| > 0
  {
    if |moves| == 0 then w
    else
      var before := Run(w, moves[..|moves| - 1]);
      StepKeepsRevisions(before, moves[|moves| - 1]);
      Step(before, moves[|moves| - 1])
  }

  lemma StepKeepsRevisions(w: World, m: Move)
    requires |w.email.revisions| > 0
    ensures |Step(w, m).email.revisions| > 0
  {
  }

  // --- The mail store as the service uses it -----------------------------------------------------

  class MailStore {
    var email: Email

    constructor (subject: string, body: string, now: int)
      ensures email == Opened(subject, body, now)
    {
      email := Opened(subject, body, now);
    }

    method Append(changed: Revision, expected: nat) returns (ok: bool)
      requires |email.revisions| > 0
      modifies this
      ensures ok <==> AppendRevision(old(email), changed, expected).Some?
      ensures email == if ok then AppendRevision(old(email), changed, expected).value else old(email)
      ensures ok ==> Current(email) == changed
      ensures ok ==> email.delivery.status == Draft && email.delivery.reviewedRevision.None?
    {
      var previous, d := Current(email), email.delivery;
      if previous.number != expected { return false; }
      if d.status != Draft && !(d.status == Failed && d.providerMessageId.None? && d.internetMessageId.None?) {
        return false;
      }
      if changed.number != expected + 1 || changed.review.Some? { return false; }
      email := Email(email.revisions + [changed], Delivery(None, Draft, None, None, None, None, changed.editedAt));
      return true;
    }

    method MarkAsReviewed(reviewed: Revision, delivery: Delivery, expected: nat) returns (r: Marked)
      requires |email.revisions| > 0
      modifies this
      ensures r == MarkReviewed(old(email), reviewed, delivery, expected)
      ensures email == if r.Stored? then r.email else old(email)
    {
      var previous := Current(email);
      if previous.number != expected { return Conflict; }
      if previous.review.Some? {
        return if previous == reviewed && email.delivery == delivery then Stored(email) else Conflict;
      }
      if reviewed.(review := None) != previous || reviewed.review.None? { return Inconsistent; }
      if delivery != email.delivery.(reviewedRevision := Some(expected), updatedAt := reviewed.review.value.at) {
        return Inconsistent;
      }
      email := Email(email.revisions[..|email.revisions| - 1] + [reviewed], delivery);
      return Stored(email);
    }

    method Claim(claimed: Delivery, expected: nat) returns (r: Updated)
      modifies this
      ensures r == if !WellFormedClaim(claimed, expected) then Malformed
                   else Applied(ClaimSend(old(email), claimed, expected).Some?)
      ensures email == if r == Applied(true) then ClaimSend(old(email), claimed, expected).value else old(email)
    {
      if claimed.reviewedRevision != Some(expected) || claimed.status != Submitting || claimed.correlation.None?
         || claimed.providerMessageId.Some? || claimed.internetMessageId.Some? || claimed.failure.Some? {
           return Malformed;
         }
      var d := email.delivery;
      if d.reviewedRevision != Some(expected) { return Applied(false); }
      if d.status != Draft && !(d.status == Failed && d.providerMessageId.None? && d.internetMessageId.None?) {
        return Applied(false);
      }
      email := email.(delivery := claimed);
      return Applied(true);
    }

    method UpdateState(changed: Delivery, correlation: nat, from: SendStatus) returns (r: Updated)
      modifies this
      ensures r == if !WellFormedUpdate(changed, correlation) then Malformed
                   else Applied(UpdateDelivery(old(email), changed, correlation, from).Some?)
      ensures email == if r == Applied(true) then UpdateDelivery(old(email), changed, correlation, from).value
        else old(email)
    {
      if changed.correlation != Some(correlation) { return Malformed; }
      if email.delivery.correlation != Some(correlation) || email.delivery.status != from { return Applied(false); }
      email := email.(delivery := changed);
      return Applied(true);
    }
  }
}
