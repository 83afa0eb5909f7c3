/** The bounded life of an execution action (services/execution/worker.py, data/domain/execution.py:66-80,
    services/persistence/store.py:2061-2131 and 2266-2406). */
module Execution {
  import opened Basics

  datatype Status = Planned | InProgress | Completed | Failed | Cancelled

  datatype Kind =
    | PrepareAlphaRecoveryDraft | CoordinateAlphaExpeditedPartial | TransferDallasToChicago
    | ResequencePriorityProduction | UpdateDisruptionStatus

  datatype Action = Action(id: string, caseId: string, decisionId: string, kind: Kind, status: Status,
                           draftId: Option<string>, wording: string)

  datatype Attempt = Attempt(id: string, number: int, status: Status, startedAt: int, completedAt: Option<int>,
                             errorCode: Option<string>)

  datatype Event = Event(number: int, from: Option<Status>, to: Status, attemptId: Option<string>,
                         errorCode: Option<string>, at: int)

  datatype Draft = Draft(artifactId: string, subject: Option<string>, body: Option<string>)

  /** What the store holds about one action: its projection and its attempt, event and draft rows. */
  datatype Ledger = Ledger(action: Action, attempts: seq<Attempt>, events: seq<Event>, draft: Option<Draft>)

  type Ledgers = map<string, Ledger>

  datatype ExecutionError =
    | NotFound | IllegalTransition | Stale | NotPlanned | NotApproved | ImmutableConflict
    | DuplicateAttempt | Inconsistent

  predicate Allowed(from: Status, to: Status) {
    match from
    case Planned => to == InProgress || to == Cancelled
    case InProgress => to == Completed || to == Failed || to == Cancelled
    case Failed => to == InProgress
    case Completed | Cancelled => false
  }

  // --- The store's own checks ----------------------------------------------------------

  function InsertAttempt(l: Ledger, attempt: Attempt): Result<Ledger, ExecutionError> {
    if attempt.number != |l.attempts| + 1 || attempt.status != InProgress || attempt.completedAt.Some?
    then Err(Inconsistent)
    else Ok(l.(attempts := l.attempts + [attempt]))
  }

  function UpdateAttempt(l: Ledger, k: nat, attempt: Attempt): Result<Ledger, ExecutionError>
    requires k < |l.attempts|
  {
    var previous := l.attempts[k];
    if previous.status != InProgress || attempt.id != previous.id || attempt.number != previous.number
       || attempt.startedAt != previous.startedAt || attempt.completedAt.None?
       || !(attempt.status == Completed || attempt.status == Failed || attempt.status == Cancelled)
    then Err(Inconsistent)
    else Ok(l.(attempts := l.attempts[k := attempt]))
  }

  function AppendEvent(l: Ledger, event: Event): Result<Ledger, ExecutionError> {
    if event.number != |l.events| + 1 then Err(Inconsistent)
    else if |l.events| == 0 && (event.from.Some? || event.to != Planned) then Err(Inconsistent)
    else if |l.events| > 0 && (event.from != Some(l.events[|l.events| - 1].to)
                               || !Allowed(l.events[|l.events| - 1].to, event.to))
    then Err(Inconsistent)
    else Ok(l.(events := l.events + [event]))
  }

  function Project(l: Ledger, to: Status): Ledger { l.(action := l.action.(status := to)) }

  // --- The service's transactions --------------------------------------------------------

  function Created(action: Action): Result<Ledger, ExecutionError> {
    var draft := if action.draftId.Some? then Some(Draft(action.draftId.value, None, None)) else None;
    AppendEvent(Ledger(action, [], [], draft), Event(1, None, Planned, None, None, 0))
  }

  function Begin(l: Ledger, required: Status, attemptId: string, taken: bool, current: bool, now: int)
    : Result<Ledger, ExecutionError>
  {
    if l.action.status != required || !Allowed(l.action.status, InProgress) then Err(IllegalTransition)
    else if !current then Err(Stale)
    else
      var inserted := InsertAttempt(l, Attempt(attemptId, |l.attempts| + 1, InProgress, now, None, None));
      if inserted.Err? then inserted
      else if taken then Err(DuplicateAttempt)
      else AppendEvent(Project(inserted.value, InProgress),
                       Event(|l.events| + 1, Some(l.action.status), InProgress, Some(attemptId), None, now))
  }

  /** The place of an attempt among an action's attempts, if it is one of them. */
  function AttemptAt(attempts: seq<Attempt>, attemptId: string): (r: Option<nat>)
    ensures r.Some? ==> r.value < |attempts| && attempts[r.value].id == attemptId
    ensures r.None? ==> forall a | a in attempts :: a.id != attemptId
  {
    if |attempts| == 0 then None
    else if attempts[|attempts| - 1].id == attemptId then Some(|attempts| - 1)
    else AttemptAt(attempts[..|attempts| - 1], attemptId)
  }

  function Finish(l: Ledger, attemptId: string, known: bool, to: Status, current: bool, code: Option<string>, now: int)
    : Result<Ledger, ExecutionError>
  {
    var k := AttemptAt(l.attempts, attemptId);
    if !Allowed(l.action.status, to) then Err(IllegalTransition)
    else if !known then Err(NotFound)
    else if k.None? || l.attempts[k.value].status != InProgress then Err(IllegalTransition)
    else if to == Completed && !current then Err(Stale)
    else
      var updated := UpdateAttempt(l, k.value,
                                   l.attempts[k.value].(status := to, completedAt := Some(now), errorCode := code));
      if updated.Err? then updated
      else AppendEvent(Project(updated.value, to),
                       Event(|l.events| + 1, Some(l.action.status), to, Some(attemptId), code, now))
  }

  function Cancel(l: Ledger, attemptId: Option<string>, now: int): Result<Ledger, ExecutionError> {
    var n := |l.attempts|;
    if !Allowed(l.action.status, Cancelled) then Err(IllegalTransition)
    else if l.action.status != InProgress then
      AppendEvent(Project(l, Cancelled), Event(|l.events| + 1, Some(l.action.status), Cancelled, attemptId, None, now))
    else if n == 0 || l.attempts[n - 1].status != InProgress
         || (attemptId.Some? && l.attempts[n - 1].id != attemptId.value)
    then Err(IllegalTransition)
    else
      var current := l.attempts[n - 1];
      var updated := UpdateAttempt(l, n - 1, current.(status := Cancelled, completedAt := Some(now)));
      if updated.Err? then updated
      else AppendEvent(Project(updated.value, Cancelled),
                       Event(|l.events| + 1, Some(l.action.status), Cancelled, Some(current.id), None, now))
  }

  datatype Operation =
    | Create(action: Action, approved: bool, current: bool)
    | Start(id: string, attemptId: string, current: bool, now: int)
    | Retry(id: string, attemptId: string, current: bool, now: int)
    | Complete(id: string, attemptId: string, current: bool, now: int)
    | Fail(id: string, attemptId: string, code: string, now: int)
    | CancelAction(id: string, cancelled: Option<string>, now: int)

  predicate Known(s: Ledgers, attemptId: string) {
    exists id :: id in s && AttemptAt(s[id].attempts, attemptId).Some?
  }

  function Target(op: Operation): string { if op.Create? then op.action.id else op.id }

  function CreateIn(s: Ledgers, action: Action, approved: bool, current: bool): Result<Ledger, ExecutionError> {
    if action.status != Planned then Err(NotPlanned)
    else if !approved then Err(NotApproved)
    else if action.id in s then
      if s[action.id].action.(status := Planned) != action then Err(ImmutableConflict) else Ok(s[action.id])
    else if !current then Err(Stale)
    else Created(action)
  }

  /** What one operation makes of its action, or why it is refused. */
  function Outcome(s: Ledgers, op: Operation): Result<Ledger, ExecutionError> {
    if op.Create? then CreateIn(s, op.action, op.approved, op.current)
    else if op.id !in s then Err(NotFound)
    else match op
      case Start(id, a, current, now) => Begin(s[id], Planned, a, Known(s, a), current, now)
      case Retry(id, a, current, now) => Begin(s[id], Failed, a, Known(s, a), current, now)
      case Complete(id, a, current, now) => Finish(s[id], a, Known(s, a), Completed, current, None, now)
      case Fail(id, a, code, now) => Finish(s[id], a, Known(s, a), Failed, true, Some(code), now)
      case CancelAction(id, a, now) => Cancel(s[id], a, now)
  }

  /** A transaction commits its action's ledger, or changes nothing. */
  function Perform(s: Ledgers, op: Operation): Ledgers {
    if Outcome(s, op).Ok? then s[Target(op) := Outcome(s, op).value] else s
  }

  function Run(s: Ledgers, ops: seq<Operation>): Ledgers {
    if |ops| == 0 then s else Perform(Run(s, ops[..|ops| - 1]), ops[|ops| - 1])
  }

  // --- What every ledger satisfies ------------------------------------------------------

  /** The attempts named by the events that enter `in_progress`, in order. */
  function Entered(events: seq<Event>): seq<Option<string>> {
    if |events| == 0 then []
    else Entered(events[..|events| - 1])
         + if events[|events| - 1].to == InProgress then [events[|events| - 1].attemptId] else []
  }

  function AttemptIds(attempts: seq<Attempt>): seq<Option<string>> {
    seq(|attempts|, k requires 0 <= k < |attempts| => Some(attempts[k].id))
  }

  ghost predicate Chained(events: seq<Event>) {
    && |events| > 0 && events[0].from == None && events[0].to == Planned
    && (forall k | 0 <= k < |events| :: events[k].number == k + 1)
    && forall k | 0 < k < |events| ::
       events[k].from == Some(events[k - 1].to) && Allowed(events[k - 1].to, events[k].to)
  }

  /** An attempt is open until it ends, and carries an error code exactly when it failed. */
  predicate Timed(a: Attempt) {
    && (a.completedAt.None? <==> a.status == InProgress) && (a.errorCode.Some? <==> a.status == Failed)
  }

  /** Attempts numbered from 1, all but the last failed. */
  ghost predicate Tried(attempts: seq<Attempt>) {
    && (forall k | 0 <= k < |attempts| :: attempts[k].number == k + 1 && Timed(attempts[k]))
    && (forall k | 0 <= k < |attempts| - 1 :: attempts[k].status == Failed)
  }

  ghost predicate Orderly(l: Ledger) {
    var n := |l.attempts|;
    && Chained(l.events) && l.action.status == l.events[|l.events| - 1].to
    && Tried(l.attempts) && Entered(l.events) == AttemptIds(l.attempts)
    && (n == 0 ==> l.action.status == Planned || l.action.status == Cancelled)
    && (n > 0 ==> l.attempts[n - 1].status == l.action.status && l.action.status != Planned)
  }

  ghost predicate Filed(s: Ledgers) { forall id | id in s :: s[id].action.id == id && Orderly(s[id]) }

  lemma FiledIsOrderly(s: Ledgers, id: string)
    requires Filed(s) && id in s
    ensures Orderly(s[id]) && s[id].action.id == id
  {
  }

  lemma EnteredGrows(events: seq<Event>, event: Event)
    ensures Entered(events + [event]) == Entered(events) + if event.to == InProgress then [event.attemptId] else []
  {
    assert (events + [event])[..|events|] == events;
  }

  lemma CreatedIsOrderly(action: Action)
    requires action.status == Planned
    ensures Created(action).Ok? && Orderly(Created(action).value) && Created(action).value.action == action
  {
    var event := Event(1, None, Planned, None, None, 0);
    EnteredGrows([], event);
    assert [] + [event] == [event];
  }

  lemma ChainGrows(events: seq<Event>, event: Event)
    requires Chained(events) && event.number == |events| + 1
    requires event.from == Some(events[|events| - 1].to) && Allowed(events[|events| - 1].to, event.to)
    ensures Chained(events + [event])
  {
  }

  // The ledger each successful transition leaves, spelled out.

  function NextEvent(l: Ledger, to: Status, attemptId: Option<string>, code: Option<string>, now: int): Event {
    Event(|l.events| + 1, Some(l.action.status), to, attemptId, code, now)
  }

  function Begun(l: Ledger, attemptId: string, now: int): Ledger {
    Ledger(l.action.(status := InProgress),
           l.attempts + [Attempt(attemptId, |l.attempts| + 1, InProgress, now, None, None)],
           l.events + [NextEvent(l, InProgress, Some(attemptId), None, now)], l.draft)
  }

  function Ended(l: Ledger, to: Status, code: Option<string>, now: int): Ledger
    requires |l.attempts| > 0
  {
    var n := |l.attempts|;
    var last := l.attempts[n - 1];
    Ledger(l.action.(status := to),
           l.attempts[n - 1 := last.(status := to, completedAt := Some(now), errorCode := code)],
           l.events + [NextEvent(l, to, Some(last.id), code, now)], l.draft)
  }

  function Withdrawn(l: Ledger, attemptId: Option<string>, now: int): Ledger {
    Ledger(l.action.(status := Cancelled), l.attempts, l.events + [NextEvent(l, Cancelled, attemptId, None, now)],
           l.draft)
  }

  lemma TriedAgain(attempts: seq<Attempt>, next: Attempt)
    requires Tried(attempts) && (|attempts| > 0 ==> attempts[|attempts| - 1].status == Failed)
    requires next.number == |attempts| + 1 && Timed(next)
    ensures Tried(attempts + [next]) && AttemptIds(attempts + [next]) == AttemptIds(attempts) + [Some(next.id)]
  {
  }

  lemma TriedToTheEnd(attempts: seq<Attempt>, last: Attempt)
    requires |attempts| > 0 && Tried(attempts) && last.number == |attempts| && Timed(last)
    requires last.id == attempts[|attempts| - 1].id
    ensures Tried(attempts[|attempts| - 1 := last])
    ensures AttemptIds(attempts[|attempts| - 1 := last]) == AttemptIds(attempts)
  {
  }

  lemma BegunIsOrderly(l: Ledger, attemptId: string, now: int)
    requires Orderly(l) && (l.action.status == Planned || l.action.status == Failed)
    ensures Orderly(Begun(l, attemptId, now))
  {
    hide Tried, Chained, AttemptIds, Entered;
    var event := NextEvent(l, InProgress, Some(attemptId), None, now);
    ChainGrows(l.events, event);
    EnteredGrows(l.events, event);
    TriedAgain(l.attempts, Attempt(attemptId, |l.attempts| + 1, InProgress, now, None, None));
  }

  lemma RunningAttempt(l: Ledger)
    requires Orderly(l) && l.action.status == InProgress
    ensures |l.attempts| > 0 && l.attempts[|l.attempts| - 1].number == |l.attempts|
    ensures l.attempts[|l.attempts| - 1].status == InProgress && l.attempts[|l.attempts| - 1].errorCode.None?
  {
    assert Timed(l.attempts[|l.attempts| - 1]);
  }

  lemma EndedIsOrderly(l: Ledger, to: Status, code: Option<string>, now: int)
    requires Orderly(l) && l.action.status == InProgress && Allowed(InProgress, to) && (code.Some? <==> to == Failed)
    ensures |l.attempts| > 0 && Orderly(Ended(l, to, code, now))
  {
    hide Tried, Chained, AttemptIds, Entered;
    RunningAttempt(l);
    var last := l.attempts[|l.attempts| - 1];
    var event := NextEvent(l, to, Some(last.id), code, now);
    ChainGrows(l.events, event);
    EnteredGrows(l.events, event);
    TriedToTheEnd(l.attempts, last.(status := to, completedAt := Some(now), errorCode := code));
  }

  lemma WithdrawnIsOrderly(l: Ledger, attemptId: Option<string>, now: int)
    requires Orderly(l) && l.action.status == Planned
    ensures Orderly(Withdrawn(l, attemptId, now))
  {
    var event := NextEvent(l, Cancelled, attemptId, None, now);
    ChainGrows(l.events, event);
    EnteredGrows(l.events, event);
  }

  /** Beginning an attempt from an orderly ledger: the store's checks hold, so only the stated errors remain. */
  lemma BeginIs(l: Ledger, required: Status, attemptId: string, taken: bool, current: bool, now: int)
    requires Orderly(l) && (required == Planned || required == Failed)
    ensures Begin(l, required, attemptId, taken, current, now) ==
      if l.action.status != required then Err(IllegalTransition)
      else if !current then Err(Stale)
      else if taken then Err(DuplicateAttempt)
      else Ok(Begun(l, attemptId, now))
  {
  }

  lemma FinishIs(l: Ledger, attemptId: string, known: bool, to: Status, current: bool, code: Option<string>, now: int)
    requires Orderly(l) && (to == Completed || to == Failed)
    ensures Finish(l, attemptId, known, to, current, code, now) ==
      if l.action.status != InProgress then Err(IllegalTransition)
      else if !known then Err(NotFound)
      else if AttemptAt(l.attempts, attemptId) != Some(|l.attempts| - 1) then Err(IllegalTransition)
      else if to == Completed && !current then Err(Stale)
      else Ok(Ended(l, to, code, now))
  {
  }

  lemma CancelIs(l: Ledger, attemptId: Option<string>, now: int)
    requires Orderly(l)
    ensures Cancel(l, attemptId, now) ==
      if l.action.status == Planned then Ok(Withdrawn(l, attemptId, now))
      else if l.action.status != InProgress then Err(IllegalTransition)
      else if attemptId.Some? && l.attempts[|l.attempts| - 1].id != attemptId.value then Err(IllegalTransition)
      else Ok(Ended(l, Cancelled, None, now))
  {
  }

  lemma OutcomeIsOrderly(s: Ledgers, op: Operation)
    requires Filed(s)
    ensures var r := Outcome(s, op);
      r != Err(Inconsistent) && (r.Ok? ==> r.value.action.id == Target(op) && Orderly(r.value))
  {
    hide Orderly, Filed, Begin, Finish, Cancel, Created;
    if Target(op) in s { FiledIsOrderly(s, Target(op)); }
    match op {
      case Create(action, approved, current) =>
        if action.status == Planned { CreatedIsOrderly(action); }
      case Start(id, a, current, now) =>
        if id in s { BeginKeeps(s[id], Planned, a, Known(s, a), current, now); }
      case Retry(id, a, current, now) =>
        if id in s { BeginKeeps(s[id], Failed, a, Known(s, a), current, now); }
      case Complete(id, a, current, now) =>
        if id in s { FinishKeeps(s[id], a, Known(s, a), Completed, current, None, now); }
      case Fail(id, a, code, now) =>
        if id in s { FinishKeeps(s[id], a, Known(s, a), Failed, true, Some(code), now); }
      case CancelAction(id, a, now) =>
        if id in s { CancelKeeps(s[id], a, now); }
    }
  }

  lemma BeginKeeps(l: Ledger, required: Status, attemptId: string, taken: bool, current: bool, now: int)
    requires Orderly(l) && (required == Planned || required == Failed)
    ensures var r := Begin(l, required, attemptId, taken, current, now);
      r != Err(Inconsistent) && (r.Ok? ==> Orderly(r.value) && r.value.action == l.action.(status := InProgress))
  {
    BeginIs(l, required, attemptId, taken, current, now);
    if l.action.status == required { BegunIsOrderly(l, attemptId, now); }
  }

  lemma FinishKeeps(l: Ledger, attemptId: string, known: bool, to: Status, current: bool, code: Option<string>,
                    now: int)
    requires Orderly(l) && (to == Completed || to == Failed) && (code.Some? <==> to == Failed)
    ensures var r := Finish(l, attemptId, known, to, current, code, now);
      r != Err(Inconsistent) && (r.Ok? ==> Orderly(r.value) && r.value.action == l.action.(status := to))
  {
    FinishIs(l, attemptId, known, to, current, code, now);
    if l.action.status == InProgress { EndedIsOrderly(l, to, code, now); }
  }

  lemma CancelKeeps(l: Ledger, attemptId: Option<string>, now: int)
    requires Orderly(l)
    ensures var r := Cancel(l, attemptId, now);
      r != Err(Inconsistent) && (r.Ok? ==> Orderly(r.value) && r.value.action == l.action.(status := Cancelled))
  {
    CancelIs(l, attemptId, now);
    if l.action.status == Planned { WithdrawnIsOrderly(l, attemptId, now); }
    if l.action.status == InProgress { EndedIsOrderly(l, Cancelled, None, now); }
  }

  /** Whatever operation is asked for, the store's own integrity checks never fire, and the ledgers
      stay orderly. */
  lemma PerformKeeps(s: Ledgers, op: Operation)
    requires Filed(s)
    ensures Filed(Perform(s, op)) && Outcome(s, op) != Err(Inconsistent)
  {
    OutcomeIsOrderly(s, op);
  }

  /** In every run each action's events chain head to tail with contiguous numbers; its attempts are
      numbered from 1, all but the last failed; the last one has the action's status, so one is in
      progress exactly when the action is; and the entries into `in_progress` name the attempts in order. */
  lemma {:induction false} EveryRunIsOrderly(s: Ledgers, ops: seq<Operation>)
    requires Filed(s)
    ensures Filed(Run(s, ops))
  {
    if |ops| > 0 {
      EveryRunIsOrderly(s, ops[..|ops| - 1]);
      PerformKeeps(Run(s, ops[..|ops| - 1]), ops[|ops| - 1]);
    }
  }

  /** In an orderly ledger an attempt is in progress exactly when the action is, and then it is the last. */
  lemma InProgressIsLast(l: Ledger, k: nat)
    requires Orderly(l) && k < |l.attempts|
    ensures l.attempts[k].status == InProgress <==> l.action.status == InProgress && k == |l.attempts| - 1
    ensures |l.attempts| == |Entered(l.events)|
  {
  }

  predicate Final(s: Status) { s == Completed || s == Cancelled }

  lemma OutcomeExtends(s: Ledgers, op: Operation)
    requires Filed(s) && Target(op) in s && Outcome(s, op).Ok?
    ensures s[Target(op)].events <= Outcome(s, op).value.events
    ensures Final(s[Target(op)].action.status) ==> Outcome(s, op).value == s[Target(op)]
  {
    hide Orderly, Filed, Begin, Finish, Cancel, Created, Known;
    FiledIsOrderly(s, Target(op));
    match op {
      case Create(_, _, _) =>
      case Start(id, a, current, now) => BeginIs(s[id], Planned, a, Known(s, a), current, now);
      case Retry(id, a, current, now) => BeginIs(s[id], Failed, a, Known(s, a), current, now);
      case Complete(id, a, current, now) => FinishIs(s[id], a, Known(s, a), Completed, current, None, now);
      case Fail(id, a, code, now) => FinishIs(s[id], a, Known(s, a), Failed, true, Some(code), now);
      case CancelAction(id, a, now) => CancelIs(s[id], a, now);
    }
  }

  lemma PerformAbsorbs(s: Ledgers, op: Operation, id: string)
    requires Filed(s) && id in s
    ensures id in Perform(s, op)
    ensures Final(s[id].action.status) ==> Perform(s, op)[id] == s[id]
    ensures s[id].events <= Perform(s, op)[id].events
  {
    if Outcome(s, op).Ok? && Target(op) == id { OutcomeExtends(s, op); }
  }

  /** Completed and cancelled absorb, and no operation ever rewrites an event. */
  lemma {:induction false} FinalStatusesAbsorb(s: Ledgers, ops: seq<Operation>, id: string)
    requires Filed(s) && id in s
    ensures id in Run(s, ops) && s[id].events <= Run(s, ops)[id].events
    ensures Final(s[id].action.status) ==> Run(s, ops)[id] == s[id]
  {
    if |ops| > 0 {
      FinalStatusesAbsorb(s, ops[..|ops| - 1], id);
      EveryRunIsOrderly(s, ops[..|ops| - 1]);
      PerformAbsorbs(Run(s, ops[..|ops| - 1]), ops[|ops| - 1], id);
    }
  }

  /** The attempt is the ledger's last. */
  predicate IsLastAttempt(l: Ledger, a: Attempt) { |l.attempts| > 0 && l.attempts[|l.attempts| - 1] == a }

  // --- The service ------------------------------------------------------------------------

  class ExecutionService {
    var ledgers: Ledgers

    constructor ()
      ensures ledgers == map[] && Filed(ledgers)
    {
      ledgers := map[];
    }

    method CreateAction(action: Action, approved: bool, current: bool) returns (r: Result<Action, ExecutionError>)
      requires Filed(ledgers)
      modifies this
      ensures var out := Outcome(old(ledgers), Create(action, approved, current));
        r == if out.Ok? then Ok(out.value.action) else Err(out.error)
      ensures ledgers == Perform(old(ledgers), Create(action, approved, current)) && Filed(ledgers)
    {
      hide Orderly;
      if action.id in ledgers { FiledIsOrderly(ledgers, action.id); }
      PerformKeeps(ledgers, Create(action, approved, current));
      if action.status != Planned { return Err(NotPlanned); }
      if !approved { return Err(NotApproved); }
      if action.id in ledgers {
        var existing := ledgers[action.id].action;
        assert ledgers[action.id := ledgers[action.id]] == ledgers;
        if existing.(status := Planned) != action { return Err(ImmutableConflict); }
        return Ok(existing);
      }
      if !current { return Err(Stale); }
      CreatedIsOrderly(action);
      ledgers := ledgers[action.id := Created(action).value];
      return Ok(action);
    }

    method BeginAttempt(id: string, required: Status, attemptId: string, current: bool, now: int)
      returns (r: Result<Attempt, ExecutionError>)
      requires Filed(ledgers) && (required == Planned || required == Failed)
      modifies this
      ensures var out := if id in old(ledgers)
        then Begin(old(ledgers)[id], required, attemptId, Known(old(ledgers), attemptId), current, now)
                         else Err(NotFound);
        && ledgers == (if out.Ok? then old(ledgers)[id := out.value] else old(ledgers))
        && (if out.Ok? then |out.value.attempts| > 0 && r == Ok(out.value.attempts[|out.value.attempts| - 1])
            && r.value.id == attemptId && r.value.status == InProgress
             else r == Err(out.error))
    {
      hide Orderly, Filed, Known, AttemptAt, Begin, Finish, Cancel;
      if id !in ledgers { return Err(NotFound); }
      var ledger := ledgers[id];
      FiledIsOrderly(ledgers, id);
      BeginIs(ledger, required, attemptId, Known(ledgers, attemptId), current, now);
      if ledger.action.status != required { return Err(IllegalTransition); }
      if !current { return Err(Stale); }
      var attempt := Attempt(attemptId, |ledger.attempts| + 1, InProgress, now, None, None);
      if Known(ledgers, attemptId) { return Err(DuplicateAttempt); }
      var event := Event(|ledger.events| + 1, Some(ledger.action.status), InProgress, Some(attemptId), None, now);
      ledgers := ledgers[id := Ledger(ledger.action.(status := InProgress), ledger.attempts + [attempt],
                                      ledger.events + [event], ledger.draft)];
      return Ok(attempt);
    }

    method StartAction(id: string, attemptId: string, current: bool, now: int)
      returns (r: Result<Attempt, ExecutionError>)
      requires Filed(ledgers)
      modifies this
      ensures ledgers == Perform(old(ledgers), Start(id, attemptId, current, now)) && Filed(ledgers)
      ensures r.Ok? <==> Outcome(old(ledgers), Start(id, attemptId, current, now)).Ok?
      ensures r.Err? ==> Outcome(old(ledgers), Start(id, attemptId, current, now)) == Err(r.error)
      ensures r.Ok? ==> id in ledgers && IsLastAttempt(ledgers[id], r.value)
      ensures r.Ok? ==> r.value.id == attemptId && r.value.status == InProgress
    {
      PerformKeeps(ledgers, Start(id, attemptId, current, now));
      r := BeginAttempt(id, Planned, attemptId, current, now);
    }

    method RetryAction(id: string, attemptId: string, current: bool, now: int)
      returns (r: Result<Attempt, ExecutionError>)
      requires Filed(ledgers)
      modifies this
      ensures ledgers == Perform(old(ledgers), Retry(id, attemptId, current, now)) && Filed(ledgers)
      ensures r.Ok? <==> Outcome(old(ledgers), Retry(id, attemptId, current, now)).Ok?
      ensures r.Err? ==> Outcome(old(ledgers), Retry(id, attemptId, current, now)) == Err(r.error)
      ensures r.Ok? ==> id in ledgers && IsLastAttempt(ledgers[id], r.value)
      ensures r.Ok? ==> r.value.id == attemptId && r.value.status == InProgress
    {
      PerformKeeps(ledgers, Retry(id, attemptId, current, now));
      r := BeginAttempt(id, Failed, attemptId, current, now);
    }

    method FinishAttempt(id: string, attemptId: string, to: Status, current: bool, code: Option<string>, now: int)
      returns (r: Result<Action, ExecutionError>)
      requires Filed(ledgers) && (to == Completed || to == Failed)
      modifies this
      ensures var out := if id in old(ledgers) then Finish(old(ledgers)[id], attemptId, Known(old(ledgers), attemptId),
                                                           to, current, code, now)
                         else Err(NotFound);
        && ledgers == (if out.Ok? then old(ledgers)[id := out.value] else old(ledgers))
        && r == (if out.Ok? then Ok(out.value.action) else Err(out.error))
    {
      hide Orderly, Filed, Known, AttemptAt, Begin, Finish, Cancel;
      if id !in ledgers { return Err(NotFound); }
      var ledger := ledgers[id];
      FiledIsOrderly(ledgers, id);
      FinishIs(ledger, attemptId, Known(ledgers, attemptId), to, current, code, now);
      if !Allowed(ledger.action.status, to) { return Err(IllegalTransition); }
      if !Known(ledgers, attemptId) { return Err(NotFound); }
      var k := AttemptAt(ledger.attempts, attemptId);
      if ledger.action.status == InProgress {
        RunningAttempt(ledger);
        if k.Some? { InProgressIsLast(ledger, k.value); }
      }
      if k.None? || ledger.attempts[k.value].status != InProgress { return Err(IllegalTransition); }
      if to == Completed && !current { return Err(Stale); }
      var finished := ledger.attempts[k.value].(status := to, completedAt := Some(now), errorCode := code);
      var event := Event(|ledger.events| + 1, Some(ledger.action.status), to, Some(attemptId), code, now);
      ledgers := ledgers[id := Ledger(ledger.action.(status := to), ledger.attempts[k.value := finished],
                                      ledger.events + [event], ledger.draft)];
      return Ok(ledgers[id].action);
    }

    method CompleteAttempt(id: string, attemptId: string, current: bool, now: int)
      returns (r: Result<Action, ExecutionError>)
      requires Filed(ledgers)
      modifies this
      ensures var op := Complete(id, attemptId, current, now);
        && ledgers == Perform(old(ledgers), op) && Filed(ledgers)
        && r == (if Outcome(old(ledgers), op).Ok? then Ok(Outcome(old(ledgers), op).value.action)
                 else Err(Outcome(old(ledgers), op).error))
    {
      PerformKeeps(ledgers, Complete(id, attemptId, current, now));
      r := FinishAttempt(id, attemptId, Completed, current, None, now);
    }

    method FailAttempt(id: string, attemptId: string, code: string, now: int)
      returns (r: Result<Action, ExecutionError>)
      requires Filed(ledgers)
      modifies this
      ensures var op := Fail(id, attemptId, code, now);
        && ledgers == Perform(old(ledgers), op) && Filed(ledgers)
        && r == (if Outcome(old(ledgers), op).Ok? then Ok(Outcome(old(ledgers), op).value.action)
                 else Err(Outcome(old(ledgers), op).error))
    {
      PerformKeeps(ledgers, Fail(id, attemptId, code, now));
      r := FinishAttempt(id, attemptId, Failed, true, Some(code), now);
    }

    method CancelLedger(id: string, attemptId: Option<string>, now: int) returns (r: Result<Action, ExecutionError>)
      requires Filed(ledgers)
      modifies this
      ensures var out := if id in old(ledgers) then Cancel(old(ledgers)[id], attemptId, now) else Err(NotFound);
        && ledgers == (if out.Ok? then old(ledgers)[id := out.value] else old(ledgers))
        && r == (if out.Ok? then Ok(out.value.action) else Err(out.error))
    {
      hide Orderly, Filed, Known, AttemptAt, Begin, Finish, Cancel;
      if id !in ledgers { return Err(NotFound); }
      var ledger := ledgers[id];
      FiledIsOrderly(ledgers, id);
      CancelIs(ledger, attemptId, now);
      if !Allowed(ledger.action.status, Cancelled) { return Err(IllegalTransition); }
      var attempts, named := ledger.attempts, attemptId;
      if ledger.action.status == InProgress {
        RunningAttempt(ledger);
        var n := |attempts|;
        if n == 0 || attempts[n - 1].status != InProgress
          || (attemptId.Some? && attempts[n - 1].id != attemptId.value) {
          return Err(IllegalTransition);
        }
        named := Some(attempts[n - 1].id);
        attempts := attempts[n - 1 := attempts[n - 1].(status := Cancelled, completedAt := Some(now))];
      }
      var event := Event(|ledger.events| + 1, Some(ledger.action.status), Cancelled, named, None, now);
      ledgers := ledgers[id := Ledger(ledger.action.(status := Cancelled), attempts, ledger.events + [event],
                                      ledger.draft)];
      return Ok(ledgers[id].action);
    }

    method CancelAttempt(id: string, attemptId: Option<string>, now: int) returns (r: Result<Action, ExecutionError>)
      requires Filed(ledgers)
      modifies this
      ensures var op := CancelAction(id, attemptId, now);
        && ledgers == Perform(old(ledgers), op) && Filed(ledgers)
        && r == (if Outcome(old(ledgers), op).Ok? then Ok(Outcome(old(ledgers), op).value.action)
                 else Err(Outcome(old(ledgers), op).error))
    {
      PerformKeeps(ledgers, CancelAction(id, attemptId, now));
      r := CancelLedger(id, attemptId, now);
    }
  }
}
