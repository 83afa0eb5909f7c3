/** When each operation on an action succeeds, what it leaves of it, and what it is told otherwise
    (services/execution/worker.py, services/persistence/store.py:2061-2131 and 2266-2406). */
module ExecutionLaws {
  import opened Basics
  import opened Execution

  /** Some action has an attempt of this id. */
  ghost predicate Used(s: Ledgers, attemptId: string) {
    exists id, a :: id in s && a in s[id].attempts && a.id == attemptId
  }

  /** The action's attempt that is running is its last, and has this id. */
  predicate Runs(l: Ledger, attemptId: string) {
    l.action.status == InProgress && |l.attempts| > 0 && l.attempts[|l.attempts| - 1].id == attemptId
  }

  /** One event more: from the action's status to the new one. */
  predicate Moves(l: Ledger, l': Ledger, to: Status, attemptId: Option<string>, code: Option<string>, now: int) {
    && l'.events == l.events + [Event(|l.events| + 1, Some(l.action.status), to, attemptId, code, now)]
    && l'.action == l.action.(status := to) && l'.draft == l.draft
  }

  /** A new attempt, numbered next, runs from now. */
  predicate Begins(l: Ledger, l': Ledger, attemptId: string, now: int) {
    && Moves(l, l', InProgress, Some(attemptId), None, now)
    && l'.attempts == l.attempts + [Attempt(attemptId, |l.attempts| + 1, InProgress, now, None, None)]
  }

  /** The last attempt ends now, as the action does; the others are as they were. */
  predicate Ends(l: Ledger, l': Ledger, to: Status, code: Option<string>, now: int) {
    var n := |l.attempts|;
    && n > 0 && Moves(l, l', to, Some(l.attempts[n - 1].id), code, now)
    && |l'.attempts| == n && l'.attempts[..n - 1] == l.attempts[..n - 1]
    && l'.attempts[n - 1]
       == Attempt(l.attempts[n - 1].id, n, to, l.attempts[n - 1].startedAt, Some(now), code)
  }

  lemma {:induction false} LastAttemptIs(attempts: seq<Attempt>, attemptId: string)
    ensures AttemptAt(attempts, attemptId).Some? <==> exists a :: a in attempts && a.id == attemptId
    ensures |attempts| > 0 ==>
      (AttemptAt(attempts, attemptId) == Some(|attempts| - 1) <==> attempts[|attempts| - 1].id == attemptId)
  {
    if AttemptAt(attempts, attemptId).Some? { assert attempts[AttemptAt(attempts, attemptId).value] in attempts; }
  }

  lemma KnownIsUsed(s: Ledgers, attemptId: string)
    ensures Known(s, attemptId) <==> Used(s, attemptId)
  {
    forall id | id in s ensures AttemptAt(s[id].attempts, attemptId).Some? <==>
      exists a :: a in s[id].attempts && a.id == attemptId
    {
      LastAttemptIs(s[id].attempts, attemptId);
    }
  }

  /** A start needs a planned action, a retry a failed one; both a current proposal and an unused attempt id. */
  lemma BeginningIs(s: Ledgers, op: Operation)
    requires Filed(s) && (op.Start? || op.Retry?)
    ensures var r, required := Outcome(s, op), if op.Start? then Planned else Failed;
      if op.id !in s then r == Err(NotFound)
      else if s[op.id].action.status != required then r == Err(IllegalTransition)
      else if !op.current then r == Err(Stale)
      else if Used(s, op.attemptId) then r == Err(DuplicateAttempt)
      else r.Ok? && Begins(s[op.id], r.value, op.attemptId, op.now)
  {
    hide Orderly, Begin, Filed, Known, Used;
    KnownIsUsed(s, op.attemptId);
    if op.id in s {
      FiledIsOrderly(s, op.id);
      BeginIs(s[op.id], if op.Start? then Planned else Failed, op.attemptId, Known(s, op.attemptId), op.current,
              op.now);
    }
  }

  lemma EndedIs(l: Ledger, to: Status, code: Option<string>, now: int)
    requires Orderly(l) && l.action.status == InProgress
    ensures |l.attempts| > 0 && Ends(l, Ended(l, to, code, now), to, code, now)
  {
    RunningAttempt(l);
  }

  /** A completion or a failure needs the running attempt, and a completion a current proposal; a completed one leaves
      the action completed, a failed one failed, with its code. */
  lemma FinishingIs(s: Ledgers, op: Operation)
    requires Filed(s) && (op.Complete? || op.Fail?)
    ensures var r := Outcome(s, op);
      if op.id !in s then r == Err(NotFound)
      else if s[op.id].action.status != InProgress then r == Err(IllegalTransition)
      else if !Used(s, op.attemptId) then r == Err(NotFound)
      else if !Runs(s[op.id], op.attemptId) then r == Err(IllegalTransition)
      else if op.Complete? && !op.current then r == Err(Stale)
      else
        && r.Ok?
        && (op.Complete? ==> Ends(s[op.id], r.value, Completed, None, op.now))
        && (op.Fail? ==> Ends(s[op.id], r.value, Failed, Some(op.code), op.now))
  {
    hide Orderly, Finish, Filed, Known, Used, AttemptAt, Ended, Ends;
    KnownIsUsed(s, op.attemptId);
    if op.id in s {
      var l, to := s[op.id], if op.Complete? then Completed else Failed;
      var code := if op.Complete? then None else Some(op.code);
      FiledIsOrderly(s, op.id);
      FinishIs(l, op.attemptId, Known(s, op.attemptId), to, op.Fail? || op.current, code, op.now);
      LastAttemptIs(l.attempts, op.attemptId);
      if l.action.status == InProgress { EndedIs(l, to, code, op.now); }
    }
  }

  /** A planned action is cancelled as it is; a running one with its running attempt, which must be the named one if
      one is named; any other may not be. */
  lemma CancellingIs(s: Ledgers, op: Operation)
    requires Filed(s) && op.CancelAction?
    ensures var r := Outcome(s, op);
      if op.id !in s then r == Err(NotFound)
      else if s[op.id].action.status == Planned then
        r.Ok? && Moves(s[op.id], r.value, Cancelled, op.cancelled, None, op.now)
        && r.value.attempts == s[op.id].attempts
      else if s[op.id].action.status == InProgress && (op.cancelled.Some? ==> Runs(s[op.id], op.cancelled.value)) then
        r.Ok? && Ends(s[op.id], r.value, Cancelled, None, op.now)
      else r == Err(IllegalTransition)
  {
    hide Orderly, Cancel, Filed, Known, Ended, Ends;
    if op.id in s {
      var l := s[op.id];
      FiledIsOrderly(s, op.id);
      CancelIs(l, op.cancelled, op.now);
      if l.action.status == InProgress { EndedIs(l, Cancelled, None, op.now); }
    }
  }

  /** A new action is created once, planned, for an approved and current proposal, with an empty draft if it names one;
      the same action again is returned as it has become. */
  lemma CreatingIs(s: Ledgers, op: Operation)
    requires op.Create?
    ensures var r, a := Outcome(s, op), op.action;
      if a.status != Planned then r == Err(NotPlanned)
      else if !op.approved then r == Err(NotApproved)
      else if a.id in s then
        if s[a.id].action.(status := Planned) == a then r == Ok(s[a.id]) else r == Err(ImmutableConflict)
      else if !op.current then r == Err(Stale)
      else
        && r.Ok? && r.value.action == a && r.value.attempts == []
        && r.value.events == [Event(1, None, Planned, None, None, 0)]
        && r.value.draft == (if a.draftId.None? then None else Some(Draft(a.draftId.value, None, None)))
  {
  }
}
