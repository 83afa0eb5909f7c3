/** Concurrent writers of the Finance review journal (services/persistence/finance_reviews.py:190-359).
    Nothing but the table's two uniqueness constraints orders them: each looks up its key, reads the
    latest revision, and inserts, in three separate steps between which the others may act; a refused
    insert is followed by the two reads of the recovery. */
module FinanceWriters {
  import opened Basics
  import opened FinancePolicy
  import opened FinanceJournal

  datatype Writer =
    | Started(q: Request)
    | KeyMissed(q: Request)                       // the key was not in the table
    | Prepared(q: Request, revision: int)         // every check passed; the insert is next
    | Collided(q: Request)                        // the insert violated a uniqueness constraint
    | MissedAgain(q: Request)                     // the recovery did not find the key
    | Finished(q: Request, result: AppendResult)

  datatype World = World(rows: seq<Row>, writers: seq<Writer>)

  /** The next step of one writer on the table as it is now. */
  function Advance(env: Environment, rows: seq<Row>, w: Writer): (seq<Row>, Writer)
    requires ValidReview(w.q.review)
  {
    var q := w.q;
    var stored, previous := ByKey(rows, q.key), Latest(rows, q.review.reviewId);
    match w
    case Started(_) =>
      if !ValidArguments(q) then (rows, Finished(q, Err(InvalidArguments)))
      else if stored.Some? then (rows, Finished(q, Answer(stored.value, q)))
      else (rows, KeyMissed(q))
    case KeyMissed(_) =>
      if RevisionOf(previous) != q.expected
        then (rows, Finished(q, Err(RevisionConflict(q.expected, RevisionOf(previous)))))
      else if Refuse(env, previous, q.review).Some? then
        (rows, Finished(q, Err(Integrity(Refuse(env, previous, q.review).value))))
      else (rows, Prepared(q, NextRevision(previous)))
    case Prepared(_, revision) =>
      if Unique(rows, RowFor(q, revision)) then (rows + [RowFor(q, revision)], Finished(q, Ok((q.review, revision))))
      else (rows, Collided(q))
    case Collided(_) =>
      if stored.Some? then (rows, Finished(q, Answer(stored.value, q))) else (rows, MissedAgain(q))
    case MissedAgain(_) =>
      if RevisionOf(previous) != q.expected
        then (rows, Finished(q, Err(RevisionConflict(q.expected, RevisionOf(previous)))))
      else (rows, Finished(q, Err(UniquenessViolated)))
    case Finished(_, _) => (rows, w)
  }

  predicate Valid(w: World) { forall i | 0 <= i < |w.writers| :: ValidReview(w.writers[i].q.review) }

  predicate SameRequests(w: World, w': World) {
    |w'.writers| == |w.writers| && forall k | 0 <= k < |w.writers| :: w'.writers[k].q == w.writers[k].q
  }

  lemma SameRequestsValid(w: World, w': World)
    requires Valid(w) && SameRequests(w, w')
    ensures Valid(w')
  {
    hide ValidReview;
  }

  lemma AdvanceKeepsRequest(env: Environment, rows: seq<Row>, w: Writer)
    requires ValidReview(w.q.review)
    ensures Advance(env, rows, w).1.q == w.q
  {
    hide Refuse, Latest, ByKey, Unique, ValidReview;
  }

  function Step(env: Environment, w: World, i: nat): (r: World)
    requires i < |w.writers| && Valid(w)
    ensures SameRequests(w, r)
  {
    AdvanceKeepsRequest(env, w.rows, w.writers[i]);
    var next := Advance(env, w.rows, w.writers[i]);
    World(next.0, w.writers[i := next.1])
  }

  predicate Schedules(schedule: seq<nat>, w: World) {
    forall k | 0 <= k < |schedule| :: schedule[k] < |w.writers|
  }

  /** The world after the writers have moved in the order the schedule gives, in any interleaving. */
  function Run(env: Environment, w: World, schedule: seq<nat>): (r: World)
    requires Schedules(schedule, w) && Valid(w)
    ensures SameRequests(w, r)
  {
    if |schedule| == 0 then w
    else
      var front, last := schedule[..|schedule| - 1], schedule[|schedule| - 1];
      var before := Run(env, w, front);
      SameRequestsValid(w, before);
      Step(env, before, last)
  }

  // --- What each writer knows, however the others move -----------------------------

  function ExpectedLength(q: Request): int { if q.expected.Some? then q.expected.value else 0 }

  ghost predicate Knows(env: Environment, rows: seq<Row>, w: Writer) {
    var h := History(rows, w.q.review.reviewId);
    match w
    case Started(_) => true
    case KeyMissed(q) => ValidArguments(q)
    case Prepared(q, revision) =>
      && ValidArguments(q) && ExpectedLength(q) == revision - 1
      && 1 <= revision <= |h| + 1 && Follows(env, h[..revision - 1], RowFor(q, revision))
    case Collided(q) => ValidArguments(q) && (ByKey(rows, q.key).Some? || |h| > ExpectedLength(q))
    case MissedAgain(q) => ValidArguments(q) && |h| > ExpectedLength(q)
    case Finished(_, _) => true
  }

  ghost predicate Consistent(env: Environment, w: World) {
    && Valid(w) && Journal(env, w.rows)
    && forall i | 0 <= i < |w.writers| :: Knows(env, w.rows, w.writers[i])
  }

  lemma ByKeyStays(rows: seq<Row>, row: Row, key: string)
    requires ByKey(rows, key).Some?
    ensures ByKey(rows + [row], key).Some?
  {
    assert (rows + [row])[..|rows|] == rows;
  }

  /** What a writer knows stays true when another row is inserted. */
  lemma KnowledgeStays(env: Environment, rows: seq<Row>, row: Row, w: Writer)
    requires Knows(env, rows, w)
    ensures Knows(env, rows + [row], w)
  {
    var id := w.q.review.reviewId;
    HistoryGrows(rows, row, id);
    var h, h' := History(rows, id), History(rows + [row], id);
    if w.Prepared? { assert h'[..w.revision - 1] == h[..w.revision - 1]; }
    if w.Collided? && ByKey(rows, w.q.key).Some? { ByKeyStays(rows, row, w.q.key); }
  }

  lemma LatestCounts(env: Environment, rows: seq<Row>, id: string)
    requires Legal(env, History(rows, id))
    ensures var h, previous := History(rows, id), Latest(rows, id);
      && RevisionOf(previous) == (if |h| == 0 then None else Some(|h|))
      && previous == (if |h| == 0 then None else Some(h[|h| - 1]))
  {
    LatestIsLast(env, rows, id);
    var h := History(rows, id);
    if |h| > 0 { assert Follows(env, h[..|h| - 1], h[|h| - 1]); }
  }

  lemma AcceptedFollows(env: Environment, rows: seq<Row>, q: Request)
    requires ValidReview(q.review) && Legal(env, History(rows, q.review.reviewId))
    requires Refuse(env, Latest(rows, q.review.reviewId), q.review).None?
    ensures var h, next := History(rows, q.review.reviewId), NextRevision(Latest(rows, q.review.reviewId));
      next == |h| + 1 && Follows(env, h, RowFor(q, next))
  {
    LatestCounts(env, rows, q.review.reviewId);
  }

  lemma PreparedKnows(env: Environment, rows: seq<Row>, w: Writer)
    requires w.KeyMissed? && ValidReview(w.q.review) && Journal(env, rows) && Knows(env, rows, w)
    requires Advance(env, rows, w).1.Prepared?
    ensures Knows(env, rows, Advance(env, rows, w).1)
  {
    hide Journal, Legal, History, Follows, Refuse, Latest, ByKey;
    var id := w.q.review.reviewId;
    JournalIsLegal(env, rows, id);
    AcceptedFollows(env, rows, w.q);
    LatestCounts(env, rows, id);
    assert History(rows, id)[..|History(rows, id)|] == History(rows, id);
  }

  lemma CollidedKnows(env: Environment, rows: seq<Row>, w: Writer)
    requires w.Prepared? && ValidReview(w.q.review) && Journal(env, rows) && Knows(env, rows, w)
    requires !Unique(rows, RowFor(w.q, w.revision))
    ensures Knows(env, rows, Collided(w.q))
  {
    var id := w.q.review.reviewId;
    assert Legal(env, History(rows, id));
    OccupiedIsReached(env, rows, id, w.revision);
  }

  /** A successful insert continues the history as it is at that moment. */
  lemma InsertedFollows(env: Environment, rows: seq<Row>, w: Writer)
    requires w.Prepared? && ValidReview(w.q.review) && Journal(env, rows) && Knows(env, rows, w)
    requires Unique(rows, RowFor(w.q, w.revision))
    ensures w.revision == |History(rows, w.q.review.reviewId)| + 1
    ensures Follows(env, History(rows, w.q.review.reviewId), RowFor(w.q, w.revision))
  {
    var id := w.q.review.reviewId;
    var h := History(rows, id);
    assert Legal(env, h);
    OccupiedIsReached(env, rows, id, w.revision);
    assert h[..w.revision - 1] == h;
  }

  ghost predicate Kept(env: Environment, rows: seq<Row>, w: Writer, rows': seq<Row>, w': Writer) {
    && w'.q == w.q && Journal(env, rows') && Knows(env, rows', w')
    && (rows' == rows || exists row :: rows' == rows + [row])
  }

  lemma PreparedKeeps(env: Environment, rows: seq<Row>, w: Writer)
    requires w.Prepared? && ValidReview(w.q.review) && Journal(env, rows) && Knows(env, rows, w)
    ensures Kept(env, rows, w, Advance(env, rows, w).0, Advance(env, rows, w).1)
  {
    var row := RowFor(w.q, w.revision);
    if Unique(rows, row) {
      InsertedFollows(env, rows, w);
      InsertKeepsJournal(env, rows, row);
      assert Advance(env, rows, w).0 == rows + [row];
    } else {
      CollidedKnows(env, rows, w);
    }
  }

  lemma AdvanceKeeps(env: Environment, rows: seq<Row>, w: Writer)
    requires ValidReview(w.q.review) && Journal(env, rows) && Knows(env, rows, w)
    ensures Kept(env, rows, w, Advance(env, rows, w).0, Advance(env, rows, w).1)
  {
    hide Journal, History, Follows, Refuse, Unique;
    if w.KeyMissed? {
      if Advance(env, rows, w).1.Prepared? { PreparedKnows(env, rows, w); }
    } else if w.Prepared? {
      PreparedKeeps(env, rows, w);
    }
  }

  lemma StepKeeps(env: Environment, w: World, i: nat)
    requires Consistent(env, w) && i < |w.writers|
    ensures Consistent(env, Step(env, w, i))
    ensures w.rows <= Step(env, w, i).rows
  {
    AdvanceKeeps(env, w.rows, w.writers[i]);
    var w' := Step(env, w, i);
    forall k | 0 <= k < |w'.writers| ensures Knows(env, w'.rows, w'.writers[k]) {
      if k != i && w'.rows != w.rows {
        var row :| w'.rows == w.rows + [row];
        KnowledgeStays(env, w.rows, row, w.writers[k]);
      }
    }
  }

  ghost predicate AllStarted(w: World) { forall i | 0 <= i < |w.writers| :: w.writers[i].Started? }

  /** Whatever the interleaving, the table is a journal, and only ever grows. */
  lemma {:induction false} EveryRunKeepsTheJournal(env: Environment, w: World, schedule: seq<nat>)
    requires Valid(w) && AllStarted(w) && Journal(env, w.rows) && Schedules(schedule, w)
    ensures Consistent(env, Run(env, w, schedule))
    ensures w.rows <= Run(env, w, schedule).rows
  {
    if |schedule| > 0 {
      var front := schedule[..|schedule| - 1];
      EveryRunKeepsTheJournal(env, w, front);
      StepKeeps(env, Run(env, w, front), schedule[|schedule| - 1]);
    }
  }

  // --- Some sequential order --------------------------------------------------------

  /** Running requests one after another, each alone. */
  ghost function Sequentially(env: Environment, rows: seq<Row>, requests: seq<Request>): seq<Row>
    requires forall q | q in requests :: ValidReview(q.review)
  {
    if |requests| == 0 then rows
    else AppendRows(env, Sequentially(env, rows, requests[..|requests| - 1]), requests[|requests| - 1])
  }

  /** A step that inserts does exactly what the request would have done alone at that moment. */
  lemma InsertIsAtomic(env: Environment, rows: seq<Row>, w: Writer)
    requires w.Prepared? && ValidReview(w.q.review) && Journal(env, rows) && Knows(env, rows, w)
    requires Unique(rows, RowFor(w.q, w.revision))
    ensures Advance(env, rows, w) == (AppendRows(env, rows, w.q), Finished(w.q, AppendOutcome(env, rows, w.q)))
  {
    var id := w.q.review.reviewId;
    InsertedFollows(env, rows, w);
    assert Legal(env, History(rows, id));
    LatestCounts(env, rows, id);
  }

  /** The requests whose rows a run inserted, in the order of insertion. */
  ghost function Winners(env: Environment, w: World, schedule: seq<nat>): seq<Request>
    requires Valid(w) && Schedules(schedule, w)
  {
    if |schedule| == 0 then []
    else
      var front := schedule[..|schedule| - 1];
      var before := Run(env, w, front);
      Winners(env, w, front)
      + if Step(env, before, schedule[|schedule| - 1]).rows == before.rows then []
        else [before.writers[schedule[|schedule| - 1]].q]
  }

  /** A step that changes the table runs its request alone. */
  lemma StepAppends(env: Environment, w: World, i: nat)
    requires Consistent(env, w) && i < |w.writers| && Step(env, w, i).rows != w.rows
    ensures Step(env, w, i).rows == AppendRows(env, w.rows, w.writers[i].q)
  {
    hide Journal, History, Follows, Refuse, AppendRows, AppendOutcome;
    assert Knows(env, w.rows, w.writers[i]);
    InsertIsAtomic(env, w.rows, w.writers[i]);
  }

  /** The table after any interleaving is the table of some sequential order: the successful appends,
      run alone one after another in the order of their inserts. */
  lemma {:induction false} EveryRunIsSequential(env: Environment, w: World, schedule: seq<nat>)
    requires Valid(w) && AllStarted(w) && Journal(env, w.rows) && Schedules(schedule, w)
    ensures forall q | q in Winners(env, w, schedule) :: ValidReview(q.review)
    ensures Run(env, w, schedule).rows == Sequentially(env, w.rows, Winners(env, w, schedule))
  {
    hide Journal, Consistent, Step, AppendRows;
    if |schedule| > 0 {
      var front, i := schedule[..|schedule| - 1], schedule[|schedule| - 1];
      EveryRunIsSequential(env, w, front);
      EveryRunKeepsTheJournal(env, w, front);
      var before := Run(env, w, front);
      if Step(env, before, i).rows == before.rows {
        assert Winners(env, w, schedule) == Winners(env, w, front);
      } else {
        StepAppends(env, before, i);
        assert Winners(env, w, schedule)[..|Winners(env, w, front)|] == Winners(env, w, front);
      }
    }
  }

  // --- What the writers are told ------------------------------------------------------

  /** A writer that finishes with a stored or inserted review, or with an idempotency conflict, is told
      what it would have been told alone at that moment. */
  lemma KeyAnswersAreAtomic(env: Environment, rows: seq<Row>, w: Writer)
    requires ValidReview(w.q.review) && Journal(env, rows) && Knows(env, rows, w)
    requires w.Started? || w.Prepared? || w.Collided?
    ensures Advance(env, rows, w).1.Finished? ==> Advance(env, rows, w).1.result == AppendOutcome(env, rows, w.q)
  {
    if w.Prepared? && Unique(rows, RowFor(w.q, w.revision)) { InsertIsAtomic(env, rows, w); }
  }

  /** After the key was missed the answer is the sequential one exactly when the key is still unused: a
      copy of the request that got in between turns the sequential replay into a reported conflict. */
  lemma LaterAnswersNeedTheKeyUnused(env: Environment, rows: seq<Row>, w: Writer)
    requires ValidReview(w.q.review) && Journal(env, rows) && Knows(env, rows, w)
    requires (w.KeyMissed? || w.MissedAgain?) && Advance(env, rows, w).1.Finished?
    ensures Advance(env, rows, w).1.result == AppendOutcome(env, rows, w.q) <==> ByKey(rows, w.q.key).None?
  {
    hide Journal, Legal, History, Follows, Refuse, Latest, ByKey;
    JournalIsLegal(env, rows, w.q.review.reviewId);
    LatestCounts(env, rows, w.q.review.reviewId);
  }

  lemma JournalIsLegal(env: Environment, rows: seq<Row>, id: string)
    requires Journal(env, rows)
    ensures Legal(env, History(rows, id))
  {
  }

  /** The run that goes on from a known state. */
  lemma RunNext(env: Environment, w: World, schedule: seq<nat>, now: World, i: nat, next: seq<nat>)
    requires Schedules(schedule, w) && Valid(w) && Run(env, w, schedule) == now
    requires i < |w.writers| && next == schedule + [i]
    ensures Schedules(next, w) && Run(env, w, next) == Step(env, now, i)
  {
    assert next[..|schedule|] == schedule;
  }

  lemma CopiesRead(env: Environment, q: Request)
    requires ValidReview(q.review) && ValidArguments(q) && q.expected.None? && RefuseFirst(env, q.review).None?
    ensures Step(env, World([], [Started(q), Started(q)]), 0) == World([], [KeyMissed(q), Started(q)])
    ensures Step(env, World([], [KeyMissed(q), Started(q)]), 1) == World([], [KeyMissed(q), KeyMissed(q)])
    ensures Step(env, World([], [KeyMissed(q), KeyMissed(q)]), 1) == World([], [KeyMissed(q), Prepared(q, 1)])
  {
    hide RefuseFirst, ValidReview, ValidArguments;
  }

  lemma OneCopyInserts(env: Environment, q: Request)
    requires ValidReview(q.review) && ValidArguments(q) && q.expected.None? && RefuseFirst(env, q.review).None?
    ensures var stored, told := [RowFor(q, 1)], Finished(q, Ok((q.review, 1)));
      && Step(env, World([], [KeyMissed(q), Prepared(q, 1)]), 1) == World(stored, [KeyMissed(q), told])
      && Step(env, World(stored, [KeyMissed(q), told]), 0)
         == World(stored, [Finished(q, Err(RevisionConflict(None, Some(1)))), told])
  {
    hide RefuseFirst, RefuseNext, ValidReview, ValidArguments;
    var stored := [RowFor(q, 1)];
    assert [] + stored == stored && stored[..0] == [];
    assert Unique([], RowFor(q, 1)) && Latest(stored, q.review.reviewId) == Some(RowFor(q, 1));
  }

  lemma CopiesAlone(env: Environment, q: Request)
    requires ValidReview(q.review) && ValidArguments(q) && q.expected.None? && RefuseFirst(env, q.review).None?
    ensures var stored := [RowFor(q, 1)];
      && AppendRows(env, [], q) == stored && AppendOutcome(env, [], q) == Ok((q.review, 1))
      && AppendOutcome(env, stored, q) == Ok((q.review, 1))
  {
    hide RefuseFirst, RefuseNext, ValidReview, ValidArguments;
    assert [] + [RowFor(q, 1)] == [RowFor(q, 1)];
  }

  /** Two copies of one first submission: the copy that is overtaken between its two reads is told of a
      revision conflict, where one after the other both would be told of the stored review. */
  lemma OvertakenCopyIsToldConflict(env: Environment, q: Request)
    requires ValidReview(q.review) && ValidArguments(q) && q.expected.None? && RefuseFirst(env, q.review).None?
    ensures
      var w := World([], [Started(q), Started(q)]);
      var stored := [RowFor(q, 1)];
      && Run(env, w, [0, 1, 1, 1, 0])
         == World(stored, [Finished(q, Err(RevisionConflict(None, Some(1)))), Finished(q, Ok((q.review, 1)))])
      && AppendRows(env, [], q) == stored && AppendOutcome(env, [], q) == Ok((q.review, 1))
      && AppendOutcome(env, stored, q) == Ok((q.review, 1))
  {
    hide Step, Run, AppendRows, AppendOutcome, RefuseFirst, ValidReview, ValidArguments, Schedules;
    var w := World([], [Started(q), Started(q)]);
    CopiesAlone(env, q);
    CopiesRead(env, q);
    OneCopyInserts(env, q);
    var w1, w2 := World([], [KeyMissed(q), Started(q)]), World([], [KeyMissed(q), KeyMissed(q)]);
    var w3 := World([], [KeyMissed(q), Prepared(q, 1)]);
    var w4 := World([RowFor(q, 1)], [KeyMissed(q), Finished(q, Ok((q.review, 1)))]);
    StartsThere(env, w);
    RunNext(env, w, [], w, 0, [0]);
    RunNext(env, w, [0], w1, 1, [0, 1]);
    RunNext(env, w, [0, 1], w2, 1, [0, 1, 1]);
    RunNext(env, w, [0, 1, 1], w3, 1, [0, 1, 1, 1]);
    RunNext(env, w, [0, 1, 1, 1], w4, 0, [0, 1, 1, 1, 0]);
  }

  lemma StartsThere(env: Environment, w: World)
    requires Valid(w)
    ensures Run(env, w, []) == w
  {
  }

  /** A uniqueness error is always explained: the recovery never raises it again. */
  lemma RecoveryExplains(env: Environment, rows: seq<Row>, w: Writer)
    requires ValidReview(w.q.review) && Journal(env, rows) && Knows(env, rows, w)
    requires w.Collided? || w.MissedAgain?
    ensures var next := Advance(env, rows, w).1;
      && next != Finished(w.q, Err(UniquenessViolated))
      && (w.MissedAgain? ==> next.Finished? && next.result.Err? && next.result.error.RevisionConflict?
                             && next.result.error.actual.Some? && next.result.error.actual.value > ExpectedLength(w.q))
  {
    var id := w.q.review.reviewId;
    assert Legal(env, History(rows, id));
    LatestCounts(env, rows, id);
  }

  lemma {:induction false} NoRunReraises(env: Environment, w: World, schedule: seq<nat>, i: nat)
    requires Valid(w) && AllStarted(w) && Journal(env, w.rows) && Schedules(schedule, w) && i < |w.writers|
    ensures Run(env, w, schedule).writers[i] != Finished(w.writers[i].q, Err(UniquenessViolated))
  {
    hide Journal, History, Follows, Refuse, Latest, ByKey, ValidReview;
    if |schedule| > 0 {
      var front, k := schedule[..|schedule| - 1], schedule[|schedule| - 1];
      NoRunReraises(env, w, front, i);
      EveryRunKeepsTheJournal(env, w, front);
      var before := Run(env, w, front);
      if k == i {
        var writer := before.writers[i];
        if writer.Collided? || writer.MissedAgain? {
          RecoveryExplains(env, before.rows, writer);
        }
      }
    }
  }
}
