/** The append-only Finance review journal (services/persistence/finance_reviews.py): replay by
    idempotency key, optimistic revision check, lifecycle and canonical-transition check, insert. */
module FinanceJournal {
  import opened Basics
  import opened PythonText
  import opened FinancePolicy

  datatype Row = Row(review: Review, revision: int, key: string, fingerprint: string)

  datatype Request = Request(review: Review, expected: Option<int>, key: string, fingerprint: string)

  datatype IntegrityReason =
    | FirstNotPending | FirstViolatesPolicy | FirstNotCanonical
    | IllegalTransition | MetadataChanged | ViolatesPolicy | NotCanonical | Unbound

  datatype AppendError =
    | InvalidArguments
    | IdempotencyConflict
    | RevisionConflict(expected: Option<int>, actual: Option<int>)
    | Integrity(reason: IntegrityReason)
    | UniquenessViolated

  type AppendResult = Result<(Review, int), AppendError>

  /** What is fixed while the journal runs: UUID parsing, and which reviews agree with the stored
      immutable Analysis Versions (`_require_bound_analysis`). */
  datatype Environment = Environment(parse: UuidParser, bound: Review -> bool)

  // --- Reading ---------------------------------------------------------------

  function ByKey(rows: seq<Row>, key: string): Option<Row> {
    if |rows| == 0 then None
    else if rows[|rows| - 1].key == key then Some(rows[|rows| - 1])
    else ByKey(rows[..|rows| - 1], key)
  }

  /** The row of the review with the highest revision. */
  function Latest(rows: seq<Row>, reviewId: string): Option<Row> {
    if |rows| == 0 then None
    else
      var rest, last := Latest(rows[..|rows| - 1], reviewId), rows[|rows| - 1];
      if last.review.reviewId == reviewId && (rest.None? || last.revision >= rest.value.revision) then Some(last)
        else rest
  }

  function RevisionOf(row: Option<Row>): Option<int> { if row.Some? then Some(row.value.revision) else None }

  predicate Occupied(rows: seq<Row>, reviewId: string, revision: int) {
    exists row :: row in rows && row.review.reviewId == reviewId && row.revision == revision
  }

  // --- The checks of one append --------------------------------------------------

  predicate ValidArguments(q: Request) {
    (q.expected.Some? ==> q.expected.value > 0) && !Blank(q.key) && IsDigest(q.fingerprint)
  }

  predicate Allowed(from: Status, to: Status) {
    match from
    case Pending => to == Approved || to == Rejected || to == Superseded
    case Approved | Rejected => to == Superseded
    case Superseded => false
  }

  /** The first revision of a review: None when it may be stored. */
  function RefuseFirst(env: Environment, review: Review): Option<IntegrityReason> {
    if review.status != Pending then Some(FirstNotPending)
    else
      var canonical := Submit(env.parse, review.reviewId, review.proposal, review.submittedBy, review.submittedAt);
      if canonical.Err? then Some(FirstViolatesPolicy)
      else if canonical.value != review then Some(FirstNotCanonical)
      else if !env.bound(review) then Some(Unbound)
      else None
  }

  /** A later revision, given the one before it. */
  function RefuseNext(env: Environment, previous: Review, review: Review): Option<IntegrityReason>
    requires ValidReview(review)
  {
    if !Allowed(previous.status, review.status) || review.reviewId != previous.reviewId
       || review.proposal != previous.proposal || review.submittedBy != previous.submittedBy
       || review.submittedAt != previous.submittedAt
    then Some(IllegalTransition)
    else if review.status == Superseded
       && (review.reviewedBy != previous.reviewedBy || review.reviewedAt != previous.reviewedAt
           || review.reason != previous.reason)
    then Some(MetadataChanged)
    else
      var canonical :=
        if review.status == Superseded then Supersede(previous, review.supersededAt.value)
        else Resolve(env.parse, previous, previous.proposal, review.reviewedBy.value, review.status == Approved,
                     review.reason, review.reviewedAt.value);
      if canonical.Err? then Some(ViolatesPolicy)
      else if canonical.value != review then Some(NotCanonical)
      else if !env.bound(review) then Some(Unbound)
      else None
  }

  function Refuse(env: Environment, previous: Option<Row>, review: Review): Option<IntegrityReason>
    requires ValidReview(review)
  {
    if previous.None? then RefuseFirst(env, review) else RefuseNext(env, previous.value.review, review)
  }

  function NextRevision(previous: Option<Row>): int { if previous.None? then 1 else previous.value.revision + 1 }

  function RowFor(q: Request, revision: int): Row { Row(q.review, revision, q.key, q.fingerprint) }

  /** A used key answers with what it stored, or refuses another request. */
  function Answer(stored: Row, q: Request): AppendResult {
    if stored.review == q.review && stored.fingerprint == q.fingerprint then Ok((stored.review, stored.revision))
    else Err(IdempotencyConflict)
  }

  /** What an append that runs alone returns. */
  function AppendOutcome(env: Environment, rows: seq<Row>, q: Request): AppendResult
    requires ValidReview(q.review)
  {
    var stored, previous := ByKey(rows, q.key), Latest(rows, q.review.reviewId);
    if !ValidArguments(q) then Err(InvalidArguments)
    else if stored.Some? then Answer(stored.value, q)
    else if RevisionOf(previous) != q.expected then Err(RevisionConflict(q.expected, RevisionOf(previous)))
    else if Refuse(env, previous, q.review).Some? then Err(Integrity(Refuse(env, previous, q.review).value))
    else Ok((q.review, NextRevision(previous)))
  }

  /** What it leaves in the table. */
  function AppendRows(env: Environment, rows: seq<Row>, q: Request): seq<Row>
    requires ValidReview(q.review)
  {
    if AppendOutcome(env, rows, q).Ok? && ByKey(rows, q.key).None?
    then rows + [RowFor(q, NextRevision(Latest(rows, q.review.reviewId)))]
    else rows
  }

  predicate Unique(rows: seq<Row>, row: Row) {
    ByKey(rows, row.key).None? && !Occupied(rows, row.review.reviewId, row.revision)
  }

  // --- The table ------------------------------------------------------------------

  /** The rows of one review, in the order they were inserted. */
  ghost function History(rows: seq<Row>, reviewId: string): seq<Row> {
    Filter((row: Row) => row.review.reviewId == reviewId, rows)
  }

  ghost predicate Follows(env: Environment, before: seq<Row>, row: Row) {
    && ValidReview(row.review) && row.revision == |before| + 1
    && Refuse(env, if |before| == 0 then None else Some(before[|before| - 1]), row.review).None?
  }

  ghost predicate Legal(env: Environment, history: seq<Row>) {
    forall k | 0 <= k < |history| :: Follows(env, history[..k], history[k])
  }

  ghost predicate Journal(env: Environment, rows: seq<Row>) {
    && (forall i, j | 0 <= i < j < |rows| :: rows[i].key != rows[j].key)
    && forall id: string :: Legal(env, History(rows, id))
  }

  lemma HistoryGrows(rows: seq<Row>, row: Row, id: string)
    ensures History(rows + [row], id) == History(rows, id) + if row.review.reviewId == id then [row] else []
  {
    FilterSplit((r: Row) => r.review.reviewId == id, rows, [row]);
  }

  lemma HistoryMembers(rows: seq<Row>, id: string)
    ensures forall row :: row in History(rows, id) <==> row in rows && row.review.reviewId == id
  {
    FilterMembers((r: Row) => r.review.reviewId == id, rows);
  }

  lemma {:induction false} ByKeyFinds(rows: seq<Row>, key: string)
    ensures ByKey(rows, key).Some? ==> ByKey(rows, key).value in rows && ByKey(rows, key).value.key == key
    ensures ByKey(rows, key).None? ==> forall row | row in rows :: row.key != key
  {
    if |rows| > 0 {
      var front := rows[..|rows| - 1];
      assert rows == front + [rows[|rows| - 1]];
      ByKeyFinds(front, key);
    }
  }

  lemma LegalPrefix(env: Environment, history: seq<Row>, k: nat)
    requires Legal(env, history) && k <= |history|
    ensures Legal(env, history[..k])
  {
    forall i | 0 <= i < k ensures Follows(env, history[..k][..i], history[..k][i]) {
      assert history[..k][..i] == history[..i];
    }
  }

  /** In a legal history the highest revision is the last one inserted. */
  lemma {:induction false} LatestIsLast(env: Environment, rows: seq<Row>, id: string)
    requires Legal(env, History(rows, id))
    ensures var h := History(rows, id);
      Latest(rows, id) == if |h| == 0 then None else Some(h[|h| - 1])
  {
    if |rows| > 0 {
      var front, last := rows[..|rows| - 1], rows[|rows| - 1];
      assert rows == front + [last];
      HistoryGrows(front, last, id);
      var h, h' := History(front, id), History(rows, id);
      assert h'[..|h|] == h;
      LegalPrefix(env, h', |h|);
      LatestIsLast(env, front, id);
      if last.review.reviewId == id {
        assert Follows(env, h'[..|h|], h'[|h|]);
        if |h| > 0 { assert Follows(env, h'[..|h| - 1], h'[|h| - 1]); }
      }
    }
  }

  lemma LegalExtends(env: Environment, history: seq<Row>, row: Row)
    requires Legal(env, history) && Follows(env, history, row)
    ensures Legal(env, history + [row])
  {
    var h := history + [row];
    forall k | 0 <= k < |h| ensures Follows(env, h[..k], h[k]) {
      if k < |history| { assert h[..k] == history[..k]; } else { assert h[..k] == history; }
    }
  }

  /** A row whose key is new and whose review's history it continues keeps the journal a journal. */
  lemma InsertKeepsJournal(env: Environment, rows: seq<Row>, row: Row)
    requires Journal(env, rows) && ByKey(rows, row.key).None?
    requires Follows(env, History(rows, row.review.reviewId), row)
    ensures Journal(env, rows + [row])
  {
    hide Legal, Follows, History, ByKey;
    ByKeyFinds(rows, row.key);
    forall id: string ensures Legal(env, History(rows + [row], id)) {
      HistoryGrows(rows, row, id);
      assert Legal(env, History(rows, id));
      if row.review.reviewId == id {
        LegalExtends(env, History(rows, id), row);
      } else {
        assert History(rows + [row], id) == History(rows, id);
      }
    }
  }

  /** A slot is taken exactly when the review's history reaches it. */
  lemma OccupiedIsReached(env: Environment, rows: seq<Row>, id: string, revision: int)
    requires Legal(env, History(rows, id))
    ensures Occupied(rows, id, revision) <==> 1 <= revision <= |History(rows, id)|
  {
    HistoryMembers(rows, id);
    var h := History(rows, id);
    if Occupied(rows, id, revision) {
      var row :| row in rows && row.review.reviewId == id && row.revision == revision;
      var k :| 0 <= k < |h| && h[k] == row;
      assert Follows(env, h[..k], h[k]);
    }
    if 1 <= revision <= |h| {
      assert Follows(env, h[..revision - 1], h[revision - 1]);
      assert h[revision - 1] in h;
    }
  }

  /** An append that runs alone finds its slot free, and keeps the journal a journal. */
  lemma AppendKeepsJournal(env: Environment, rows: seq<Row>, q: Request)
    requires Journal(env, rows) && ValidReview(q.review)
    ensures Journal(env, AppendRows(env, rows, q))
    ensures rows <= AppendRows(env, rows, q)
    ensures AppendRows(env, rows, q) != rows ==> Unique(rows, RowFor(q, NextRevision(Latest(rows, q.review.reviewId))))
  {
    var id := q.review.reviewId;
    LatestIsLast(env, rows, id);
    if AppendRows(env, rows, q) != rows {
      var row := RowFor(q, NextRevision(Latest(rows, id)));
      var h := History(rows, id);
      if |h| > 0 { assert Follows(env, h[..|h| - 1], h[|h| - 1]); }
      OccupiedIsReached(env, rows, id, row.revision);
      InsertKeepsJournal(env, rows, row);
    }
  }

  // --- What every journal tells --------------------------------------------------

  function RecordedAt(r: Review): int {
    if r.supersededAt.Some? then r.supersededAt.value
    else if r.reviewedAt.Some? then r.reviewedAt.value
    else r.submittedAt
  }

  ghost predicate SameSubmission(a: Review, b: Review) {
    a.reviewId == b.reviewId && a.proposal == b.proposal && a.submittedBy == b.submittedBy
      && a.submittedAt == b.submittedAt
  }

  lemma FirstStep(env: Environment, review: Review)
    requires ValidReview(review) && RefuseFirst(env, review).None?
    ensures review.status == Pending && RequiresFinanceApproval(review.proposal.cost) && env.bound(review)
    ensures RequireSubmitter(env.parse, review.submittedBy).Ok?
  {
  }

  lemma NextStep(env: Environment, previous: Review, review: Review)
    requires ValidReview(previous) && ValidReview(review) && RefuseNext(env, previous, review).None?
    ensures Allowed(previous.status, review.status) && SameSubmission(previous, review) && env.bound(review)
    ensures RecordedAt(previous) <= RecordedAt(review)
    ensures review.status != Superseded ==>
      FourEyes(env.parse, review.reviewedBy.value, review.submittedBy)
        && RequireReviewer(env.parse, review.reviewedBy.value).Ok?
    ensures review.status == Superseded ==>
      review.reviewedBy == previous.reviewedBy && review.reviewedAt == previous.reviewedAt
        && review.reason == previous.reason
  {
    if review.status != Superseded {
      ResolutionIsValid(env.parse, previous, previous.proposal, review.reviewedBy.value, review.status == Approved,
                        review.reason, review.reviewedAt.value);
    } else {
      SupersessionIsValid(previous, review.supersededAt.value);
    }
  }

  /** What one later revision keeps of the one before it. */
  ghost predicate Succeeds(env: Environment, a: Review, b: Review) {
    && b.status != Pending && (a.status != Pending ==> a.status != Superseded && b.status == Superseded)
    && SameSubmission(a, b) && RecordedAt(a) <= RecordedAt(b)
    && (b.status != Superseded ==> b.reviewedBy.Some? && FourEyes(env.parse, b.reviewedBy.value, b.submittedBy))
    && (b.status == Superseded ==>
          b.reviewedBy == a.reviewedBy && b.reviewedAt == a.reviewedAt && b.reason == a.reason)
  }

  lemma LegalAt(env: Environment, h: seq<Row>, k: nat)
    requires Legal(env, h) && k < |h|
    ensures h[k].revision == k + 1 && ValidReview(h[k].review) && env.bound(h[k].review)
    ensures k == 0 ==> h[0].review.status == Pending && RequiresFinanceApproval(h[0].review.proposal.cost)
    ensures k > 0 ==> ValidReview(h[k - 1].review) && Succeeds(env, h[k - 1].review, h[k].review)
  {
    assert Follows(env, h[..k], h[k]);
    if k == 0 {
      FirstStep(env, h[0].review);
    } else {
      assert Follows(env, h[..k - 1], h[k - 1]);
      NextStep(env, h[k - 1].review, h[k].review);
    }
  }

  /** Every review's story: contiguous revisions from 1, at most three of them; a legal path of statuses;
      one proposal, submitter and submission time throughout; a verdict by a different person of the same
      tenant, which a supersession keeps; and times that never go back. */
  lemma StoryOfAReview(env: Environment, rows: seq<Row>, id: string)
    requires Journal(env, rows)
    ensures var h := History(rows, id);
      && |h| <= 3
      && (forall k | 0 <= k < |h| :: h[k].revision == k + 1 && env.bound(h[k].review))
      && (|h| > 0 ==> h[0].review.status == Pending && h[0].review.proposal.cost > 2_000_000)
      && (forall k | 0 <= k < |h| :: ValidReview(h[k].review) && SameSubmission(h[0].review, h[k].review))
      && (forall k | 0 < k < |h| :: Succeeds(env, h[k - 1].review, h[k].review))
      && (|h| == 3 ==> h[1].review.status != Superseded && h[2].review.status == Superseded)
  {
    var h := History(rows, id);
    assert Legal(env, h);
    forall k | 0 <= k < |h|
      ensures h[k].revision == k + 1 && ValidReview(h[k].review) && env.bound(h[k].review)
      ensures k > 0 ==> Succeeds(env, h[k - 1].review, h[k].review)
    {
      LegalAt(env, h, k);
    }
    if |h| > 0 { LegalAt(env, h, 0); }
    AtMostThree(env, h);
  }

  lemma AtMostThree(env: Environment, h: seq<Row>)
    requires |h| > 0 ==> h[0].review.status == Pending
    requires forall k | 0 < k < |h| :: Succeeds(env, h[k - 1].review, h[k].review)
    ensures |h| <= 3
    ensures |h| == 3 ==> h[1].review.status != Superseded && h[2].review.status == Superseded
    ensures forall k | 0 <= k < |h| :: SameSubmission(h[0].review, h[k].review)
  {
    assert |h| > 1 ==> Succeeds(env, h[0].review, h[1].review);
    assert |h| > 2 ==> Succeeds(env, h[1].review, h[2].review);
    assert |h| > 3 ==> Succeeds(env, h[2].review, h[3].review);
  }

  // --- The repository --------------------------------------------------------------

  class FinanceReviewRepository {
    const env: Environment
    var rows: seq<Row>

    constructor (env: Environment)
      ensures this.env == env && rows == [] && Journal(env, rows)
    {
      this.env := env;
      rows := [];
    }

    method GetByIdempotencyKey(key: string) returns (r: Option<Row>)
      ensures r.Some? ==> r.value in rows && r.value.key == key
      ensures r.None? ==> forall row | row in rows :: row.key != key
      ensures r == ByKey(rows, key)
    {
      ByKeyFinds(rows, key);
      r := ByKey(rows, key);
    }

    method GetLatest(reviewId: string) returns (r: Option<Row>)
      requires Journal(env, rows)
      ensures r == Latest(rows, reviewId)
      ensures r.Some? ==> r.value in History(rows, reviewId) && r.value.revision == |History(rows, reviewId)|
      ensures r.None? ==> History(rows, reviewId) == []
    {
      LatestIsLast(env, rows, reviewId);
      r := Latest(rows, reviewId);
      ghost var h := History(rows, reviewId);
      assert |h| > 0 ==> Follows(env, h[..|h| - 1], h[|h| - 1]);
    }

    method Append(q: Request) returns (r: AppendResult)
      requires Journal(env, rows) && ValidReview(q.review)
      modifies this
      ensures r == AppendOutcome(env, old(rows), q)
      ensures rows == AppendRows(env, old(rows), q)
      ensures Journal(env, rows) && old(rows) <= rows
    {
      AppendKeepsJournal(env, rows, q);
      if !ValidArguments(q) { return Err(InvalidArguments); }
      var replay := GetByIdempotencyKey(q.key);
      if replay.Some? {
        if replay.value.review == q.review && replay.value.fingerprint == q.fingerprint {
          return Ok((replay.value.review, replay.value.revision));
        }
        return Err(IdempotencyConflict);
      }
      var previous := GetLatest(q.review.reviewId);
      if RevisionOf(previous) != q.expected { return Err(RevisionConflict(q.expected, RevisionOf(previous))); }
      var refusal := Refuse(env, previous, q.review);
      if refusal.Some? { return Err(Integrity(refusal.value)); }
      var revision := NextRevision(previous);
      rows := rows + [Row(q.review, revision, q.key, q.fingerprint)];
      r := Ok((q.review, revision));
    }
  }

  /** Appending the same request again changes nothing and returns what the first append returned,
      whatever was appended in between. */
  lemma ReplayReturnsTheOriginal(env: Environment, rows: seq<Row>, q: Request, later: seq<Row>)
    requires Journal(env, rows) && ValidReview(q.review) && AppendOutcome(env, rows, q).Ok?
    requires AppendRows(env, rows, q) <= later && Journal(env, later)
    ensures AppendOutcome(env, later, q) == AppendOutcome(env, rows, q)
    ensures AppendRows(env, later, q) == later
  {
    var now := AppendRows(env, rows, q);
    ByKeyFinds(rows, q.key);
    ByKeyFinds(later, q.key);
    if ByKey(rows, q.key).None? {
      assert now[|now| - 1] == later[|now| - 1];
      KeyedRow(env, later, |now| - 1);
    } else {
      var i :| 0 <= i < |rows| && rows[i] == ByKey(rows, q.key).value;
      assert later[i] == now[i] == rows[i];
      KeyedRow(env, later, i);
    }
  }

  lemma KeyedRow(env: Environment, rows: seq<Row>, i: nat)
    requires Journal(env, rows) && i < |rows|
    ensures ByKey(rows, rows[i].key) == Some(rows[i])
  {
    ByKeyFinds(rows, rows[i].key);
    var found := ByKey(rows, rows[i].key);
    assert rows[i] in rows;
    forall j | 0 <= j < |rows| && rows[j].key == rows[i].key ensures j == i { }
    var j :| 0 <= j < |rows| && rows[j] == found.value;
  }
}
