/** Exactly which revisions the Finance review journal stores, and what it answers
    (services/persistence/finance_reviews.py:112-310, services/policy/finance_review.py:33-152). */
module JournalLaws {
  import opened Basics
  import opened PythonText
  import opened FinancePolicy
  import opened FinanceJournal

  /** A review opens pending, submitted by Alex's persona, for a cost above 20,000 USD. */
  ghost predicate Opening(env: Environment, r: Review) {
    r.status == Pending && r.proposal.cost > 2_000_000 && RequireSubmitter(env.parse, r.submittedBy).Ok? && env.bound(r)
  }

  /** A verdict goes to a pending review, by a reviewer who is another person of the submitter's tenant, not before the
      submission; a supersession goes to any other, keeps its verdict, and does not come before it; and neither changes
      what was submitted. */
  ghost predicate Continues(env: Environment, a: Review, b: Review) {
    && b.reviewId == a.reviewId && b.proposal == a.proposal && b.submittedBy == a.submittedBy
    && b.submittedAt == a.submittedAt && env.bound(b)
    && match b.status
       case Pending => false
       case Approved | Rejected =>
         && a.status == Pending && b.reviewedBy.Some? && b.reviewedAt.Some? && b.submittedAt <= b.reviewedAt.value
         && RequireReviewer(env.parse, b.reviewedBy.value).Ok? && FourEyes(env.parse, b.reviewedBy.value, b.submittedBy)
       case Superseded =>
         && a.status != Superseded
         && b.reviewedBy == a.reviewedBy && b.reviewedAt == a.reviewedAt && b.reason == a.reason
         && b.supersededAt.Some? && b.submittedAt <= b.supersededAt.value
         && (a.reviewedAt.Some? ==> a.reviewedAt.value <= b.supersededAt.value)
  }

  lemma FirstIsStoredWhen(env: Environment, review: Review)
    requires ValidReview(review)
    ensures RefuseFirst(env, review).None? <==> Opening(env, review)
  {
    hide RequireSubmitter, ValidProposal, Blank;
  }

  lemma ReasonIsFixed(r: Review)
    requires ValidReview(r)
    ensures NormalizedReason(r.reason) == r.reason && (r.reason.Some? ==> Strip(r.reason.value) == r.reason.value)
  {
    if r.reason.Some? {
      StripStrips(r.reason.value);
      StrippedIsFixed(r.reason.value);
    }
  }

  lemma VerdictIsStoredWhen(env: Environment, previous: Review, review: Review)
    requires ValidReview(previous) && ValidReview(review) && (review.status == Approved || review.status == Rejected)
    ensures RefuseNext(env, previous, review).None? <==> Continues(env, previous, review)
  {
    hide Resolve, ValidReview, FourEyes, RequireReviewer, Supersede;
    if Continues(env, previous, review) { VerdictPasses(env, previous, review); }
    if RefuseNext(env, previous, review).None? {
      NextStep(env, previous, review);
      ResolvedWasPending(env, previous, review);
    }
  }

  lemma ResolvedWasPending(env: Environment, previous: Review, review: Review)
    requires ValidReview(review) && (review.status == Approved || review.status == Rejected)
    requires RefuseNext(env, previous, review).None?
    ensures previous.status == Pending && review.reviewedBy.Some? && review.reviewedAt.Some?
    ensures review.submittedAt <= review.reviewedAt.value
  {
    hide Resolve;
  }

  lemma VerdictPasses(env: Environment, previous: Review, review: Review)
    requires ValidReview(previous) && ValidReview(review) && (review.status == Approved || review.status == Rejected)
    requires Continues(env, previous, review)
    ensures Resolve(env.parse, previous, previous.proposal, review.reviewedBy.value, review.status == Approved,
                    review.reason, review.reviewedAt.value) == Ok(review)
  {
    ReasonIsFixed(review);
  }

  lemma SupersessionIsStoredWhen(env: Environment, previous: Review, review: Review)
    requires ValidReview(previous) && ValidReview(review) && review.status == Superseded
    ensures RefuseNext(env, previous, review).None? <==> Continues(env, previous, review)
  {
    ReasonIsFixed(previous);
    hide ValidProposal, Blank, Strip, NormalizedReason, RequireUuid, Resolve;
  }

  /** A later revision is stored exactly when it continues the one before it. */
  lemma NextIsStoredWhen(env: Environment, previous: Review, review: Review)
    requires ValidReview(previous) && ValidReview(review)
    ensures RefuseNext(env, previous, review).None? <==> Continues(env, previous, review)
  {
    hide ValidReview, RefuseNext, Continues;
    match review.status {
      case Pending => NothingReturnsToPending(env, previous, review);
      case Approved => VerdictIsStoredWhen(env, previous, review);
      case Rejected => VerdictIsStoredWhen(env, previous, review);
      case Superseded => SupersessionIsStoredWhen(env, previous, review);
    }
  }

  lemma NothingReturnsToPending(env: Environment, previous: Review, review: Review)
    requires ValidReview(review) && review.status == Pending
    ensures RefuseNext(env, previous, review).Some? && !Continues(env, previous, review)
  {
  }

  /** The request may be stored next: well-formed, of the review's next revision, and opening or continuing it. */
  ghost predicate Storable(env: Environment, rows: seq<Row>, q: Request) {
    var h := History(rows, q.review.reviewId);
    && !Blank(q.key) && IsDigest(q.fingerprint) && (forall row | row in rows :: row.key != q.key)
    && (if |h| == 0 then q.expected.None? && Opening(env, q.review)
        else q.expected == Some(|h|) && Continues(env, h[|h| - 1].review, q.review))
  }

  /** Alone, an append is answered with a new row exactly when that row may be stored: the review's next revision, at
      the end of the table; a used key is answered with the row it stored if the request repeats it, and as a conflict
      if it does not; everything else changes nothing. */
  lemma AppendAnswers(env: Environment, rows: seq<Row>, q: Request)
    requires Journal(env, rows) && ValidReview(q.review)
    ensures var r, rows', h := AppendOutcome(env, rows, q), AppendRows(env, rows, q), History(rows, q.review.reviewId);
      && (rows' != rows <==> Storable(env, rows, q))
      && (Storable(env, rows, q) ==>
            r == Ok((q.review, |h| + 1)) && rows' == rows + [Row(q.review, |h| + 1, q.key, q.fingerprint)])
      && (r.Ok? && rows' == rows ==>
            exists row :: row in rows && row.key == q.key && row.fingerprint == q.fingerprint && row.review == q.review
                          && r.value == (row.review, row.revision))
      && (r == Err(IdempotencyConflict) ==>
            exists row :: row in rows && row.key == q.key
                          && (row.fingerprint != q.fingerprint || row.review != q.review))
  {
    hide Journal, Refuse, ValidReview, IsDigest, Blank, Opening, Continues, ByKey, Latest;
    ByKeyFinds(rows, q.key);
    assert ByKey(rows, q.key).Some? ==> ByKey(rows, q.key).value in rows;
    LatestOfJournal(env, rows, q.review.reviewId);
    RefusedUnless(env, rows, q);
    assert rows + [RowFor(q, NextRevision(Latest(rows, q.review.reviewId)))] != rows;
  }

  lemma LatestOfJournal(env: Environment, rows: seq<Row>, id: string)
    requires Journal(env, rows)
    ensures var h := History(rows, id);
      Latest(rows, id) == (if |h| == 0 then None else Some(h[|h| - 1]))
      && (|h| > 0 ==> h[|h| - 1].revision == |h| && ValidReview(h[|h| - 1].review))
  {
    assert Legal(env, History(rows, id));
    hide Legal, Journal, ValidReview, Latest;
    LatestIsLast(env, rows, id);
    StoryOfAReview(env, rows, id);
  }

  lemma RefusedUnless(env: Environment, rows: seq<Row>, q: Request)
    requires Journal(env, rows) && ValidReview(q.review)
    ensures var h := History(rows, q.review.reviewId);
      Refuse(env, Latest(rows, q.review.reviewId), q.review).None?
      <==> if |h| == 0 then Opening(env, q.review) else Continues(env, h[|h| - 1].review, q.review)
  {
    hide Journal, ValidReview, Opening, Continues, Latest, RefuseFirst, RefuseNext;
    LatestOfJournal(env, rows, q.review.reviewId);
    var h := History(rows, q.review.reviewId);
    if |h| == 0 { FirstIsStoredWhen(env, q.review); } else { NextIsStoredWhen(env, h[|h| - 1].review, q.review); }
  }
}
