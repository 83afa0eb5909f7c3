/** Finance reviews and the policy that moves them
    (data/domain/finance.py, services/policy/finance_review.py).
    Money is in cents; time is an integer. */
module FinancePolicy {
  import opened Basics
  import opened PythonText

  datatype IdentityOrigin = Entra | Elsewhere

  datatype Identity = Identity(
    persona: string, source: string, origin: IdentityOrigin, roles: seq<string>,
    tenant: Option<string>, object': Option<string>)

  datatype Proposal = Proposal(caseId: string, analysisId: string, materialHash: string, optionId: string, cost: int)

  datatype Status = Pending | Approved | Rejected | Superseded

  datatype Review = Review(
    reviewId: string, proposal: Proposal, submittedBy: Identity, submittedAt: int, status: Status,
    reviewedBy: Option<Identity>, reviewedAt: Option<int>, reason: Option<string>, supersededAt: Option<int>)

  datatype Violation =
    | NotAuthorized | InvalidUuid | BlankReviewId | ReviewNotRequired
    | DifferentTenant | SamePerson | NotPending | ProposalChanged | BeforeSubmission | MissingReason
    | BeforeHistory | InvalidModel

  /** `uuid.UUID` on a nonempty text; None where it raises. */
  type UuidParser = string -> Option<nat>

  const THRESHOLD := 2_000_000

  const MAX_REASON := 4000

  predicate RequiresFinanceApproval(cost: int) { cost > THRESHOLD }

  // --- The validated models ----------------------------------------------------

  predicate ValidProposal(p: Proposal) {
    !Blank(p.caseId) && !Blank(p.analysisId) && !Blank(p.optionId) && IsDigest(p.materialHash) && p.cost >= 0
  }

  /** `FinanceReview.validate_state` and the field validators. */
  predicate ValidReview(r: Review) {
    && !Blank(r.reviewId) && ValidProposal(r.proposal)
    && (r.reviewedBy.None? <==> r.reviewedAt.None?)
    && (r.reviewedAt.Some? ==> r.reviewedAt.value >= r.submittedAt)
    && (r.supersededAt.Some? ==> r.supersededAt.value >= r.submittedAt)
    && (r.supersededAt.Some? && r.reviewedAt.Some? ==> r.supersededAt.value >= r.reviewedAt.value)
    && (r.reason.Some? ==>
          && r.reviewedBy.Some? && r.reason.value != "" && Stripped(r.reason.value) && |r.reason.value| <= MAX_REASON)
    && match r.status
       case Pending => r.reviewedBy.None? && r.reason.None? && r.supersededAt.None?
       case Approved => r.reviewedBy.Some? && r.supersededAt.None?
       case Rejected => r.reviewedBy.Some? && r.supersededAt.None? && r.reason.Some?
       case Superseded => r.supersededAt.Some?
  }

  function NormalizedReason(reason: Option<string>): Option<string> {
    if reason.Some? && !Blank(reason.value) then Some(Strip(reason.value)) else None
  }

  /** `model_validate`: the reason is normalised, then everything is checked. */
  function Validated(r: Review): Result<Review, Violation> {
    var normal := r.(reason := NormalizedReason(r.reason));
    if r.reason.Some? && |r.reason.value| > MAX_REASON then Err(InvalidModel)
    else if ValidReview(normal) then Ok(normal) else Err(InvalidModel)
  }

  // --- Who may act --------------------------------------------------------------

  function RequireUuid(parse: UuidParser, text: Option<string>): Option<nat> {
    if text.None? || text.value == "" then None else parse(text.value)
  }

  function RequireActor(parse: UuidParser, actor: Identity, persona: string, source: string, roles: seq<string>)
    : Result<(nat, nat), Violation>
  {
    if actor.persona != persona || actor.source != source || actor.origin != Entra || actor.roles != roles then
      Err(NotAuthorized)
    else
      var tenant, person := RequireUuid(parse, actor.tenant), RequireUuid(parse, actor.object');
      if tenant.None? || person.None? then Err(InvalidUuid) else Ok((tenant.value, person.value))
  }

  function RequireSubmitter(parse: UuidParser, actor: Identity): Result<(nat, nat), Violation> {
    RequireActor(parse, actor, "RL-PERSONA-ALEX", "RL-ENTRA-ALEX", ["material_planner", "response_approver"])
  }

  function RequireReviewer(parse: UuidParser, actor: Identity): Result<(nat, nat), Violation> {
    RequireActor(parse, actor, "RL-PERSONA-TAYLOR", "RL-ENTRA-TAYLOR", ["finance_approver"])
  }

  // --- The three transitions ------------------------------------------------------

  function Submit(parse: UuidParser, reviewId: string, proposal: Proposal, actor: Identity, now: int)
    : Result<Review, Violation>
  {
    var who := RequireSubmitter(parse, actor);
    if who.Err? then Err(who.error)
    else if Blank(reviewId) then Err(BlankReviewId)
    else if !RequiresFinanceApproval(proposal.cost) then Err(ReviewNotRequired)
    else Validated(Review(reviewId, proposal, actor, now, Pending, None, None, None, None))
  }

  function Resolve(parse: UuidParser, review: Review, current: Proposal, actor: Identity, approved: bool,
                   reason: Option<string>, now: int): Result<Review, Violation>
  {
    var who := RequireReviewer(parse, actor);
    var tenant := RequireUuid(parse, review.submittedBy.tenant);
    var person := RequireUuid(parse, review.submittedBy.object');
    var stripped := if reason.Some? then Some(Strip(reason.value)) else None;
    if who.Err? then Err(who.error)
    else if tenant.None? || person.None? then Err(InvalidUuid)
    else if who.value.0 != tenant.value then Err(DifferentTenant)
    else if who.value.1 == person.value then Err(SamePerson)
    else if review.status != Pending then Err(NotPending)
    else if review.proposal != current then Err(ProposalChanged)
    else if now < review.submittedAt then Err(BeforeSubmission)
    else if !approved && (stripped.None? || stripped.value == "") then Err(MissingReason)
    else
      Validated(review.(status := if approved then Approved else Rejected,
                        reviewedBy := Some(actor), reviewedAt := Some(now), reason := stripped))
  }

  function Supersede(review: Review, now: int): Result<Review, Violation> {
    if now < review.submittedAt || (review.reviewedAt.Some? && now < review.reviewedAt.value) then Err(BeforeHistory)
    else if review.status == Superseded then Ok(review)
    else Validated(review.(status := Superseded, supersededAt := Some(now)))
  }

  // --- What the transitions guarantee ----------------------------------------------

  /** Two identities in one tenant that are not the same person, by their UUIDs. */
  predicate FourEyes(parse: UuidParser, a: Identity, b: Identity) {
    var ta, tb := RequireUuid(parse, a.tenant), RequireUuid(parse, b.tenant);
    var pa, pb := RequireUuid(parse, a.object'), RequireUuid(parse, b.object');
    ta.Some? && pa.Some? && pb.Some? && ta == tb && pa != pb
  }

  /** On a valid review the policy's own checks imply the model's: the only model error left is a
      reason that is too long. */
  lemma ResolutionIsValid(parse: UuidParser, review: Review, current: Proposal, actor: Identity, approved: bool,
                          reason: Option<string>, now: int)
    requires ValidReview(review)
    ensures var r := Resolve(parse, review, current, actor, approved, reason, now);
      && (r.Ok? ==> ValidReview(r.value) && FourEyes(parse, actor, review.submittedBy))
      && (r == Err(InvalidModel) ==> reason.Some? && |Strip(reason.value)| > MAX_REASON)
  {
    if reason.Some? {
      StripStrips(reason.value);
      StripStrips(Strip(reason.value));
      StrippedIsFixed(Strip(reason.value));
    }
  }

  /** Superseding a valid review never fails the model, and keeps the verdict it found. */
  lemma SupersessionIsValid(review: Review, now: int)
    requires ValidReview(review)
    ensures var r := Supersede(review, now);
      && r != Err(InvalidModel)
      && (r.Ok? ==> ValidReview(r.value) && r.value.status == Superseded
                    && r.value.reviewedBy == review.reviewedBy && r.value.reviewedAt == review.reviewedAt
                    && r.value.reason == review.reason && r.value.proposal == review.proposal)
  {
    if review.reason.Some? {
      StripStrips(review.reason.value);
      StrippedIsFixed(review.reason.value);
    }
  }
}
