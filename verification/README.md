# Supply response: a verified model

This project models the deterministic core of a supply-disruption response system and proves what that core
promises. `dafny verify dfyconfig.toml` checks all of it.

- `Supply`, `SupplyLaws`, `Exposure`, `ExposureCalculation`, `ExposureLaws`, `ExposureReport`: the greedy dated
  allocator, the backlogged inventory projection and the exposure calculation, why these independently written analyses
  agree, and what the calculation reports as sums and selections of its inputs.
- `SnapshotLaws`: where these two start from different stocks, and exactly when they still agree.
- `ResponseOptions`, `OutcomeLaws`, `OptionLaws`: the predicted outcomes of the response options, what they say about the
  orders, and exactly when each option is available.
- `Ranking`, `RankingLaws`, `RankingPolicy`, `RankingRecord`: the thresholded lexicographic recommendation, its
  choice-theoretic properties, its policy on the options' own numbers, and what it records.
- `AnalysisMaterial`, `AnalysisMaterialLaws`, `AnalysisLaws`: evidence and approval feasibility, the canonical material,
  which keeps no trace of the order its inputs arrived in, and exactly when an option is recorded as executable.
- `FinancePolicy`, `FinanceJournal`, `JournalLaws`, `FinanceWriters`: the review policy, the append-only journal with
  idempotent replay, exactly what it stores, and its concurrent writers.
- `FinanceDecisions`, `FinanceDecisionLaws`, `VerdictLaws`, `CommitLaws`: submitting, reviewing and finalizing a proposal
  under one optimistic token, what becomes of a verdict, and exactly when each command commits and what it records.
- `Retention`, `RetentionLaws`, `RetentionPlan`: the ordered cascade of deletes, its preview and its application.
- `Execution`, `ExecutionLaws`, `Resumption`, `Playback`: the life of an execution action, and a playback that may be cut
  anywhere.
- `Mail`, `MailLaws`, `MailAnswers`: editing, reviewing and sending the supplier email with the provider call outside the
  transaction, and what the provider's answers lead to.
- `JsonReferences`, `SchemaClosure`: the vendored schema catalog's check and refresh.
- `Locations`, `LocatorForms`, `JsonDepth`: the message locator's parser and printer, the texts they read and write, and
  the nesting check before JSON is parsed.
- `Ordering` (with `Basics`) and `PythonText` hold what the others share: sorting as Python does it, and the notions
  of Python's `str`.

The specification functions that the methods are proved against are themselves pinned down: the `...Laws`, `...Report`,
`...Policy`, `...Record`, `...Answers` and `...Forms` modules state what they mean on the inputs' own fields, with the
numbers and texts written out, and without naming the function that computes them.

## Conventions

Money is in integer cents and time is an integer. A raised exception is an `Err` or a `None`. Tables are sequences of
rows with their uniqueness and reference constraints, and a transaction either commits or changes nothing. Concurrency
is a step system: a run is a schedule that says who moves next, and theorems about runs hold for every schedule.
Where reading and writing are separate steps in the source, they are separate steps here, and other actors may move
between them. A mutable component is a class whose methods are proved against specification functions; the theorems
are about those functions.

What a component calls but does not define is a parameter, constrained only where a lemma says so: the evidence
evaluator, UUID parsing, the decomposition of a URL's network location, URL joining and the approved-origin check, the
JSON parser behind the nesting check, authorization conditions on the case, hashes, clocks and fresh identifiers.

Four places where the code does something a reader might not expect, each stated by a lemma:

- The snapshot's usable inventory is not clamped at zero while the exposure calculation's is. The allocator misses what
  the exposure calculation reports if and only if no relevant position holds back more than it has, or demand never runs
  ahead of stock and supply (`SnapshotLaws.SnapshotAgreesWithExposure`; `SnapshotLaws.HeldStockSeparatesTheViews` gives
  positions for which the one says 1 and the other 11).
- The allocator out of due order, as by priority, may mark an order on time that is served from supply arriving after
  its due date. It is on time for all stocks, supplies and quantities if and only if the due dates it processes do not
  decrease (`SupplyLaws.OnTimeNeedsDueOrder`).
- A copy of a Finance request that is overtaken between its key lookup and its revision read is told of a revision
  conflict instead of the stored review (`FinanceWriters.LaterAnswersNeedTheKeyUnused` says exactly when).
- An accepted locator can print to a path that the parser rejects for its length (`Locations.SomePathsAreTooLong`;
  `Locations.RoundTrip` says exactly when).

## Model

| member | source | states |
|---|---|---|
| Supply.TotalByDate | services/analysis/exposure.py:38-40 | the per-day totals of a list of dated quantities: exactly its dates, each with the sum of that day |
| Supply.Receive | services/analysis/exposure.py:47-50 | receives exactly the days up to the due date that were not received before, each with its whole total, whatever was received already |
| Supply.AllocateComponentSupply | services/analysis/exposure.py:26-69 | serves the orders in the caller's order as the dated plan prescribes: per order what is allocated, missed and on time, the total missed, and the error naming the first order without demand |
| SupplyLaws.Conservation | services/analysis/exposure.py:46-69 | after every order, allocated plus missed equals demanded, and stock plus receipts equals allocated plus left over |
| SupplyLaws.ReflectionIdentity | services/analysis/exposure.py:46-69 | the total missed by the lost-sales greedy is the running maximum of demand minus stock minus arrived supply, never below zero, for any processing order and any quantities |
| SupplyLaws.GreedyIsTimeFeasible | services/analysis/exposure.py:46-69 | in due order every prefix is served only from supply that had arrived by its due date, exactly when the stock and the arrivals by the first due date are not negative together; a stock that is not negative is enough |
| SupplyLaws.GreedyIsFeasibleIfAnyIs | services/analysis/exposure.py:46-69 | in due order the greedy is on time whenever any allocation of the same supply is |
| SupplyLaws.GreedyIsOptimal | services/analysis/exposure.py:46-69 | in due order no time-feasible allocation misses fewer units, after any number of orders |
| SupplyLaws.OnTimeNeedsDueOrder | services/analysis/options.py:59-76 | for every list of due dates: the greedy is on time for all stocks, supplies and quantities that are not negative if and only if it processes the demands in due order, and in every other order it marks some order full and on time for which nothing was in stock or had arrived by its due date |
| SupplyLaws.PriorityOrderMayServeLate | services/analysis/exposure.py:46-50 | an example of that: an order due on day 1 is marked on time from what arrives on day 10 |
| SupplyLaws.AffectedIsShortfall | services/exposure/calculator.py:133-141 | in due order an order is affected exactly when its prefix falls short, and unprotected exactly when it falls short of what was already missed |
| SupplyLaws.ExposureAndAllocationAgree | services/exposure/calculator.py:120-141 | unprotected implies affected; the first affected order is the first unprotected one; one set is empty exactly when the other is |
| SupplyLaws.MoreSupplyProtectsMore | services/analysis/exposure.py:46-69 | for any processing order, extra non-negative dated supply never un-protects an order and never raises what is missed |
| Exposure.ProjectInventory | services/exposure/calculator.py:27-57 | one point per distinct date in ascending order, with that day's receipts, transfers, demand and the running balance of everything up to that day |
| Exposure.ReadStockouts | services/exposure/calculator.py:112-118 | the first date with a negative balance and the largest shortage, none and zero when no balance is negative |
| Exposure.ComponentDemandForPart | services/exposure/calculator.py:60-79 | the demand of the orders of the plant whose product uses the part, at the summed quantity per product, in the orders' order |
| Exposure.DayByDayIsDueOrder | services/exposure/calculator.py:129-141 | visiting the days in order and each day's orders by id is visiting all orders by (due date, id) |
| ExposureCalculation.GroupByDueDate | services/exposure/calculator.py:129-132 | groups the orders that have demand by their due date, keeping the listed order within a day |
| ExposureCalculation.AffectedOrders | services/exposure/calculator.py:120-141 | the affected orders are those of the dated plan in (due date, id) order whose running balance is below their need |
| ExposureCalculation.CalculateExposure | services/exposure/calculator.py:82-177 | the usable stock, the projection, first stock-out and largest shortage, the affected orders, customer lines and their count, the money at risk, the sorted source ids, and what is passed through, as functions of the inputs |
| Ordering.SortedSetSorts | services/exposure/calculator.py:150-155 | a sorted set lists each element once, in order |
| Ordering.StrLeIsLexicographic | services/analysis/service.py:196-209 | texts are ordered by their first different character, and a beginning before the whole, as Python orders them |
| ExposureLaws.ArrivedPermutation | services/exposure/calculator.py:37-42 | what has arrived by a day does not depend on the order the quantities are listed in |
| ExposureLaws.ShortageFormula | services/exposure/calculator.py:109-118 | the worst projected shortage is the larger of what the greedy misses and minus the balance on the first dated day, for every stock |
| ExposureLaws.GreedyMissIsMaximumShortage | services/exposure/calculator.py:109-118 | from one starting stock the units the greedy misses equal the projection's maximum shortage exactly when the first dated day ends without a deficit or some later backlog is as large; always so for the clamped stock the calculation projects from |
| ExposureLaws.DueNeedsArePermutedDemand | services/exposure/calculator.py:120-138 | the needs visited by the exposure loop are the part's demand rearranged by (due date, id) |
| ExposureLaws.AffectedListsAgree | services/exposure/calculator.py:133-141 | every unprotected order is listed as affected, the first of both lists coincides, and both are empty exactly when nothing is missed |
| ExposureLaws.ExposureAgreesWithAllocation | services/exposure/calculator.py:82-177 | from any positions, receipts, bill of materials and orders with distinct ids: the reported maximum shortage is what the allocator misses from the usable inventory on the same demands, and its affected orders relate to the unprotected ones as above |
| SnapshotLaws.SnapshotMissesAsUsable | data/synthetic/rl001.py:49-54 | for all positions, supply and demands, in any processing order: the allocator misses from the snapshot's unclamped stock what it misses from the clamped one if and only if no relevant position holds back more than it has, or demand never runs ahead of stock and supply |
| SnapshotLaws.SnapshotAgreesWithExposure | services/exposure/calculator.py:98-118 | from the snapshot's stock the misses are the maximum shortage that the exposure calculation reports exactly under that condition, and then the same orders are unprotected |
| SnapshotLaws.OutcomeAgreesWithExposure | services/analysis/options.py:51-76 | end to end: a predicted outcome's uncovered demand in due order is the reported maximum shortage exactly under that condition, for orders that carry the demands of the bill of materials |
| SnapshotLaws.HeldStockSeparatesTheViews | services/exposure/calculator.py:21-24 | ten units held where none are on hand and one needed: the exposure calculation reports a shortage of one, the allocator misses eleven |
| ExposureReport.UsableIs | services/exposure/calculator.py:21-24 | the usable inventory is the sum of on-hand less held less protected, none below zero, over the part's positions at the plant |
| ExposureReport.QuantityPerIs | services/exposure/calculator.py:60-79 | how much of the part a unit of a product takes: the sum over the matching lines of the bill of materials |
| ExposureReport.PartDemandIs | services/exposure/calculator.py:60-79 | the demand: for each of the plant's orders whose product takes any of the part, in turn, its quantity times what it takes, at its due date, under its id |
| ExposureReport.ProjectedAre | services/exposure/calculator.py:27-57 | one point for each day with an event, in order; its balance is the opening stock plus the sums of receipts and transfers minus the sum of demand dated up to that day |
| ExposureReport.DatedSums | services/exposure/calculator.py:37-42 | what is dated up to a day, and on it, as sums over the items |
| ExposureReport.FirstStockoutIs | services/exposure/calculator.py:112-114 | the first stock-out is the date of the first point with a negative balance, none if there is none |
| ExposureReport.AffectedAre | services/exposure/calculator.py:133-141 | an order is affected exactly when what has arrived by its due date, less what the orders before it need, is less than it needs |
| ExposureReport.NeedsInTurn | services/exposure/calculator.py:129-141 | the orders before an order are those due earlier, or the same day with an id not after its own |
| ExposureReport.DemandedIs | services/exposure/calculator.py:133-141 | what the orders before an order need is the sum of their quantities |
| ExposureReport.LinesAre | services/exposure/calculator.py:143-145 | the customer lines at risk are those of the affected orders, in listed order |
| ExposureReport.MoneyIs | services/exposure/calculator.py:146-149 | revenue at risk is the sum of each such line's revenue per unit times its quantity, margin at risk likewise with its margin |
| ExposureReport.LineageIs | services/exposure/calculator.py:150-155 | the sources named are the part's positions at the plant and everything dated, each once, in order |
| ResponseOptions.CalculateInterventionOutcome | services/analysis/options.py:51-97 | the predicted outcome of serving the scheduled orders, or the error of the first thing that fails: mixed priorities, a missing demand, no orders, a missing amount |
| ResponseOptions.RiskShrinks | services/analysis/options.py:83-90 | an allocation that protects at least the same orders protects at least as many and leaves no more money at risk |
| ResponseOptions.ExtraSupplyIsNoWorse | services/analysis/options.py:51-97 | for a fixed order sequence extra supply keeps the outcome defined and raises none of uncovered demand, OTIF loss, revenue or margin at risk |
| ResponseOptions.OptionsThatAddSupplyAreNoWorse | services/analysis/options.py:254-287 | expedite and transfer are never worse than no mitigation, nor the combination worse than resequencing, on the four measures |
| OutcomeLaws.ScheduleIs | services/analysis/options.py:59-68 | the processing order holds the snapshot's orders, by due date and id or by priority, smaller numbers first, and id |
| OutcomeLaws.OutcomeMeans | services/analysis/options.py:69-97 | a predicted outcome says: all the units missed; how many in a hundred orders are late, rounded down; the sum of the revenues of exactly the late orders, and of their margins; the given cost; the customer orders of exactly the others, in order |
| OutcomeLaws.OutcomeExists | services/analysis/options.py:51-97 | there is an outcome exactly when every order's demand is known, there is an order, and each late one's revenue and margin are known |
| OutcomeLaws.ChoiceIsServed | services/analysis/options.py:254-287 | each choice is served from the free units of the disrupted part plus the offered shipment, the transfer, both or neither, by due date or by priority, at the quantities moved times their unit costs |
| OutcomeLaws.StockIsFreeUnits | data/synthetic/rl001.py:49-54 | the snapshot's usable inventory is the sum of on-hand less held less protected over the part's positions at the plant |
| OptionLaws.ReorderingMatters | services/analysis/options.py:148-163 | the order by priority differs from the order by due date if and only if some two orders are due one way round and more urgent the other |
| OptionLaws.OptionIsAvailable | services/analysis/options.py:290-496 | before any evidence an option is executable exactly when it is available: a shipment offered, the transfer's quantity free at its source, two orders inverted, the source qualified, as its kind needs; no mitigation never is; it carries exactly the codes that say why not |
| OptionLaws.OptionIsWeighed | services/analysis/options.py:24-43 | the roles an option needs, Finance only for an expedited one above 20,000 USD, how many they are, and its execution risk |
| OptionLaws.OptionNeedsEvidence | services/analysis/options.py:290-496 | the evidence an option needs: the offer and the transfer for quantity and date, the qualification for its state |
| OptionLaws.OptionCites | services/analysis/options.py:182-209 | what an option is based on: the disruption, the disrupted part's positions, every order, and what its choice draws on |
| OptionLaws.OptionsAre | services/analysis/options.py:290-496 | one option of each kind, in order, with its own predicted outcome; the alternate source's is the baseline's |
| Ranking.RetainKeeps | services/analysis/ranking.py:97-102 | a stage keeps some of its input and, if numeric, exactly the options within the threshold of its best |
| Ranking.StageDivides | services/analysis/ranking.py:107-122 | a recorded stage's retained and eliminated ids divide its input ids, and its values follow them |
| Ranking.OneSurvivor | services/analysis/ranking.py:84-125 | all eight stages leave exactly one option, one of the eligible ones |
| Ranking.Choose | services/analysis/ranking.py:84-125 | the loop that stops at a single survivor records the stages up to there and recommends what all eight stages would |
| Ranking.RankOptions | services/analysis/ranking.py:38-135 | refuses repeated ids and otherwise returns the ranking as a function of the options |
| RankingLaws.RecommendationIsEligible | services/analysis/ranking.py:59-82 | a recommendation exists exactly when some option is eligible, and is one of those |
| RankingPolicy.RecommendationIsLeftLast | services/analysis/ranking.py:18-27 | the recommendation is the first by id of what seven comparisons leave, one after another, on the options' own numbers: uncovered demand within 500 units of the least, OTIF loss within 10 points, revenue at risk within 50,000 USD, margin within 25,000 USD, cost within 10,000 USD, approval burden and execution risk exactly; none exactly when no mitigation is executable, predicted and unblocked |
| RankingPolicy.StagesAreComparisons | services/analysis/ranking.py:84-125 | after n stages exactly the options that the first n of these comparisons leave are still there |
| RankingPolicy.RecommendedCoversDemand | services/analysis/ranking.py:59-135 | the recommendation's uncovered demand is within 500 units of every eligible option's, whatever they cost |
| RankingPolicy.AloneOnDemandIsRecommended | services/analysis/ranking.py:84-125 | an eligible option that alone comes within 500 units of the least uncovered demand is recommended, whatever it costs |
| RankingPolicy.StagesFollowThePolicy | services/analysis/ranking.py:84-125 | the recorded stages name the policy's comparators and thresholds in order, the first takes the eligible options, each later one what the one before retained |
| RankingRecord.ListsAre | services/analysis/ranking.py:44-83 | which options are left aside as baselines and as infeasible and which compete, by their own fields, in order of their ids; nothing is compared if none competes |
| RankingRecord.StagesRecordTheComparisons | services/analysis/ranking.py:84-125 | each recorded numeric stage took what the comparisons before it left, each option with its own number, kept what it leaves itself and dropped the rest; comparing stops as soon as one option is left |
| RankingLaws.RankingForgetsOrder | services/analysis/ranking.py:44-72 | listing the options in another order changes no part of the ranking |
| RankingLaws.DominatorSurvives | services/analysis/ranking.py:85-125 | an option no worse than the winner on every number passes every numeric stage |
| RankingLaws.DominatorLosesOnlyById | services/analysis/ranking.py:84-135 | an eligible option no worse than the recommendation on all seven numbers ties on burden and risk, lies within every other threshold, and can lose only by its id |
| RankingLaws.IrrelevantAlternative | services/analysis/ranking.py:59-135 | removing an eligible option that is not recommended and never alone sets a stage's minimum leaves the recommendation unchanged |
| AnalysisMaterialLaws.EvidenceDecides | services/analysis/service.py:318-361 | after the evidence an option is executable exactly when it was, nothing blocked it, nothing blocks mitigations as a whole and every requirement's evidence is there, unblocked, undisputed, authoritative and of the required scope; it carries each reason against it once, and no other |
| AnalysisMaterial.ApplyEvidenceFeasibility | services/analysis/service.py:311-360 | every option's codes grow by the global and required evidence codes, each once, and it stays executable only without any |
| AnalysisMaterial.BuildMaterial | services/analysis/service.py:196-292 | the whole material on canonically ordered inputs: evidence, options after evidence and approvals, satisfactions and ranking |
| AnalysisMaterialLaws.RecommendationsAreSupported | services/analysis/service.py:196-292 | in every analysis each option recorded as executable is unblocked, has its evidence met and the quality approval it needs; there is a recommendation exactly when some recorded option is eligible, and it is one of those (AnalysisLaws.ExecutableExactlyWhen adds the availability, both ways) |
| AnalysisLaws.ExecutableExactlyWhen | services/analysis/service.py:196-292 | in every analysis an option is recorded as executable if and only if its choice is available on the snapshot (the transfer's quantity is free at its source, a shipment is offered, two orders are inverted, the source is qualified, as its kind needs), nothing is held against mitigations as a whole, each piece of its evidence is met and, for the alternate source, Jordan approves |
| AnalysisLaws.EveryChoiceIsRecorded | services/analysis/service.py:255-258 | an analysis records one option for each of the six choices: its id, outcome, roles, evidence, sources, burden and risk, whether it may be executed and exactly the codes that say why not |
| AnalysisLaws.ApprovalsAreRecorded | services/analysis/service.py:363-390 | the approvals recorded are exactly those that a standing authorization of the case gives a choice: it applies, names the choice and the role it needs, allows its cost; a quality approver's only if Jordan's, a Finance approver's only in a legacy case |
| AnalysisLaws.AnalysisSucceedsWhen | services/analysis/service.py:160-194 | there is an analysis if and only if every option has its outcome, it is not created before it started, no two items of a kind share an id, all of it belongs to the case, and the evaluator answered for all the evidence |
| AnalysisLaws.MaterialHolds | services/analysis/service.py:236-292 | the material names the case and holds the command's snapshot, evidence with its own validations, conflicts, resolutions, required scopes and the standing authorizations that count, each in order of its ids, with sets sorted; its validation is the evaluator's answer on these |
| AnalysisLaws.RecordIsOrdered | services/analysis/service.py:255-283 | the options are recorded in order of their ids, the approvals by option, role, person and authorization, and the ranking is that of options that agree with the recorded ones in all that ranking looks at |
| AnalysisLaws.ValidationIsLast | services/analysis/service.py:244-246 | the validation of an id is the last one listed for it |
| AnalysisLaws.ObjectionsAre | services/analysis/service.py:318-350 | which codes hold a piece of evidence against an option, and that it is met exactly when none does |
| AnalysisMaterialLaws.SortedByIdForgetsOrder | services/analysis/service.py:196-209 | sorting by a unique id forgets the order of arrival |
| AnalysisMaterialLaws.SortedSetForgetsOrder | data/domain/analysis.py:367-379 | a sorted set of texts depends only on which texts occur |
| AnalysisMaterialLaws.ScheduleForgetsOrder | services/analysis/options.py:59-68 | the processing order of production orders with distinct ids does not depend on how they are listed |
| AnalysisMaterialLaws.OptionsForgetOrder | services/analysis/options.py:290-496 | reordering the snapshot changes nothing in the options but the order of their lineage |
| AnalysisMaterialLaws.AlikeRanking | services/analysis/ranking.py:38-135 | options that differ in the order of their lineage only are ranked identically |
| AnalysisMaterialLaws.RefusalForgetsOrder | services/analysis/service.py:160-194 | the checks refuse a reordered command for the same reason |
| AnalysisMaterialLaws.AnalysisForgetsOrder | services/analysis/service.py:118-131 | reordering evidence, conflicts, resolutions, authorizations, scopes and the snapshot's collections leaves the whole material identical |
| FinancePolicy.ResolutionIsValid | services/policy/finance_review.py:72-116 | a resolution of a valid review is valid and by another person of the same tenant; the only model error it can raise is a reason that is too long (VerdictLaws ties its verdict to the command's) |
| FinancePolicy.SupersessionIsValid | services/policy/finance_review.py:119-131 | superseding a valid review never fails the model and keeps its verdict and proposal |
| FinanceJournal.FinanceReviewRepository.GetByIdempotencyKey | services/persistence/finance_reviews.py:173-188 | the row with the key, if there is one |
| FinanceJournal.FinanceReviewRepository.GetLatest | services/persistence/finance_reviews.py:139-152 | the row of the highest revision, which is the last of the review's history and numbered by its length |
| FinanceJournal.FinanceReviewRepository.Append | services/persistence/finance_reviews.py:190-318 | answers and stores what the append specification says, keeps the journal a journal and only adds rows |
| FinanceJournal.LatestIsLast | services/persistence/finance_reviews.py:139-152 | in a legal history the highest revision is the one inserted last |
| FinanceJournal.AppendKeepsJournal | services/persistence/finance_reviews.py:190-318 | an append alone finds its slot free and keeps keys unique and every history legal |
| FinanceJournal.StoryOfAReview | services/persistence/finance_reviews.py:246-300 | revisions 1..n with n at most 3, a legal path of statuses, one proposal and submitter, a verdict by another person of the tenant that a supersession keeps, and times that never go back |
| FinanceJournal.ReplayReturnsTheOriginal | services/persistence/finance_reviews.py:208-215 | repeating a successful append, after anything else was appended, changes nothing and returns the original |
| JournalLaws.AppendAnswers | services/persistence/finance_reviews.py:190-318 | an append alone adds a row if and only if its arguments are well-formed, its key is unused, it expects the review's last revision, and the review opens or continues it; the row is the next revision; a used key is answered with the row it stored if the request repeats it and as a conflict if not; everything else changes nothing |
| JournalLaws.FirstIsStoredWhen | services/persistence/finance_reviews.py:230-262 | a first revision is stored exactly when it is pending, of a cost above 20,000 USD, submitted by Alex's persona and bound to its analysis |
| JournalLaws.NextIsStoredWhen | services/persistence/finance_reviews.py:263-300 | a later revision is stored exactly when it is a verdict on a pending review by another person of the tenant, or a supersession that keeps the verdict, of the same submission, in time, and bound to its analysis |
| FinanceWriters.EveryRunKeepsTheJournal | services/persistence/finance_reviews.py:190-359 | under every interleaving of writers the table is a journal and only grows |
| FinanceWriters.InsertIsAtomic | services/persistence/finance_reviews.py:301-318 | an insert that the uniqueness constraints admit is what the append alone would have done at that moment |
| FinanceWriters.EveryRunIsSequential | services/persistence/finance_reviews.py:321-359 | the table after any interleaving is that of the successful appends run alone in the order of their inserts |
| FinanceWriters.KeyAnswersAreAtomic | services/persistence/finance_reviews.py:340-348 | a writer told of a stored or inserted review, or of a key conflict, is told what it would have been told alone |
| FinanceWriters.LaterAnswersNeedTheKeyUnused | services/persistence/finance_reviews.py:216-223 | after the key was missed, the answer is the sequential one exactly when the key is still unused |
| FinanceWriters.OvertakenCopyIsToldConflict | services/persistence/finance_reviews.py:208-223 | two copies of one request: the one overtaken between its two reads is told of a revision conflict, where in sequence both would be told of the stored review |
| FinanceWriters.NoRunReraises | services/persistence/finance_reviews.py:349-359 | no run re-raises a uniqueness error: the recovery always explains it |
| FinanceDecisions.CaseRecords.SubmitSelection | services/finance/service.py:171-312 | replays a used key's stored selection and first review, refuses a reused key, or submits: the pending review, the selection and the advanced token; otherwise nothing changes |
| FinanceDecisions.CaseRecords.PublishSelection | services/persistence/proposals.py:355-417 | stores the selection, advances the token to it and supersedes the review left behind, or changes nothing |
| FinanceDecisions.CaseRecords.ResolvePending | services/finance/service.py:191-371 | replays a used key's stored resolution, refuses a reused key, or resolves the current pending review; otherwise nothing changes |
| FinanceDecisions.CaseRecords.FinalizeCurrent | services/finance/decisions.py:89-215 | replays a used key's stored decision, refuses a reused key, or approves or rejects; otherwise nothing changes |
| FinanceDecisions.CaseRecords.ApproveCurrent | services/finance/decisions.py:160-211 | records the decision and its outbox event and advances the token, or changes nothing |
| FinanceDecisions.CaseRecords.RejectCurrent | services/persistence/proposals.py:439-487 | records the rejection, withdraws the selection and supersedes its review, or changes nothing |
| VerdictLaws.CommittedVerdictIsRecorded | services/finance/service.py:326-371 | a committed resolution appends and answers one row: approved if and only if the command approves and rejected otherwise, with the stripped reason, the actor and the time of the command, and the review's next revision; nothing else changes but the token |
| VerdictLaws.EveryVerdictWasGiven | services/policy/finance_review.py:62-116 | in every run each stored approval was sent as one and each stored rejection as one, by a resolution that committed, of that review, by that reviewer, at that time |
| VerdictLaws.ExpensiveApprovalsWereVoted | data/domain/finance_decisions.py:40-82 | in every run an approved proposal above 20,000 USD had its review approved by a command of another person of the submitter's tenant that was sent as an approval, between submission and decision |
| VerdictLaws.VerdictCommitsWhen | services/finance/service.py:326-371 | in a sound state a verdict commits if and only if the configured reviewer gives it, under an unused key, on the current pending review at the expected token and revision, not before its submission, with a reason of at most 4000 characters that a rejection must have |
| CommitLaws.SubmissionCommitsWhen | services/finance/service.py:208-312 | a submission commits if and only if Alex sends it at the current token, for an option the current analysis prices, under an unused key, id and review, the review it needs can be opened, and the one it leaves behind superseded |
| CommitLaws.SubmissionRecords | services/persistence/proposals.py:355-417 | a committed submission records and selects the option at the analysis' own cost, opens a pending review exactly above 20,000 USD, supersedes the review it leaves behind, and touches no decision |
| CommitLaws.SubmissionIsAnswered | services/finance/service.py:181-191 | a committed submission is answered with the selection and its pending review |
| CommitLaws.ApprovalCommitsWhen | services/finance/decisions.py:123-215 | an approval commits if and only if Alex, authorized for that option, sends it at the current token, under an unused key and id, for a selection that is of the current analysis at its current cost, not ahead of time, not yet approved, and either costs at most 20,000 USD or stands approved by Taylor |
| CommitLaws.ApprovalRecords | services/finance/decisions.py:160-211 | a committed approval records and answers the decision on the current selection, with its review and revision exactly above 20,000 USD, and puts its event in the outbox; nothing else changes but the token |
| CommitLaws.RejectionCommitsWhen | services/finance/decisions.py:123-215 | a rejection commits if and only if Alex, authorized to, sends it at the current token, under an unused key and id, on an analysis, and the selection, if any, is not approved nor ahead of time and its review can be superseded |
| CommitLaws.RejectionRecords | services/persistence/proposals.py:439-487 | a committed rejection records and answers the decision, withdraws the selection, supersedes its review, and puts nothing in the outbox |
| CommitLaws.AnalysisCommitsWhen | services/persistence/store.py:778-806 | a new analysis is published exactly when the review it leaves behind can be superseded; it clears the selection, advances the token, supersedes that review and changes nothing else |
| CommitLaws.SupersedingIs | services/persistence/proposals.py:328-353 | the review left behind gets one more revision, superseded now and otherwise as it was, exactly when it is not superseded yet, nothing in it is ahead of time and the key is unused |
| CommitLaws.UsedKeysConflict | services/finance/service.py:171-206 | a key that a committed command used answers any other command of its kind with a conflict, whatever happened in between, and that command changes nothing |
| CommitLaws.ActorsAre | services/policy/finance_review.py:24-60 | Alex and Taylor are known by persona, source, provider, roles and the configured identifiers together |
| FinanceDecisionLaws.CommitsNeedTheToken | services/persistence/proposals.py:63-89 | whatever commits saw the token it finds and advances its generation by one |
| FinanceDecisionLaws.EveryRunIsSequential | services/finance/decisions.py:123-215 | every interleaving of clients that read first and commit later ends in the state that the operations of exactly the clients that committed, each once and in commit order, produce alone one after another; each of them commits there too |
| FinanceDecisionLaws.AskingAgainChangesNothing | services/finance/service.py:171-206 | a committed submission, resolution or finalization sent again, after any operations in between, is answered as the first time and changes nothing |
| FinanceDecisionLaws.AloneKeeps | services/finance/decisions.py:123-215 | every operation keeps the journal, the selections, the decisions and the outbox sound |
| FinanceDecisionLaws.ApprovalsAreJustified | data/domain/finance_decisions.py:40-82 | in every run each selection is approved at most once, and every approval is of a cost of at most 20000 or rests on a stored approved review of that proposal by another person of the tenant, with the times in order; one outbox event per approval |
| FinanceDecisionLaws.LatestKeepsTerms | services/persistence/proposals.py:212-222 | a selection's latest review has the selection's own proposal, submitter and time |
| FinanceDecisionLaws.EvidenceAvailability | services/finance/decisions.py:97-121 | evidence is available exactly for a cheap proposal or one whose latest review is Taylor's approval; the evidence model's further checks always hold |
| Retention.AggregateStore.Delete | services/persistence/presenter_runs.py:184-187 | removes exactly the targeted rows of one table and reports how many |
| Retention.AggregateStore.DeleteAggregates | services/persistence/presenter_runs.py:179-188 | runs the statements in order, each on the tables as it finds them, and reports every table's count; nothing happens without pruned cases |
| RetentionLaws.ParentsComeLater | services/persistence/presenter_runs.py:14-35 | the delete order follows the references: every parent's table comes after its child's, except a selection's own earlier selection |
| RetentionLaws.TargetsThePruned | services/persistence/presenter_runs.py:120-155 | in every state of the run a table's predicate selects exactly the rows of the pruned cases, although it queries tables the run empties |
| RetentionLaws.EveryStatementIsSafe | services/persistence/presenter_runs.py:171-176 | no delete removes a row that is still referred to, not even from within the same delete, and no reference dangles after any statement |
| RetentionLaws.ExactlyThePrunedGo | services/persistence/presenter_runs.py:179-188 | at the end exactly the pruned cases' rows are gone and every other row is as it was |
| RetentionLaws.CountsMatchPreview | services/persistence/presenter_runs.py:158-168 | the counts previewed on the original database are the counts of the deletes |
| RetentionLaws.WithoutTheUpdate | services/persistence/presenter_runs.py:174-175 | without the update the selections' delete would be refused exactly when a pruned selection was made over an earlier one |
| RetentionPlan.PresenterStore.CollectEligible | services/persistence/presenter_runs.py:88-99 | the eligible case ids in listed order, or none when a payload does not decode |
| RetentionPlan.PresenterStore.PlanRetention | services/persistence/presenter_runs.py:68-117 | the plan as a function of the tables, the current case and the limit, or the error |
| RetentionPlan.PresenterStore.ApplyRetention | services/persistence/store.py:592-613 | accepted exactly when planning again gives the plan; then exactly the planned counts and rows go; otherwise nothing changes |
| RetentionPlan.PreviewIsAccepted | services/persistence/store.py:592-605 | a preview applied to unchanged tables is planned again identically |
| RetentionPlan.PlanKeepsTheNewest | services/persistence/presenter_runs.py:100-111 | the plan keeps the newest eligible cases, one more than the limit, and prunes exactly the rest |
| RetentionPlan.PlanIsLatestFirst | services/persistence/presenter_runs.py:68-117 | every retained and every pruned id belong to rows of which the retained one was recorded later, or at the same time with an id not after the other's; and the retained ids are in that order |
| RetentionPlan.PlanAroundTheCurrent | services/persistence/presenter_runs.py:68-117 | an id is retained or pruned exactly when its row is considered: a live supplier-bound showcase case under its own id; a chosen current case comes first, and its others are ordered the same way |
| RetentionPlan.RetainingTwicePrunesNothing | services/persistence/presenter_runs.py:68-117 | after a plan is applied the retained cases are the eligible ones left, and planning again prunes nothing |
| Execution.ExecutionService.CreateAction | services/execution/worker.py:175-183 | creates as specified, returns an existing equal action unchanged, or refuses |
| Execution.ExecutionService.BeginAttempt | services/execution/worker.py:196-234 | the attempt, projection and event of one start or retry, or its refusal with nothing changed |
| Execution.ExecutionService.StartAction | services/execution/worker.py:236-240 | starts a planned action only, and returns the attempt that is now the ledger's last |
| Execution.ExecutionService.RetryAction | services/execution/worker.py:242-246 | retries a failed action only, and returns the attempt that is now the ledger's last |
| Execution.ExecutionService.FinishAttempt | services/execution/worker.py:248-292 | ends the action's in-progress attempt, or refuses with nothing changed |
| Execution.ExecutionService.CompleteAttempt | services/execution/worker.py:294-299 | completes as specified |
| Execution.ExecutionService.FailAttempt | services/execution/worker.py:301-312 | fails as specified, with the error code |
| Execution.ExecutionService.CancelAttempt | services/execution/worker.py:314-356 | cancels a planned action, or the in-progress attempt of a running one |
| Execution.PerformKeeps | services/persistence/store.py:2266-2398 | the store's own integrity checks never fire, and every ledger stays orderly |
| Execution.EveryRunIsOrderly | services/execution/worker.py:185-356 | in every run events chain with contiguous numbers, attempts are numbered from 1 with all but the last failed, the last has the action's status, and the entries into in-progress name the attempts in order |
| Execution.InProgressIsLast | services/execution/worker.py:323-333 | an attempt is in progress exactly when its action is, and then it is the last; there are as many attempts as entries into in-progress |
| Execution.FinalStatusesAbsorb | data/domain/execution.py:66-80 | completed and cancelled absorb, and no operation rewrites an event |
| ExecutionLaws.CreatingIs | services/execution/worker.py:175-183 | a new action is stored planned, with one event and an empty draft if it names one; the same action again is returned as it has become, and any other refusal is the stated one |
| ExecutionLaws.BeginningIs | services/execution/worker.py:196-246 | a start needs a planned action and a retry a failed one, a current proposal and an unused attempt id; then a new attempt, numbered next, runs from now, and one event says so; otherwise the stated refusal |
| ExecutionLaws.FinishingIs | services/execution/worker.py:248-312 | a completion or a failure needs the running attempt, a completion a current proposal too; a completion leaves action and attempt completed, a failure leaves them failed with the given code, now, with one event; otherwise the stated refusal |
| ExecutionLaws.CancellingIs | services/execution/worker.py:314-356 | a planned action is cancelled with its attempts as they are, a running one together with its running attempt, which is the named one if one is named; any other is refused |
| Resumption.CutsDoNotMatter | services/execution/playback.py:199-224 | a process that commits until nothing remains may be cut after any commits and run again, and goes through the states of one uninterrupted run |
| Playback.NextCommitAdvances | services/execution/playback.py:243-265 | every transaction of a running playback leaves one fewer to commit, and touches only planned actions |
| Playback.InterruptedRunsResume | services/execution/playback.py:199-224 | cutting the playback after any commits and running it again, any number of times, reaches the final state of one uninterrupted run |
| Playback.UninterruptedRunCompletes | services/execution/playback.py:281-363 | that final state: every planned action planned, begun and completed by exactly one attempt, the draft filled with the given subject and wording, the approved option's five predicted measures observed with their units by the status update, the playback completed |
| Playback.PlanCovers | services/execution/planner.py:17-34 | the plan drafts the recovery first, updates the status last, and in between has one action for each measure of the approved option and no other |
| Playback.FreshRunTakes | services/execution/playback.py:215-224 | a playback of n planned actions takes exactly 2n + 2 transactions |
| Playback.PlaybackService.CompleteAction | services/execution/playback.py:243-279 | start, fill the draft, complete, each only if still to be done, cut off by the budget; after k commits the state is that of k steps of the run |
| Playback.PlaybackService.RunToCompletion | services/execution/playback.py:199-224 | the loop over the actions and the completion is the run of the step system, cut at the budget |
| Mail.MailStore.Append | services/persistence/store.py:2927-2981 | appends a revision over the expected current one and resets the delivery, or changes nothing |
| Mail.MailStore.MarkAsReviewed | services/persistence/store.py:3003-3053 | marks the expected current revision reviewed, or reports why not |
| Mail.MailStore.Claim | services/persistence/store.py:3055-3101 | refuses a malformed claim; claims a reviewed revision that is in draft or failed, or changes nothing |
| Mail.MailStore.UpdateState | services/persistence/store.py:3103-3139 | refuses a row that names another correlation id; records a state for the expected correlation id and status, or changes nothing |
| MailLaws.MarkKeeps | services/execution/mail_service.py:284-298 | a reviewer's marking never meets content or delivery changed behind its back |
| MailLaws.EveryRunIsConsistent | services/execution/mail_service.py:205-432 | what the delivery, the revisions, the calls and every agent's knowledge keep under every interleaving |
| MailLaws.AllButTheLastCallFailed | services/execution/mail_service.py:382-432 | every provider call but the last was answered, and recorded, as a failure, so no revision, and no email, has two calls that did not fail |
| MailAnswers.RecordedAsAnswered | services/execution/mail_service.py:410-432 | in every run a recorded outcome is accepted, failed or uncertain if and only if the provider answered that call so, with the code it gave; and every call but the last was answered with a failure |
| MailAnswers.AcceptedIsNeverSentAgain | services/execution/mail_service.py:382-432 | once the provider has accepted a message, or may have, nothing that anybody does afterwards calls it again |
| MailAnswers.DeliveryShowsTheAnswer | services/execution/mail_service.py:338-380 | a delivery that is accepted, failed or uncertain shows the provider's answer to the call under its claim, with its code |
| MailAnswers.AnswersAreRecorded | services/execution/mail_service.py:338-380 | an answer about to be recorded is recorded: on the delivery, still being sent under that claim, and on its own call |
| MailAnswers.SendersReadTheReviewed | services/execution/mail_service.py:302-329 | a sender goes on exactly when the decision is current, the expected revision is the current one, reviewed and named by the delivery, and the email is in draft or failed; it carries that revision |
| MailAnswers.ClaimsAreExclusive | services/execution/mail_service.py:388-409 | a claim succeeds exactly when the email still names that revision and is in draft or failed; the email is then being sent under a claim of its own |
| MailAnswers.CallsAreMade | services/execution/mail_service.py:410-418 | a claim is followed by exactly one call, with the claimed revision |
| MailAnswers.EditsAreStored | services/execution/mail_service.py:205-254 | an edit is stored exactly over the current revision of an email in draft or failed, with the editor's own words, and puts the email back in draft; otherwise nothing changes |
| MailAnswers.ReviewersReadTheCurrent | services/execution/mail_service.py:256-283 | a reviewer goes on exactly with a current, expected and unreviewed revision, under their own name and time |
| MailAnswers.ReviewsAreStored | services/execution/mail_service.py:284-300 | a marking that changes anything puts the reviewer's name and time on the current, unreviewed revision and names it in the delivery; the text stays |
| MailLaws.CallsCarryReviewedContent | services/execution/mail_service.py:302-329 | every call carries a revision that was reviewed and has stayed as it was |
| MailLaws.CallsAreCurrent | services/execution/mail_service.py:388-410 | at the moment of the call that revision is the current, reviewed and claimed one |
| MailLaws.AnswersFindTheirClaim | services/execution/mail_service.py:338-380 | a provider's answer always finds its own claim, is recorded, and changes nothing else (MailAnswers ties what is recorded to what was answered) |
| MailLaws.LateAnswersChangeNothing | services/execution/mail_service.py:354-378 | from any state, reachable or not: a claim that is no longer the delivery's never becomes so again, and no step that pursues it, however late, changes the email |
| MailLaws.UpdatesAreWellFormed | services/persistence/store.py:3061-3069 | no run makes the store refuse a claim or a recorded state as malformed |
| MailLaws.ProviderIdsStayUnset | services/execution/mail_service.py:468-473 | no run stores a provider message id, so the status check never gets past its guard |
| JsonReferences.ReferencesAreMentions | fabric/deploy.py:153-161 | the recursive collection finds exactly the reference texts of the document |
| JsonReferences.SortedKeysMention | fabric/schemas/update_microsoft_schemas.py:104-104 | a document written with sorted keys has the references of the fetched one |
| SchemaClosure.ExpandSchema | fabric/deploy.py:270-281 | follows one schema's references, or reports one that is invalid or missing |
| SchemaClosure.ValidateClosure | fabric/deploy.py:258-287 | terminates and accepts exactly the catalogs that equal what the roots reach, with every reference valid and present; its reports are genuine, and the unused set exact |
| SchemaClosure.RefreshCatalog | fabric/schemas/update_microsoft_schemas.py:81-94 | terminates on a finite site; succeeds exactly when all that the roots reach is approved and served, with exactly that, closed in the checker's sense; a reported URL is reachable and is not |
| SchemaClosure.RefreshedCatalogIsAccepted | fabric/schemas/update_microsoft_schemas.py:96-116 | what a refresh writes is accepted by the check |
| Locations.AcceptedIsShaped | integrations/workiq/locations.py:71-167 | whatever the text, an accepted locator has the parts of its kind, each a valid identity |
| Locations.UnquoteQuote | integrations/workiq/locations.py:33-35 | unquoting a quoted identity gives it back |
| Locations.PrintedIsParsed | integrations/workiq/locations.py:19-35 | a printed path is parsed back to its locator without the tenant exactly when it fits the length limit |
| Locations.RoundTrip | integrations/workiq/locations.py:71-167 | for every accepted text: the locator's path parses back to it without the tenant exactly when it fits the limit, and prints to the same path |
| Locations.PathsTellLocatorsApart | integrations/workiq/locations.py:19-35 | different locators never share a fetch path, however long |
| Locations.SomePathsAreTooLong | integrations/workiq/locations.py:72-77 | a concrete accepted text whose own fetch path is rejected for its length |
| LocatorForms.FetchPathIs | integrations/workiq/locations.py:19-35 | the text of each fetch path: /me/messages/M, /users/U/messages/M or /teams/T/channels/C/messages/M, with each identity quoted in its place |
| LocatorForms.TeamsLinkIsRead | integrations/workiq/locations.py:140-163 | a Teams message link is read as the message of its path, in the channel before it, in the team of its groupId and the tenant of its tenantId |
| LocatorForms.ReadLinkIsRead | integrations/workiq/locations.py:113-119 | an Outlook read link is read as its message of the signed-in mailbox |
| LocatorForms.WebLinkIsRead | integrations/workiq/locations.py:120-139 | an Outlook web link is read as the message of its item id, with hyphens for slashes and underscores for pluses and every other character as it is |
| LocatorForms.AcceptedIsNamed | integrations/workiq/locations.py:96-163 | for every accepted text, where each part of the locator comes from: the message is the last segment or the rewritten item id, mailbox, team and channel the named segments, team and tenant the named fields of a Teams link, and Outlook links are to the signed-in mailbox |
| LocatorForms.IdentityIs | integrations/workiq/locations.py:53-58 | an identity is one to 2048 letters, digits and marks of the list, and no relative path segment |
| LocatorForms.EscapesAreRead | integrations/workiq/locations.py:85-95 | an escape stands for the ASCII character of its code, in either case of its digits; any other ASCII character for itself |
| LocatorForms.BytesAreUtf8 | integrations/workiq/locations.py:33-35 | a character is quoted by the bytes of its shortest UTF-8 encoding |
| LocatorForms.AcceptedExactlyWhen | integrations/workiq/locations.py:71-167 | a text is accepted if and only if it is short, without spaces and well escaped, its path is made of identities without an empty segment, it names no user, other port, fragment or repeated field, and it is a bare path of one of three shapes or an https link of the service's shape, with no field out of place, to one of the three services |
| JsonDepth.BoundedJson | integrations/workiq/mcp.py:59-88 | the size error exactly beyond 1,048,576 bytes; the depth error, for every JSON text that fits, exactly when its true nesting exceeds 20; else what the parser says |
| JsonDepth.ScanString | integrations/workiq/mcp.py:65-73 | the scanner passes over any string, whatever brackets, quotes and escapes it holds |
| JsonDepth.ScanText | integrations/workiq/mcp.py:65-83 | scanning a JSON text returns to its depth and reaches exactly its nesting |
| JsonDepth.PeakIsNesting | integrations/workiq/mcp.py:65-83 | for every JSON text the scanner's greatest depth is the value's nesting depth |
| JsonDepth.Pairs | integrations/workiq/mcp.py:46-52 | the dictionary of the pairs, refused exactly when a key repeats |

## Left out

- ResponseOptions.OptionsThatAddSupplyAreNoWorse: assumes that the orders' revenues and margins and the offered quantities are not negative, because money at risk could otherwise grow when an order becomes protected.
- SnapshotLaws.OutcomeAgreesWithExposure: assumes that the snapshot's orders carry the demands of the bill of materials, because nothing in the source computes the one from the other.
- SnapshotLaws.SnapshotAgreesWithExposure: shares the assumptions of ExposureAgreesWithAllocation below.
- ExposureLaws.ExposureAgreesWithAllocation: assumes non-negative receipts, transfers and order quantities and distinct order ids, because a negative quantity would let a later order give supply back.
- RetentionLaws.ExactlyThePrunedGo: assumes that every reference stays within one case, which the services maintain and no constraint of the schema states.
- Playback.InterruptedRunsResume: covers runs without failures, cancellations or a stale proposal, and lets the p-th committed transaction have the same identifier and time in both runs.
- FinanceDecisions.CaseRecords.FinalizeCurrent: the approval satisfactions recorded with a decision and the authorization policy behind it are one yes-or-no parameter, and the lookups made after a lost race, which change nothing, are not modelled.
- FinanceDecisions.CaseRecords.SubmitSelection: fresh selection and review identifiers that collide with stored ones count as refused; the per-option checks on executability are the parameter that gives an option's cost.
- FinanceDecisions.CaseRecords.PublishSelection: whether the option is executable mitigation of the current analysis, and its cost, is the environment's `cost`.
- FinanceDecisions.CaseRecords.ApproveCurrent: the approval satisfactions and the case projection's current decision are not stored.
- FinanceDecisions.CaseRecords.RejectCurrent: the rejection's wording and the case projection's status are not stored.
- VerdictLaws.VerdictCommitsWhen: assumes that whether a review agrees with its analysis depends on its proposal alone, as the check at services/persistence/finance_reviews.py:73-109 reads nothing else of it.
- CommitLaws.SubmissionCommitsWhen: shares that assumption, and takes every hash for a lowercase SHA-256 digest; so do the other lemmas of CommitLaws that supersede a review.
- LocatorForms.TeamsLinkIsRead: this text of a link has its two required fields in this order, and the parameter takes the network location for a plain host name; AcceptedIsNamed and AcceptedExactlyWhen are about every text.
- FinanceWriters.EveryRunIsSequential: the analyses a review is bound to are fixed during a run, and timezone awareness of times is taken for granted.
- Execution.EveryRunIsOrderly: the two clock readings of one transaction are one instant, and owner and wording rules of an action are not modelled.
- SchemaClosure.RefreshCatalog: a site is a finite map from URLs to documents served without redirect; hashes and file names of the catalog are not modelled.
- Locations.RoundTrip: the network location's user, host and port come from a parameter that gives none for an empty one.
- JsonDepth.PeakIsNesting: decoding of a byte body is not modelled; texts are sequences of Unicode characters.
- AnalysisMaterial.BuildMaterial: an option's name, assumptions, plain evidence ids and side effects, the version fields and the material's hash are not carried, as nothing modelled reads them.
- ExposureCalculation.CalculateExposure: the analysis id and the calculation version that label the result are not carried.
- The status check of a sent email: it waits for a provider message id that no send ever stores.
- The pending-review list, review detail pages and the planning worker that claims outbox events.
- HTTP, identity providers, Graph, MCP sessions, agents and model calls: plumbing around the core.
- SQL text, locks and engines, except as the uniqueness, reference and compare-and-set behaviour stated above.
- Report pages, formatting, the React client, routes, settings and telemetry.
- Redaction patterns, HTML extraction, statement recognition and the synthetic corpus.
