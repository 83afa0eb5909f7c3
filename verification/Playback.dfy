/** Simulated playback of an approved Decision, cut and resumed anywhere
    (services/execution/playback.py:199-224 and 243-363, services/execution/planner.py:17-34). */
module Playback {
  import opened Basics
  import opened Execution
  import opened Resumption

  datatype PlaybackStatus = Running | Finished | Aborted

  datatype Observation = Observation(metric: string, observed: string, unit: string, predicted: string,
                                     actionId: string)

  /** The plan lists the decision's actions in kind order; `commits` counts the transactions so far. */
  datatype World = World(plan: seq<string>, ledgers: Ledgers, status: PlaybackStatus, observations: seq<Observation>,
                         commits: nat)

  datatype Predicted = Predicted(uncovered: string, cost: string, revenue: string, margin: string, otif: string)

  datatype OptionKind = Expedite | Transfer | Resequence | Combined

  function ActionKindsFor(option: OptionKind): seq<Kind> {
    match option
    case Expedite => [PrepareAlphaRecoveryDraft, CoordinateAlphaExpeditedPartial, UpdateDisruptionStatus]
    case Transfer => [PrepareAlphaRecoveryDraft, TransferDallasToChicago, UpdateDisruptionStatus]
    case Resequence => [PrepareAlphaRecoveryDraft, ResequencePriorityProduction, UpdateDisruptionStatus]
    case Combined => [PrepareAlphaRecoveryDraft, CoordinateAlphaExpeditedPartial, TransferDallasToChicago,
                      ResequencePriorityProduction, UpdateDisruptionStatus]
  }

  /** What the outside supplies: the id and the time of the p-th committed transaction, the wording of the
      draft, and the approved option with its predicted outcome. */
  datatype Environment = Environment(ids: nat -> string, times: nat -> int, body: string, option: OptionKind,
                                     predicted: Predicted)

  const SUBJECT := "RL-001 supplier communication draft"

  // --- The commits ---------------------------------------------------------------------

  function Commit(w: World, l: Ledger): World {
    w.(ledgers := w.ledgers[l.action.id := l], commits := w.commits + 1)
  }

  function Filled(env: Environment, l: Ledger): Ledger
    requires l.draft.Some?
  {
    l.(draft := Some(Draft(l.draft.value.artifactId, Some(SUBJECT), Some(env.body))))
  }

  predicate NeedsDraft(l: Ledger) {
    l.action.kind == PrepareAlphaRecoveryDraft && l.draft.Some? && l.draft.value.subject.None?
  }

  /** The next transaction `_complete_action` commits for an action; None when it commits nothing. */
  function ActionCommit(env: Environment, w: World, id: string): Option<Ledger>
    requires id in w.ledgers
  {
    var l, p := w.ledgers[id], w.commits;
    match l.action.status
    case Planned =>
      var r := Begin(l, Planned, env.ids(p), Known(w.ledgers, env.ids(p)), true, env.times(p));
      if r.Ok? then Some(r.value) else None
    case InProgress =>
      if |l.attempts| == 0 then None
      else if NeedsDraft(l) then Some(Filled(env, l))
      else
        var a := l.attempts[|l.attempts| - 1].id;
        var r := Finish(l, a, Known(w.ledgers, a), Completed, true, None, env.times(p));
        if r.Ok? then Some(r.value) else None
    case _ => None
  }

  function ObservationsOf(env: Environment, actionId: string): seq<Observation> {
    var v := env.predicted;
    [Observation("uncovered_part_demand", v.uncovered, "units", v.uncovered, actionId),
     Observation("response_cost", v.cost, "USD", v.cost, actionId),
     Observation("revenue_at_risk", v.revenue, "USD", v.revenue, actionId),
     Observation("margin_at_risk", v.margin, "USD", v.margin, actionId),
     Observation("otif_loss_percentage", v.otif, "percent", v.otif, actionId)]
  }

  /** The completion: five observations and the playback's end, in one transaction. */
  function Completion(env: Environment, w: World): World
    requires |w.plan| > 0
  {
    w.(status := Finished, commits := w.commits + 1,
       observations := w.observations + ObservationsOf(env, w.plan[|w.plan| - 1]))
  }

  /** The first action that is not completed, or the length of the plan. */
  function Cursor(w: World, from: nat): (i: nat)
    requires from <= |w.plan| && forall k | 0 <= k < |w.plan| :: w.plan[k] in w.ledgers
    ensures from <= i <= |w.plan|
    ensures forall k | from <= k < i :: w.ledgers[w.plan[k]].action.status == Completed
    ensures i < |w.plan| ==> w.ledgers[w.plan[i]].action.status != Completed
    decreases |w.plan| - from
  {
    if from < |w.plan| && w.ledgers[w.plan[from]].action.status == Completed then Cursor(w, from + 1) else from
  }

  /** The plan's actions exist, and are different ones. */
  predicate Listed(w: World) {
    && |w.plan| > 0 && (forall k | 0 <= k < |w.plan| :: w.plan[k] in w.ledgers)
    && (forall i, j | 0 <= i < j < |w.plan| :: w.plan[i] != w.plan[j])
  }

  /** The actions are those of the approved option, in kind order; the status update comes last. */
  predicate KindsMatch(env: Environment, w: World) {
    && Listed(w) && |w.plan| == |ActionKindsFor(env.option)|
    && forall k | 0 <= k < |w.plan| :: w.ledgers[w.plan[k]].action.kind == ActionKindsFor(env.option)[k]
  }

  /** The next transaction of `run_to_completion`, from any state it may find. */
  function NextCommit(env: Environment, w: World): World {
    if w.status != Running || !Listed(w) then w
    else
      var i := Cursor(w, 0);
      if i == |w.plan| then if KindsMatch(env, w) then Completion(env, w) else w
      else match ActionCommit(env, w, w.plan[i])
        case Some(l) => Commit(w, l)
        case None => w
  }

  function Next(env: Environment): World -> World { (w: World) => NextCommit(env, w) }

  // --- States a playback goes through ---------------------------------------------------

  /** Nothing has failed or been cancelled, no action was tried twice, and a draft is either an empty
      shell or holds the decision's wording, as it does once its action is completed. */
  ghost predicate Smooth(env: Environment, l: Ledger) {
    && Orderly(l) && |l.attempts| <= 1
    && (l.action.status == Planned || l.action.status == InProgress || l.action.status == Completed)
    && (l.action.kind == PrepareAlphaRecoveryDraft <==> l.draft.Some?)
    && (l.draft.Some? ==>
          && (NeedsDraft(l) || (l.draft.value.subject == Some(SUBJECT) && l.draft.value.body == Some(env.body)))
          && (NeedsDraft(l) ==> l.draft.value.body.None? && l.action.status != Completed))
  }

  /** Fresh ids: no committed transaction to come repeats an attempt id. */
  ghost predicate FreshIds(env: Environment, w: World) {
    && (forall p: nat, q: nat | p != q :: env.ids(p) != env.ids(q))
    && forall p: nat | p >= w.commits :: !Known(w.ledgers, env.ids(p))
  }

  ghost predicate Runnable(env: Environment, w: World) {
    && KindsMatch(env, w) && Filed(w.ledgers) && FreshIds(env, w) && w.status != Aborted
    && (forall k | 0 <= k < |w.plan| :: Smooth(env, w.ledgers[w.plan[k]]))
    && (w.status == Running ==> w.observations == [])
    && (w.status == Finished ==>
          && (forall k | 0 <= k < |w.plan| :: w.ledgers[w.plan[k]].action.status == Completed)
          && w.observations == ObservationsOf(env, w.plan[|w.plan| - 1]))
  }

  function Cost(l: Ledger): nat {
    match l.action.status
    case Planned => 2 + (if NeedsDraft(l) then 1 else 0)
    case InProgress => 1 + (if NeedsDraft(l) then 1 else 0)
    case _ => 0
  }

  function CostFrom(w: World, k: nat): nat
    requires k <= |w.plan| && forall k | 0 <= k < |w.plan| :: w.plan[k] in w.ledgers
    decreases |w.plan| - k
  {
    if k == |w.plan| then 0 else Cost(w.ledgers[w.plan[k]]) + CostFrom(w, k + 1)
  }

  /** How many transactions are still to be committed. */
  function Remaining(w: World): nat {
    if w.status == Running && Listed(w) then CostFrom(w, 0) + 1 else 0
  }

  lemma {:induction false} CostElsewhere(w: World, w': World, k: nat)
    requires Listed(w) && Listed(w') && w.plan == w'.plan && k <= |w.plan|
    requires forall j | k <= j < |w.plan| :: w'.ledgers[w.plan[j]] == w.ledgers[w.plan[j]]
    ensures CostFrom(w', k) == CostFrom(w, k)
    decreases |w.plan| - k
  {
    if k < |w.plan| { CostElsewhere(w, w', k + 1); }
  }

  lemma {:induction false} CostDrops(w: World, w': World, i: nat, k: nat)
    requires Listed(w) && Listed(w') && w.plan == w'.plan && k <= i < |w.plan|
    requires forall j | k <= j < |w.plan| && j != i :: w'.ledgers[w.plan[j]] == w.ledgers[w.plan[j]]
    requires Cost(w'.ledgers[w.plan[i]]) == Cost(w.ledgers[w.plan[i]]) - 1
    ensures CostFrom(w', k) == CostFrom(w, k) - 1
    decreases i - k
  {
    if k < i { CostDrops(w, w', i, k + 1); } else { CostElsewhere(w, w', k + 1); }
  }

  lemma {:induction false} NothingLeft(w: World, k: nat)
    requires Listed(w) && k <= |w.plan|
    requires forall j | k <= j < |w.plan| :: w.ledgers[w.plan[j]].action.status == Completed
    ensures CostFrom(w, k) == 0
    decreases |w.plan| - k
  {
    if k < |w.plan| { NothingLeft(w, k + 1); }
  }

  // --- One commit --------------------------------------------------------------------------

  /** What one transaction makes of its action's ledger. */
  ghost predicate Advanced(env: Environment, l: Ledger, l': Ledger, newId: string) {
    && Smooth(env, l') && l'.action.id == l.action.id && l'.action.kind == l.action.kind && Cost(l') == Cost(l) - 1
    && forall a | AttemptAt(l'.attempts, a).Some? :: a == newId || AttemptAt(l.attempts, a).Some?
  }

  lemma StartAdvances(env: Environment, w: World, id: string)
    requires id in w.ledgers && Filed(w.ledgers) && FreshIds(env, w) && Smooth(env, w.ledgers[id])
    requires w.ledgers[id].action.status == Planned
    ensures ActionCommit(env, w, id).Some?
      && Advanced(env, w.ledgers[id], ActionCommit(env, w, id).value, env.ids(w.commits))
  {
    var l, a, now := w.ledgers[id], env.ids(w.commits), env.times(w.commits);
    BeginIs(l, Planned, a, false, true, now);
    BegunIsOrderly(l, a, now);
    assert l.attempts == [];
    var l' := Begun(l, a, now);
    assert !Known(w.ledgers, a);
    forall b | AttemptAt(l'.attempts, b).Some? ensures b == a {
      assert l'.attempts[AttemptAt(l'.attempts, b).value].id == b;
    }
  }

  lemma OnlyAttempt(l: Ledger)
    requires Orderly(l) && |l.attempts| <= 1 && l.action.status == InProgress
    ensures |l.attempts| == 1 && AttemptAt(l.attempts, l.attempts[0].id) == Some(0)
  {
  }

  /** Ending the only attempt adds no attempt id. */
  lemma EndedKeepsIds(l: Ledger, now: int)
    requires |l.attempts| > 0
    ensures forall b | AttemptAt(Ended(l, Completed, None, now).attempts, b).Some? :: AttemptAt(l.attempts, b).Some?
  {
    var l' := Ended(l, Completed, None, now);
    forall b | AttemptAt(l'.attempts, b).Some? ensures AttemptAt(l.attempts, b).Some? {
      var k := AttemptAt(l'.attempts, b).value;
      assert l'.attempts[k].id == b && l.attempts[k].id == b;
    }
  }

  lemma CompleteAdvances(env: Environment, w: World, id: string)
    requires id in w.ledgers && Filed(w.ledgers) && Smooth(env, w.ledgers[id])
    requires w.ledgers[id].action.status == InProgress && !NeedsDraft(w.ledgers[id])
    ensures ActionCommit(env, w, id).Some?
      && Advanced(env, w.ledgers[id], ActionCommit(env, w, id).value, env.ids(w.commits))
  {
    hide Finish, AttemptAt, Filed;
    var l, now := w.ledgers[id], env.times(w.commits);
    OnlyAttempt(l);
    var a := l.attempts[0].id;
    assert Known(w.ledgers, a);
    FinishIs(l, a, true, Completed, true, None, now);
    EndedIsOrderly(l, Completed, None, now);
    EndedKeepsIds(l, now);
  }

  lemma ActionAdvances(env: Environment, w: World, id: string)
    requires id in w.ledgers && Filed(w.ledgers) && FreshIds(env, w) && Smooth(env, w.ledgers[id])
    requires w.ledgers[id].action.status != Completed
    ensures ActionCommit(env, w, id).Some?
      && Advanced(env, w.ledgers[id], ActionCommit(env, w, id).value, env.ids(w.commits))
  {
    var l := w.ledgers[id];
    if l.action.status == Planned {
      StartAdvances(env, w, id);
    } else if NeedsDraft(l) {
      assert Orderly(Filled(env, l));
    } else {
      CompleteAdvances(env, w, id);
    }
  }

  lemma CommitKeepsIds(env: Environment, w: World, l: Ledger)
    requires FreshIds(env, w) && l.action.id in w.ledgers
    requires forall a | AttemptAt(l.attempts, a).Some? ::
      a == env.ids(w.commits) || AttemptAt(w.ledgers[l.action.id].attempts, a).Some?
    ensures FreshIds(env, Commit(w, l))
  {
    var w' := Commit(w, l);
    forall p: nat, id | p >= w'.commits && id in w'.ledgers
      ensures AttemptAt(w'.ledgers[id].attempts, env.ids(p)).None? {
      assert !Known(w.ledgers, env.ids(p));
      assert AttemptAt(w.ledgers[id].attempts, env.ids(p)).None?;
    }
  }

  ghost predicate OneFewer(env: Environment, w: World, w': World) {
    && w'.plan == w.plan && Runnable(env, w') && Remaining(w') == Remaining(w) - 1
    && w'.commits == w.commits + 1
    && forall id | id in w.ledgers && id !in w.plan :: id in w'.ledgers && w'.ledgers[id] == w.ledgers[id]
  }

  lemma CompletionAdvances(env: Environment, w: World)
    requires Runnable(env, w) && w.status == Running && Cursor(w, 0) == |w.plan|
    ensures OneFewer(env, w, Completion(env, w))
  {
    hide Filed, Smooth, Known, FreshIds, ActionKindsFor;
    NothingLeft(w, 0);
    IdsStayFresh(env, w, Completion(env, w));
  }

  lemma IdsStayFresh(env: Environment, w: World, w': World)
    requires FreshIds(env, w) && w'.ledgers == w.ledgers && w'.commits >= w.commits
    ensures FreshIds(env, w')
  {
  }

  lemma CommitFiles(w: World, l: Ledger)
    requires Filed(w.ledgers) && Orderly(l)
    ensures Filed(Commit(w, l).ledgers)
  {
  }

  lemma CommitStaysSmooth(env: Environment, w: World, i: nat, l: Ledger)
    requires Listed(w) && i < |w.plan| && l.action.id == w.plan[i] && Smooth(env, l)
    requires forall k | 0 <= k < |w.plan| :: Smooth(env, w.ledgers[w.plan[k]])
    ensures Listed(Commit(w, l)) && forall k | 0 <= k < |w.plan| :: Smooth(env, Commit(w, l).ledgers[w.plan[k]])
  {
  }

  lemma CommitStaysRunnable(env: Environment, w: World, i: nat, l: Ledger)
    requires Runnable(env, w) && w.status == Running && i < |w.plan| && l.action.id == w.plan[i]
    requires l.action.kind == w.ledgers[w.plan[i]].action.kind
    requires Smooth(env, l) && FreshIds(env, Commit(w, l))
    ensures Runnable(env, Commit(w, l))
  {
    CommitFiles(w, l);
    CommitStaysSmooth(env, w, i, l);
  }

  lemma CommitAdvances(env: Environment, w: World, i: nat, l: Ledger)
    requires Runnable(env, w) && w.status == Running && i < |w.plan|
    requires Advanced(env, w.ledgers[w.plan[i]], l, env.ids(w.commits))
    ensures OneFewer(env, w, Commit(w, l))
  {
    hide Filed, FreshIds, Smooth, ActionKindsFor, AttemptAt;
    FiledIsOrderly(w.ledgers, w.plan[i]);
    CommitKeepsIds(env, w, l);
    CommitStaysRunnable(env, w, i, l);
    CostDrops(w, Commit(w, l), i, 0);
  }

  /** Every transaction of a running playback leaves one transaction fewer to commit. */
  lemma NextCommitAdvances(env: Environment, w: World)
    requires Runnable(env, w) && w.status == Running
    ensures OneFewer(env, w, NextCommit(env, w))
  {
    var i := Cursor(w, 0);
    if i == |w.plan| {
      CompletionAdvances(env, w);
    } else {
      assert Smooth(env, w.ledgers[w.plan[i]]);
      ActionAdvances(env, w, w.plan[i]);
      CommitAdvances(env, w, i, ActionCommit(env, w, w.plan[i]).value);
    }
  }

  // --- Whole runs, cut anywhere --------------------------------------------------------------

  lemma PlaybackProgresses(env: Environment)
    ensures Progresses(Next(env), (w: World) => Runnable(env, w), Remaining)
  {
    forall w: World | Runnable(env, w)
      ensures Runnable(env, NextCommit(env, w))
      ensures Remaining(w) == 0 ==> NextCommit(env, w) == w
      ensures Remaining(w) > 0 ==> Remaining(NextCommit(env, w)) == Remaining(w) - 1
    {
      if w.status == Running { NextCommitAdvances(env, w); }
    }
  }

  /** Cutting `run_to_completion` after any commits and running it again, any number of times, reaches the
      final state of one uninterrupted run as soon as enough was committed, and a state of it before. */
  lemma InterruptedRunsResume(env: Environment, w: World, budgets: seq<nat>)
    requires Runnable(env, w)
    ensures CutRuns(Next(env), Remaining, w, budgets) == Iterate(Next(env), w, Min(Total(budgets), Remaining(w)))
  {
    PlaybackProgresses(env);
    CutsDoNotMatter(Next(env), (w: World) => Runnable(env, w), Remaining, w, budgets);
  }

  // --- From the plan to the end -----------------------------------------------------------------

  /** A planned decision whose playback has just been recorded. */
  ghost predicate JustStarted(env: Environment, w: World) {
    && Runnable(env, w) && w.status == Running
    && forall k | 0 <= k < |w.plan| ::
         w.ledgers[w.plan[k]].action.status == Planned && (k == 0 ==> NeedsDraft(w.ledgers[w.plan[k]]))
  }

  /** Completed by exactly one attempt: planned, begun, completed. Its draft, if it has one, holds the decision's
      wording. */
  predicate CompletedOnce(env: Environment, l: Ledger) {
    && l.action.status == Completed && |l.attempts| == 1 && l.attempts[0].status == Completed
    && |l.events| == 3 && l.events[0].to == Planned && l.events[1].to == InProgress && l.events[2].to == Completed
    && (l.draft.Some? ==>
          l.draft.value.subject == Some("RL-001 supplier communication draft") && l.draft.value.body == Some(env.body))
  }

  /** The end of every run: each planned action completed by exactly one attempt, the draft filled, the approved
      option's five predicted measures observed by the last action, which is the status update, and the playback
      completed. */
  lemma UninterruptedRunCompletes(env: Environment, w: World)
    requires Runnable(env, w)
    ensures var end := Iterate(Next(env), w, Remaining(w));
      && end.status == Finished && end.plan == w.plan
      && (forall k | 0 <= k < |w.plan| :: w.plan[k] in end.ledgers && CompletedOnce(env, end.ledgers[w.plan[k]]))
      && var v, last := env.predicted, w.plan[|w.plan| - 1];
         && end.ledgers[last].action.kind == UpdateDisruptionStatus
         && end.observations == [Observation("uncovered_part_demand", v.uncovered, "units", v.uncovered, last),
                                 Observation("response_cost", v.cost, "USD", v.cost, last),
                                 Observation("revenue_at_risk", v.revenue, "USD", v.revenue, last),
                                 Observation("margin_at_risk", v.margin, "USD", v.margin, last),
                                 Observation("otif_loss_percentage", v.otif, "percent", v.otif, last)]
  {
    hide Runnable, NextCommit, Smooth;
    PlaybackProgresses(env);
    IterateCounts(Next(env), (v: World) => Runnable(env, v), Remaining, w, Remaining(w));
    PlanStays(env, w, Remaining(w));
    EndIsComplete(env, Iterate(Next(env), w, Remaining(w)));
    PlanCovers(env, Iterate(Next(env), w, Remaining(w)));
  }

  ghost predicate Plans(w: World, kind: Kind) {
    exists k :: 0 <= k < |w.plan| && w.plan[k] in w.ledgers && w.ledgers[w.plan[k]].action.kind == kind
  }

  /** The plan drafts the recovery first and updates the status last; in between it has one action for each measure of
      the approved option and no other. */
  lemma PlanCovers(env: Environment, w: World)
    requires Runnable(env, w)
    ensures var n := |w.plan|;
      && n >= 3 && w.plan[0] in w.ledgers && w.plan[n - 1] in w.ledgers
      && w.ledgers[w.plan[0]].action.kind == PrepareAlphaRecoveryDraft
      && w.ledgers[w.plan[n - 1]].action.kind == UpdateDisruptionStatus
      && (Plans(w, CoordinateAlphaExpeditedPartial) <==> env.option == Expedite || env.option == Combined)
      && (Plans(w, TransferDallasToChicago) <==> env.option == Transfer || env.option == Combined)
      && (Plans(w, ResequencePriorityProduction) <==> env.option == Resequence || env.option == Combined)
      && n == (if env.option == Combined then 5 else 3)
  {
    hide Filed, FreshIds, Smooth, Plans;
    forall kind ensures Plans(w, kind) <==> kind in ActionKindsFor(env.option) { PlansItsKinds(env, w, kind); }
  }

  lemma PlansItsKinds(env: Environment, w: World, kind: Kind)
    requires KindsMatch(env, w)
    ensures Plans(w, kind) <==> kind in ActionKindsFor(env.option)
  {
    var kinds := ActionKindsFor(env.option);
    hide ActionKindsFor;
    if kind in kinds {
      var k :| 0 <= k < |kinds| && kinds[k] == kind;
      assert w.ledgers[w.plan[k]].action.kind == kind;
    }
  }

  lemma {:induction false} PlanStays(env: Environment, w: World, n: nat)
    ensures Iterate(Next(env), w, n).plan == w.plan
  {
    if n > 0 { PlanStays(env, w, n - 1); }
  }

  lemma EndIsComplete(env: Environment, end: World)
    requires Runnable(env, end) && Remaining(end) == 0
    ensures forall k | 0 <= k < |end.plan| :: end.plan[k] in end.ledgers
    ensures |end.plan| > 0
    ensures end.status == Finished && end.observations == ObservationsOf(env, end.plan[|end.plan| - 1])
    ensures forall k | 0 <= k < |end.plan| :: CompletedOnce(env, end.ledgers[end.plan[k]])
  {
    hide Filed, Smooth, FreshIds, ActionKindsFor, CompletedOnce;
    forall k | 0 <= k < |end.plan| ensures CompletedOnce(env, end.ledgers[end.plan[k]]) {
      SmoothCompletesOnce(env, end.ledgers[end.plan[k]]);
    }
  }

  lemma {:induction false} EnteredSoFar(events: seq<Event>, k: nat)
    requires k <= |events|
    ensures |Entered(events[..k])| <= |Entered(events)|
  {
    if k < |events| {
      EnteredSoFar(events[..|events| - 1], k);
      assert events[..|events| - 1][..k] == events[..k];
    } else {
      assert events[..k] == events;
    }
  }

  lemma EnteredTwice(events: seq<Event>)
    requires |events| > 3 && events[1].to == InProgress && events[3].to == InProgress
    ensures |Entered(events)| > 1
  {
    var four, two := events[..4], events[..2];
    assert |Entered(two)| >= 1;
    assert four[..3][..2] == two;
    EnteredSoFar(four[..3], 2);
    assert |Entered(four)| >= 2;
    EnteredSoFar(events, 4);
  }

  lemma CompletedInThree(l: Ledger)
    requires Orderly(l) && |l.attempts| <= 1 && l.action.status == Completed
    ensures |l.events| == 3 && l.events[0].to == Planned && l.events[1].to == InProgress && l.events[2].to == Completed
  {
    var e := l.events;
    assert |e| > 1 && Allowed(e[0].to, e[1].to);
    assert |e| > 2 ==> Allowed(e[1].to, e[2].to);
    assert |e| > 3 ==> Allowed(e[2].to, e[3].to);
    if |e| > 3 { EnteredTwice(e); }
  }

  lemma SmoothCompletesOnce(env: Environment, l: Ledger)
    requires Smooth(env, l) && l.action.status == Completed
    ensures CompletedOnce(env, l)
  {
    CompletedInThree(l);
  }

  lemma {:induction false} FreshCost(env: Environment, w: World, k: nat)
    requires JustStarted(env, w) && k <= |w.plan|
    ensures CostFrom(w, k) == 2 * (|w.plan| - k) + if k == 0 then 1 else 0
    decreases |w.plan| - k
  {
    hide Orderly, Filed, FreshIds, ActionKindsFor;
    if k < |w.plan| {
      FreshCost(env, w, k + 1);
      assert Smooth(env, w.ledgers[w.plan[k]]);
      OnlyTheFirstDrafts(env.option);
    }
  }

  lemma OnlyTheFirstDrafts(option: OptionKind)
    ensures forall k | 0 < k < |ActionKindsFor(option)| :: ActionKindsFor(option)[k] != PrepareAlphaRecoveryDraft
  {
  }

  /** A playback of n actions takes exactly 2n + 2 transactions. */
  lemma FreshRunTakes(env: Environment, w: World)
    requires JustStarted(env, w)
    ensures Remaining(w) == 2 * |w.plan| + 2
  {
    FreshCost(env, w, 0);
  }

  // --- The service ---------------------------------------------------------------------------------

  lemma RunningHasMore(env: Environment, w: World)
    requires Runnable(env, w)
    ensures Remaining(w) > 0 <==> w.status == Running
    ensures w.status != Running ==> w.status == Finished && NextCommit(env, w) == w
  {
  }

  /** The first k actions are completed, and the run goes on. */
  ghost predicate Ready(env: Environment, w: World, k: nat) {
    && Runnable(env, w) && w.status == Running && k <= |w.plan|
    && forall j | 0 <= j < k :: w.ledgers[w.plan[j]].action.status == Completed
  }

  /** The next transaction of the k-th action, and what it leaves to do for that action. */
  ghost predicate Steps(env: Environment, w: World, k: nat, l: Ledger) {
    && k < |w.plan| && Ready(env, Commit(w, l), k) && Commit(w, l) == NextCommit(env, w)
    && Commit(w, l).plan == w.plan && Commit(w, l).ledgers[w.plan[k]] == l && Cost(l) == Cost(w.ledgers[w.plan[k]]) - 1
  }

  lemma ReadyNeeds(env: Environment, w: World, k: nat)
    requires Ready(env, w, k) && k < |w.plan|
    ensures w.plan[k] in w.ledgers && Filed(w.ledgers) && FreshIds(env, w) && Smooth(env, w.ledgers[w.plan[k]])
  {
  }

  lemma TransactionSteps(env: Environment, w: World, k: nat)
    requires Ready(env, w, k) && k < |w.plan| && w.ledgers[w.plan[k]].action.status != Completed
    ensures ActionCommit(env, w, w.plan[k]).Some? && Steps(env, w, k, ActionCommit(env, w, w.plan[k]).value)
  {
    hide Filed, FreshIds, Smooth, ActionCommit, Advanced, NextCommit, KindsMatch;
    ReadyNeeds(env, w, k);
    ActionAdvances(env, w, w.plan[k]);
    var l := ActionCommit(env, w, w.plan[k]).value;
    AdvancedIs(env, w.ledgers[w.plan[k]], l, env.ids(w.commits));
    CommitAdvances(env, w, k, l);
    CommitIsNext(env, w, k, l);
  }

  lemma AdvancedIs(env: Environment, l: Ledger, l': Ledger, newId: string)
    requires Advanced(env, l, l', newId)
    ensures l'.action.id == l.action.id && Cost(l') == Cost(l) - 1
  {
  }

  lemma CommitIsNext(env: Environment, w: World, k: nat, l: Ledger)
    requires Listed(w) && w.status == Running && k < |w.plan| && ActionCommit(env, w, w.plan[k]) == Some(l)
    requires forall j | 0 <= j < k :: w.ledgers[w.plan[j]].action.status == Completed
    requires w.ledgers[w.plan[k]].action.status != Completed
    ensures Commit(w, l) == NextCommit(env, w)
  {
    assert Cursor(w, 0) == k;
  }

  /** The world after n transactions of the run that began at start, with k actions behind it. */
  ghost predicate Reached(env: Environment, start: World, n: nat, w: World, k: nat) {
    && Runnable(env, start) && w == Iterate(Next(env), start, n) && w.status == Running
    && Listed(w) && k <= |w.plan| && forall j | 0 <= j < k :: w.ledgers[w.plan[j]].action.status == Completed
  }

  lemma ReachedIsReady(env: Environment, start: World, n: nat, w: World, k: nat)
    requires Reached(env, start, n, w, k)
    ensures Ready(env, w, k)
  {
    PlaybackProgresses(env);
    IterateCounts(Next(env), (v: World) => Runnable(env, v), Remaining, start, n);
  }

  /** From a state the run reaches, the current action's transaction reaches the next one. */
  lemma ReachesNext(env: Environment, start: World, n: nat, w: World, k: nat)
    requires Reached(env, start, n, w, k) && k < |w.plan| && w.ledgers[w.plan[k]].action.status != Completed
    ensures ActionCommit(env, w, w.plan[k]).Some?
    ensures var l := ActionCommit(env, w, w.plan[k]).value;
      Reached(env, start, n + 1, Commit(w, l), k) && Commit(w, l).plan == w.plan && Commit(w, l).ledgers[w.plan[k]] == l
  {
    ReachedIsReady(env, start, n, w, k);
    TransactionSteps(env, w, k);
  }

  lemma StartIsNext(env: Environment, w: World, k: nat)
    requires Ready(env, w, k) && k < |w.plan| && w.ledgers[w.plan[k]].action.status == Planned
    ensures ActionCommit(env, w, w.plan[k]) ==
      Some(Begun(w.ledgers[w.plan[k]], env.ids(w.commits), env.times(w.commits)))
  {
    ReadyNeeds(env, w, k);
    assert !Known(w.ledgers, env.ids(w.commits));
    BeginIs(w.ledgers[w.plan[k]], Planned, env.ids(w.commits), false, true, env.times(w.commits));
  }

  lemma CompleteIsNext(env: Environment, w: World, k: nat)
    requires Ready(env, w, k) && k < |w.plan| && w.ledgers[w.plan[k]].action.status == InProgress
    requires !NeedsDraft(w.ledgers[w.plan[k]])
    ensures |w.ledgers[w.plan[k]].attempts| == 1
    ensures ActionCommit(env, w, w.plan[k]) == Some(Ended(w.ledgers[w.plan[k]], Completed, None, env.times(w.commits)))
  {
    hide Ready, Filed, FreshIds, Finish, AttemptAt;
    ReadyNeeds(env, w, k);
    var l := w.ledgers[w.plan[k]];
    OnlyAttempt(l);
    var a := l.attempts[0].id;
    assert Known(w.ledgers, a);
    FinishIs(l, a, true, Completed, true, None, env.times(w.commits));
  }

  /** The three transactions of `_complete_action` in turn: start, fill the draft, complete. */
  lemma CommitsInTurn(env: Environment, start: World, n: nat, w: World, k: nat)
    requires Reached(env, start, n, w, k) && k < |w.plan| && w.ledgers[w.plan[k]].action.status != Completed
    ensures var l, p := w.ledgers[w.plan[k]], w.commits;
      && (l.action.status == Planned || (l.action.status == InProgress && |l.attempts| == 1))
      && ActionCommit(env, w, w.plan[k]) == Some(
           if l.action.status == Planned then Begun(l, env.ids(p), env.times(p))
           else if NeedsDraft(l) then Filled(env, l)
           else Ended(l, Completed, None, env.times(p)))
  {
    hide Runnable;
    ReachedIsReady(env, start, n, w, k);
    ReadyNeeds(env, w, k);
    var l := w.ledgers[w.plan[k]];
    if l.action.status == Planned {
      StartIsNext(env, w, k);
    } else if !NeedsDraft(l) {
      CompleteIsNext(env, w, k);
    }
  }

  class PlaybackService {
    const env: Environment
    var world: World

    constructor (env: Environment, world: World)
      ensures this.env == env && this.world == world
    {
      this.env := env;
      this.world := world;
    }

    /** One committed transaction on the k-th action, which leaves it with the ledger l. */
    method Transact(k: nat, l: Ledger, ghost start: World, ghost n: nat)
      requires Reached(env, start, n, world, k) && k < |world.plan|
      requires world.ledgers[world.plan[k]].action.status != Completed
      requires ActionCommit(env, world, world.plan[k]) == Some(l)
      modifies this`world
      ensures Reached(env, start, n + 1, world, k) && world.plan == old(world).plan
      ensures world.plan[k] in world.ledgers && world.ledgers[world.plan[k]] == l
    {
      ReachesNext(env, start, n, world, k);
      world := Commit(world, l);
    }

    /** The rest of `_complete_action` once the attempt is started: fill the draft if it is still empty, complete. */
    method FillAndComplete(k: nat, budget: nat, ghost start: World, ghost n: nat) returns (left: nat, cut: bool)
      requires Reached(env, start, n, world, k) && k < |world.plan|
      requires world.ledgers[world.plan[k]].action.status == InProgress
      modifies this`world
      ensures left <= budget && (cut ==> left == 0) && world.plan == old(world).plan
      ensures Reached(env, start, n + budget - left, world, if cut then k else k + 1)
    {
      hide Runnable, ActionCommit, Next, Iterate;
      left, cut := budget, true;
      CommitsInTurn(env, start, n, world, k);
      if NeedsDraft(world.ledgers[world.plan[k]]) {
        if left == 0 { return; }
        Transact(k, Filled(env, world.ledgers[world.plan[k]]), start, n);
        left := left - 1;
        CommitsInTurn(env, start, n + 1, world, k);
      }
      if left == 0 { return; }
      Transact(k, Ended(world.ledgers[world.plan[k]], Completed, None, env.times(world.commits)), start,
               n + budget - left);
      left, cut := left - 1, false;
    }

    /** `_complete_action`: start, fill the draft, complete, each in its own transaction and each only if
        it is still to be done; cut off when the budget of commits is used up. */
    method CompleteAction(k: nat, budget: nat, ghost start: World, ghost n: nat) returns (left: nat, cut: bool)
      requires Reached(env, start, n, world, k) && k < |world.plan|
      modifies this`world
      ensures left <= budget && (cut ==> left == 0) && world.plan == old(world).plan
      ensures Reached(env, start, n + budget - left, world, if cut then k else k + 1)
    {
      hide Runnable, ActionCommit, Next, Iterate;
      var id := world.plan[k];
      if world.ledgers[id].action.status == Completed { return budget, false; }
      CommitsInTurn(env, start, n, world, k);
      if world.ledgers[id].action.status == InProgress {
        left, cut := FillAndComplete(k, budget, start, n);
        return;
      }
      if budget == 0 { return 0, true; }
      Transact(k, Begun(world.ledgers[id], env.ids(world.commits), env.times(world.commits)), start, n);
      left, cut := FillAndComplete(k, budget - 1, start, n + 1);
    }

    /** Runs until the playback is completed or the budget of commits is used up. */
    method RunToCompletion(budget: nat) returns (left: nat)
      requires Runnable(env, world)
      modifies this`world
      ensures world == CutRun(Next(env), Remaining, old(world), budget)
      ensures left > 0 ==> world.status == Finished
    {
      hide Runnable, NextCommit;
      left := budget;
      ghost var start := world;
      RunningHasMore(env, world);
      if world.status != Running { return; }
      for k := 0 to |world.plan|
        invariant left <= budget && world.plan == start.plan
        invariant Reached(env, start, budget - left, world, k)
      {
        var cut: bool;
        left, cut := CompleteAction(k, left, start, budget - left);
        if cut {
          RunIsCut(env, start, budget, world, k);
          return;
        }
      }
      if left == 0 {
        RunIsCut(env, start, budget, world, |world.plan|);
        return;
      }
      RunEnds(env, start, budget - left, world, budget);
      world := Completion(env, world);
      left := left - 1;
    }
  }

  /** A run that is still going has used its whole budget. */
  lemma RunIsCut(env: Environment, start: World, budget: nat, w: World, k: nat)
    requires Reached(env, start, budget, w, k)
    ensures w == CutRun(Next(env), Remaining, start, budget)
  {
    PlaybackProgresses(env);
    IterateCounts(Next(env), (v: World) => Runnable(env, v), Remaining, start, budget);
    RunningHasMore(env, w);
  }

  /** The completion is the last transaction of the run. */
  lemma RunEnds(env: Environment, start: World, n: nat, w: World, budget: nat)
    requires Reached(env, start, n, w, |w.plan|) && budget > n
    ensures Completion(env, w) == CutRun(Next(env), Remaining, start, budget)
  {
    hide Runnable, NextCommit, Completion;
    ReachedIsReady(env, start, n, w, |w.plan|);
    PlaybackProgresses(env);
    IterateCounts(Next(env), (v: World) => Runnable(env, v), Remaining, start, n);
    LastCommit(env, w);
  }

  lemma LastCommit(env: Environment, w: World)
    requires Ready(env, w, |w.plan|)
    ensures Remaining(w) == 1 && NextCommit(env, w) == Completion(env, w)
  {
    assert Cursor(w, 0) == |w.plan|;
    NothingLeft(w, 0);
  }
}
