/** Which Case aggregates retention keeps, and the preview that is applied later
    (services/persistence/presenter_runs.py:68-117, services/persistence/store.py:578-613). */
module RetentionPlan {
  import opened Basics
  import opened Ordering
  import opened Retention
  import opened RetentionLaws

  /** The Case Instance decoded from a row's payload. */
  datatype CasePayload = CasePayload(caseId: string, live: bool, showcase: bool, supplierBound: bool)

  /** The columns of a `case_instances` row that are not keys; the payload is None when it does not decode. */
  datatype CaseColumns = CaseColumns(recordedAt: int, live: bool, showcase: bool, payload: Option<CasePayload>)

  type Contents = nat -> CaseColumns

  datatype Plan = Plan(current: string, retained: seq<string>, pruned: seq<string>, planned: map<Table, nat>)

  datatype PlanError = NegativeLimit | CorruptCase | NotEligible | PlanChanged

  function CaseOf(r: Row): string { if CaseId in r.cells then r.cells[CaseId] else "" }

  function LiveShowcase(contents: Contents): Row -> bool {
    (r: Row) => r.table == CaseInstances && contents(r.rowId).live && contents(r.rowId).showcase
  }

  /** Newest first, then by descending case id. */
  function NewestFirst(contents: Contents): (Row, Row) -> bool {
    (a: Row, b: Row) =>
      contents(a.rowId).recordedAt > contents(b.rowId).recordedAt
      || (contents(a.rowId).recordedAt == contents(b.rowId).recordedAt && StrLe(CaseOf(b), CaseOf(a)))
  }

  function Listed(db: seq<Row>, contents: Contents): seq<Row> {
    SortBy(NewestFirst(contents), Filter(LiveShowcase(contents), db))
  }

  predicate EligibleCase(contents: Contents, r: Row) {
    match contents(r.rowId).payload
    case None => false
    case Some(p) => p.live && p.showcase && p.supplierBound && p.caseId == CaseOf(r)
  }

  function IsEligible(contents: Contents): Row -> bool { (r: Row) => EligibleCase(contents, r) }

  function EligibleIds(contents: Contents, rows: seq<Row>): seq<string> {
    Map(CaseOf, Filter(IsEligible(contents), rows))
  }

  predicate Decodes(contents: Contents, rows: seq<Row>) {
    forall r | r in rows :: contents(r.rowId).payload.Some?
  }

  function Except(id: string): string -> bool { (other: string) => other != id }

  function Divide(db: seq<Row>, current: string, history: seq<string>, limit: nat): Plan {
    var kept := Min(limit, |history|);
    Plan(current, [current] + history[..kept], history[kept..], Preview(db, history[kept..]))
  }

  function PlanOf(db: seq<Row>, contents: Contents, current: Option<string>, limit: int): Result<Plan, PlanError> {
    var listed := Listed(db, contents);
    var eligible := EligibleIds(contents, listed);
    if limit < 0 then Err(NegativeLimit)
    else if !Decodes(contents, listed) then Err(CorruptCase)
    else if current.None? && |eligible| == 0 then Ok(Plan("", [], [], Preview(db, [])))
    else
      var chosen := if current.None? then eligible[0] else current.value;
      if chosen !in eligible then Err(NotEligible)
      else Ok(Divide(db, chosen, Filter(Except(chosen), eligible), limit))
  }

  // --- Planning and applying ------------------------------------------------------------

  class PresenterStore {
    const contents: Contents
    const aggregates: AggregateStore

    constructor (contents: Contents, rows: seq<Row>)
      ensures this.contents == contents && fresh(aggregates) && aggregates.rows == rows
    {
      this.contents := contents;
      aggregates := new AggregateStore(rows);
    }

    method CollectEligible(listed: seq<Row>) returns (eligible: Option<seq<string>>)
      ensures eligible == if Decodes(contents, listed) then Some(EligibleIds(contents, listed)) else None
    {
      var ids: seq<string> := [];
      var keep := IsEligible(contents);
      for i := 0 to |listed|
        invariant Decodes(contents, listed[..i])
        invariant ids == EligibleIds(contents, listed[..i])
      {
        var row := listed[i];
        if contents(row.rowId).payload.None? { return None; }
        assert listed[..i + 1] == listed[..i] + [row];
        FilterSplit(keep, listed[..i], [row]);
        MapSplit(CaseOf, Filter(keep, listed[..i]), Filter(keep, [row]));
        if EligibleCase(contents, row) { ids := ids + [contents(row.rowId).payload.value.caseId]; }
      }
      assert listed[..|listed|] == listed;
      return Some(ids);
    }

    method PlanRetention(current: Option<string>, limit: int) returns (r: Result<Plan, PlanError>)
      ensures r == PlanOf(aggregates.rows, contents, current, limit)
    {
      if limit < 0 { return Err(NegativeLimit); }
      var collected := CollectEligible(Listed(aggregates.rows, contents));
      if collected.None? { return Err(CorruptCase); }
      var eligible, chosen := collected.value, "";
      if current.None? {
        if |eligible| == 0 { return Ok(Plan("", [], [], Preview(aggregates.rows, []))); }
        chosen := eligible[0];
      } else {
        chosen := current.value;
      }
      if chosen !in eligible { return Err(NotEligible); }
      return Ok(Divide(aggregates.rows, chosen, Filter(Except(chosen), eligible), limit));
    }

    /** Applies a previewed plan in one transaction: it is planned again first, and any failure leaves
        the tables as they were. */
    method ApplyRetention(plan: Plan, ghost owner: Owner) returns (r: Result<map<Table, nat>, PlanError>)
      modifies aggregates
      ensures Sound(old(aggregates.rows), owner) ==>
        (r.Ok? <==> PlanOf(old(aggregates.rows), contents, None, Max(0, |plan.retained| - 1)) == Ok(plan))
      ensures Sound(old(aggregates.rows), owner) && r.Ok? ==>
        r.value == plan.planned && aggregates.rows == Filter(Kept(owner, plan.pruned), old(aggregates.rows))
      ensures r.Err? ==> aggregates.rows == old(aggregates.rows)
    {
      var replanned := PlanRetention(None, Max(0, |plan.retained| - 1));
      if replanned.Err? { return Err(replanned.error); }
      if replanned.value != plan { return Err(PlanChanged); }
      var before := aggregates.rows;
      PlannedIsPreview(before, contents, None, Max(0, |plan.retained| - 1));
      var deleted := aggregates.DeleteAggregates(plan.pruned);
      if Sound(before, owner) {
        ExactlyThePrunedGo(before, owner, plan.pruned);
        KeepAll(before, owner, plan.pruned);
        CountsMatchPreview(before, owner, plan.pruned);
      }
      if deleted != plan.planned {
        aggregates.rows := before;
        return Err(PlanChanged);
      }
      return Ok(deleted);
    }
  }

  lemma PlannedIsPreview(db: seq<Row>, contents: Contents, current: Option<string>, limit: int)
    requires PlanOf(db, contents, current, limit).Ok?
    ensures var p := PlanOf(db, contents, current, limit).value; p.planned == Preview(db, p.pruned)
  {
  }

  lemma {:induction false} KeepAll(db: seq<Row>, owner: Owner, cases: seq<string>)
    ensures |cases| == 0 ==> Filter(Kept(owner, cases), db) == db
  {
    if |db| > 0 { KeepAll(db[1..], owner, cases); }
  }

  // --- What a plan promises ---------------------------------------------------------------

  /** A preview applied to unchanged tables is planned again identically, so it is accepted. */
  lemma PreviewIsAccepted(db: seq<Row>, contents: Contents, limit: int)
    requires PlanOf(db, contents, None, limit).Ok?
    ensures var p := PlanOf(db, contents, None, limit).value;
      PlanOf(db, contents, None, Max(0, |p.retained| - 1)) == Ok(p)
  {
  }

  lemma NewestFirstIsOrder(contents: Contents)
    ensures TotalPreorder(NewestFirst(contents))
  {
    StrLeOrder();
    var le := NewestFirst(contents);
    forall a, b ensures le(a, b) || le(b, a) { StrLeTotal(CaseOf(a), CaseOf(b)); }
    forall a, b, c | le(a, b) && le(b, c) ensures le(a, c) {
      if StrLe(CaseOf(b), CaseOf(a)) && StrLe(CaseOf(c), CaseOf(b)) {
        StrLeTransitive(CaseOf(c), CaseOf(b), CaseOf(a));
      }
    }
  }

  /** The case id is the primary key of its table. */
  ghost predicate CaseKey(db: seq<Row>) {
    && (forall a, b | a in db && b in db && a.table == CaseInstances && b.table == CaseInstances
        && CaseOf(a) == CaseOf(b) :: a == b)
    && forall i, j | 0 <= i < j < |db| :: db[i] != db[j]
  }

  lemma {:induction false} FilterDistinct<T>(keep: T -> bool, xs: seq<T>)
    requires Distinct(xs)
    ensures Distinct(Filter(keep, xs))
  {
    if |xs| > 0 {
      assert Distinct(xs[1..]);
      FilterDistinct(keep, xs[1..]);
      FilterMembers(keep, xs[1..]);
      assert xs[0] !in xs[1..];
    }
  }

  lemma SortDistinct(contents: Contents, xs: seq<Row>)
    requires Distinct(xs)
    ensures Distinct(SortBy(NewestFirst(contents), xs))
  {
    NewestFirstIsOrder(contents);
    var sorted := SortBy(NewestFirst(contents), xs);
    SortBySorts(NewestFirst(contents), xs);
    forall i, j | 0 <= i < j < |sorted| ensures sorted[i] != sorted[j] {
      TwiceCounts(sorted, i, j);
      DistinctCounts(xs, sorted[i]);
    }
  }

  lemma MapDistinct(xs: seq<Row>)
    requires Distinct(xs) && forall a, b | a in xs && b in xs && CaseOf(a) == CaseOf(b) :: a == b
    ensures Distinct(Map(CaseOf, xs))
  {
    MapIndex(CaseOf, xs);
  }

  lemma EligibleAreDistinct(db: seq<Row>, contents: Contents)
    requires CaseKey(db)
    ensures Distinct(EligibleIds(contents, Listed(db, contents)))
  {
    var live := Filter(LiveShowcase(contents), db);
    FilterDistinct(LiveShowcase(contents), db);
    FilterMembers(LiveShowcase(contents), db);
    SortDistinct(contents, live);
    NewestFirstIsOrder(contents);
    SortBySorts(NewestFirst(contents), live);
    var listed := Listed(db, contents);
    FilterDistinct(IsEligible(contents), listed);
    FilterMembers(IsEligible(contents), listed);
    MapDistinct(Filter(IsEligible(contents), listed));
  }

  lemma {:induction false} FilterNone(id: string, xs: seq<string>)
    requires id !in xs
    ensures Filter(Except(id), xs) == xs
  {
    if |xs| > 0 { FilterNone(id, xs[1..]); }
  }

  /** Without a chosen current case the plan keeps exactly the newest eligible ones, one more than the
      limit, in order, and prunes exactly the rest. */
  lemma PlanKeepsTheNewest(db: seq<Row>, contents: Contents, limit: nat)
    requires CaseKey(db) && PlanOf(db, contents, None, limit).Ok?
    ensures var p := PlanOf(db, contents, None, limit).value;
      var eligible := EligibleIds(contents, Listed(db, contents));
      var kept := Min(limit + 1, |eligible|);
      p.retained == eligible[..kept] && p.pruned == eligible[kept..]
  {
    hide Listed, EligibleIds, Preview, CaseKey;
    var eligible := EligibleIds(contents, Listed(db, contents));
    EligibleAreDistinct(db, contents);
    if |eligible| > 0 {
      FilterNone(eligible[0], eligible[1..]);
      HeadKept(eligible);
      DivideSplits(db, eligible, limit);
    }
  }

  lemma HeadKept(xs: seq<string>)
    requires |xs| > 0 && xs[0] !in xs[1..] && Filter(Except(xs[0]), xs[1..]) == xs[1..]
    ensures Filter(Except(xs[0]), xs) == xs[1..]
  {
  }

  lemma DivideSplits(db: seq<Row>, xs: seq<string>, limit: nat)
    requires |xs| > 0
    ensures var p, kept := Divide(db, xs[0], xs[1..], limit), Min(limit + 1, |xs|);
      p.retained == xs[..kept] && p.pruned == xs[kept..]
  {
    hide Preview;
    var kept := Min(limit, |xs| - 1);
    assert [xs[0]] + xs[1..][..kept] == xs[..kept + 1];
    assert xs[1..][kept..] == xs[kept + 1..];
  }

  // --- On the rows themselves --------------------------------------------------------------------

  /** A row of the case table whose columns say live and showcase. */
  ghost predicate Considered(db: seq<Row>, contents: Contents, q: Row) {
    q in db && q.table == CaseInstances && contents(q.rowId).live && contents(q.rowId).showcase
  }

  /** The case has such a row, and its record says live, showcase and supplier-bound, under its own id. */
  ghost predicate Candidate(db: seq<Row>, contents: Contents, id: string, q: Row) {
    && Considered(db, contents, q) && CaseOf(q) == id
    && contents(q.rowId).payload.Some?
    && var record := contents(q.rowId).payload.value;
       record.live && record.showcase && record.supplierBound && record.caseId == id
  }

  /** q was recorded after r, or at the same time with an id that does not come before r's. */
  ghost predicate Later(contents: Contents, q: Row, r: Row) {
    || contents(q.rowId).recordedAt > contents(r.rowId).recordedAt
    || (contents(q.rowId).recordedAt == contents(r.rowId).recordedAt && StrLe(CaseOf(r), CaseOf(q)))
  }

  /** Exactly the candidates' ids, each once, later ones first. */
  ghost predicate LatestFirst(db: seq<Row>, contents: Contents, ids: seq<string>) {
    && Distinct(ids) && (forall id :: id in ids <==> exists q :: Candidate(db, contents, id, q))
    && forall i, j, q, r
         | 0 <= i < j < |ids| && Candidate(db, contents, ids[i], q) && Candidate(db, contents, ids[j], r) ::
         Later(contents, q, r)
  }

  lemma EligibleAreLatestFirst(db: seq<Row>, contents: Contents)
    requires CaseKey(db) && Decodes(contents, Listed(db, contents))
    ensures LatestFirst(db, contents, EligibleIds(contents, Listed(db, contents)))
  {
    hide SortBy, Filter;
    var listed := Listed(db, contents);
    var rows, ids := Filter(IsEligible(contents), listed), EligibleIds(contents, listed);
    EligibleAreDistinct(db, contents);
    EligibleRows(db, contents);
    MapIndex(CaseOf, rows);
    forall id ensures id in ids <==> exists q :: Candidate(db, contents, id, q) {
      if id in ids {
        var i :| 0 <= i < |ids| && ids[i] == id;
        assert rows[i] in rows && Candidate(db, contents, id, rows[i]);
      }
      if q :| Candidate(db, contents, id, q) {
        assert q in rows;
        var i :| 0 <= i < |rows| && rows[i] == q;
        assert ids[i] == id;
      }
    }
    forall i, j, q, r | 0 <= i < j < |ids| && Candidate(db, contents, ids[i], q) && Candidate(db, contents, ids[j], r)
      ensures Later(contents, q, r)
    {
      assert rows[i] in rows && rows[j] in rows;
      assert q == rows[i] && r == rows[j];
    }
  }

  lemma EligibleRows(db: seq<Row>, contents: Contents)
    ensures var rows := Filter(IsEligible(contents), Listed(db, contents));
      && (forall q :: q in rows <==> Considered(db, contents, q) && EligibleCase(contents, q))
      && forall i, j | 0 <= i < j < |rows| :: Later(contents, rows[i], rows[j])
  {
    var le, live := NewestFirst(contents), LiveShowcase(contents);
    NewestFirstIsOrder(contents);
    FilterMembers(live, db);
    SortBySorts(le, Filter(live, db));
    FilterMembers(IsEligible(contents), Listed(db, contents));
    FilterKeepsSorted(le, IsEligible(contents), Listed(db, contents));
    var rows := Filter(IsEligible(contents), Listed(db, contents));
    assert Sorted(le, rows);
    forall i, j | 0 <= i < j < |rows| ensures Later(contents, rows[i], rows[j]) { assert le(rows[i], rows[j]); }
  }

  lemma DecodesMeans(db: seq<Row>, contents: Contents)
    ensures Decodes(contents, Listed(db, contents)) <==>
      forall q | Considered(db, contents, q) :: contents(q.rowId).payload.Some?
  {
    NewestFirstIsOrder(contents);
    FilterMembers(LiveShowcase(contents), db);
    SortBySorts(NewestFirst(contents), Filter(LiveShowcase(contents), db));
  }

  /** Without a chosen current case, on the rows themselves: planning succeeds exactly with a limit that is not
      negative and records that decode; retained and pruned cases together are exactly the live, showcase,
      supplier-bound ones, the later before the earlier; one more than the limit is retained, and the latest is
      current. */
  lemma PlanIsLatestFirst(db: seq<Row>, contents: Contents, limit: int)
    requires CaseKey(db)
    ensures PlanOf(db, contents, None, limit).Ok? <==>
      limit >= 0 && forall q | Considered(db, contents, q) :: contents(q.rowId).payload.Some?
    ensures PlanOf(db, contents, None, limit).Ok? ==>
      var p := PlanOf(db, contents, None, limit).value;
      && LatestFirst(db, contents, p.retained + p.pruned)
      && |p.retained| == Min(limit + 1, |p.retained + p.pruned|)
      && p.current == (if |p.retained| > 0 then p.retained[0] else "")
  {
    hide Listed, EligibleIds, Preview, CaseKey, LatestFirst, Considered, Decodes;
    DecodesMeans(db, contents);
    if PlanOf(db, contents, None, limit).Ok? {
      var eligible := EligibleIds(contents, Listed(db, contents));
      PlanKeepsTheNewest(db, contents, limit);
      EligibleAreLatestFirst(db, contents);
      assert eligible[..Min(limit + 1, |eligible|)] + eligible[Min(limit + 1, |eligible|)..] == eligible;
    }
  }

  lemma OneFurther<T>(xs: seq<T>, k: nat)
    requires k + 1 < |xs|
    ensures xs[1..][k] == xs[k + 1]
    ensures [xs[0]] + (xs[1..][..k] + xs[1..][k + 1..]) == xs[..k + 1] + xs[k + 1 + 1..]
  {
  }

  lemma {:induction false} ExceptKeepsOrder(id: string, xs: seq<string>)
    requires Distinct(xs) && id in xs
    ensures exists k :: 0 <= k < |xs| && xs[k] == id && Filter(Except(id), xs) == xs[..k] + xs[k + 1..]
  {
    var tail := xs[1..];
    if xs[0] == id {
      assert id !in tail;
      FilterNone(id, tail);
      assert Filter(Except(id), xs) == xs[..0] + xs[0 + 1..];
    } else {
      HeadOrTail(xs);
      assert Distinct(tail);
      ExceptKeepsOrder(id, tail);
      var k :| 0 <= k < |tail| && tail[k] == id && Filter(Except(id), tail) == tail[..k] + tail[k + 1..];
      OneFurther(xs, k);
      assert Filter(Except(id), xs) == [xs[0]] + Filter(Except(id), tail);
    }
  }

  /** With a chosen current case: it has to be a candidate, it is retained first, and the others follow, later first. */
  lemma PlanAroundTheCurrent(db: seq<Row>, contents: Contents, current: string, limit: int)
    requires CaseKey(db)
    ensures PlanOf(db, contents, Some(current), limit).Ok? <==>
      && limit >= 0 && (forall q | Considered(db, contents, q) :: contents(q.rowId).payload.Some?)
      && exists q :: Candidate(db, contents, current, q)
    ensures PlanOf(db, contents, Some(current), limit).Ok? ==>
      var p := PlanOf(db, contents, Some(current), limit).value;
      && p.current == current && |p.retained| > 0 && p.retained[0] == current
      && var others := p.retained[1..] + p.pruned;
         && |p.retained| == 1 + Min(limit, |others|)
         && exists k :: 0 <= k <= |others| && LatestFirst(db, contents, others[..k] + [current] + others[k..])
  {
    hide Listed, EligibleIds, Preview, CaseKey, LatestFirst, Considered, Decodes, Candidate;
    DecodesMeans(db, contents);
    var eligible := EligibleIds(contents, Listed(db, contents));
    if Decodes(contents, Listed(db, contents)) {
      EligibleAreLatestFirst(db, contents);
      LatestFirstMembers(db, contents, eligible, current);
    }
    if PlanOf(db, contents, Some(current), limit).Ok? {
      EligibleAreDistinct(db, contents);
      DividePutsFirst(db, current, Filter(Except(current), eligible), limit);
      OthersAround(current, eligible);
    }
  }

  lemma DividePutsFirst(db: seq<Row>, current: string, history: seq<string>, limit: nat)
    ensures var p := Divide(db, current, history, limit);
      && p.current == current && |p.retained| == 1 + Min(limit, |history|) && p.retained[0] == current
      && p.retained[1..] + p.pruned == history
  {
    hide Preview;
    var p, kept := Divide(db, current, history, limit), Min(limit, |history|);
    assert p.retained[1..] == history[..kept];
    assert history[..kept] + history[kept..] == history;
  }

  lemma OthersAround(id: string, xs: seq<string>)
    requires Distinct(xs) && id in xs
    ensures var others := Filter(Except(id), xs);
      exists k :: 0 <= k <= |others| && others[..k] + [id] + others[k..] == xs
  {
    hide Filter;
    ExceptKeepsOrder(id, xs);
    var k :| 0 <= k < |xs| && xs[k] == id && Filter(Except(id), xs) == xs[..k] + xs[k + 1..];
    var others := xs[..k] + xs[k + 1..];
    assert others[..k] == xs[..k] && others[k..] == xs[k + 1..];
    assert xs[..k] + [id] + xs[k + 1..] == xs;
  }

  lemma LatestFirstMembers(db: seq<Row>, contents: Contents, ids: seq<string>, id: string)
    requires LatestFirst(db, contents, ids)
    ensures id in ids <==> exists q :: Candidate(db, contents, id, q)
  {
  }

  // --- Retaining twice -------------------------------------------------------------------------

  lemma ListedWithout(db: seq<Row>, contents: Contents, owner: Owner, cases: seq<string>)
    requires CaseKey(db)
    ensures Listed(Filter(Kept(owner, cases), db), contents) == Filter(Kept(owner, cases), Listed(db, contents))
  {
    var keep, le, live := Kept(owner, cases), NewestFirst(contents), LiveShowcase(contents);
    NewestFirstIsOrder(contents);
    FiltersCommute(live, keep, db);
    var all, rest := Filter(live, db), Filter(live, Filter(keep, db));
    SortBySorts(le, all);
    SortBySorts(le, rest);
    FilterPermutation(keep, all, SortBy(le, all));
    FilterKeepsSorted(le, keep, SortBy(le, all));
    FilterMembers(live, db);
    FilterMembers(keep, all);
    forall a, b | a in SortBy(le, rest) && b in SortBy(le, rest) && le(a, b) && le(b, a) ensures a == b {
      StrLeAntisymmetric(CaseOf(a), CaseOf(b));
    }
    SortedUnique(le, SortBy(le, rest), Filter(keep, SortBy(le, all)));
  }

  function NotAmong(ids: seq<string>): string -> bool { (id: string) => id !in ids }

  lemma {:induction false} IdsWithout(contents: Contents, owner: Owner, cases: seq<string>, rows: seq<Row>)
    requires forall r | r in rows :: owner(r.rowId) == CaseOf(r)
    ensures EligibleIds(contents, Filter(Kept(owner, cases), rows)) ==
      Filter(NotAmong(cases), EligibleIds(contents, rows))
  {
    if |rows| > 0 {
      var keep, ok, head, tail := Kept(owner, cases), IsEligible(contents), rows[0], rows[1..];
      assert head in rows && forall r | r in tail :: r in rows;
      IdsWithout(contents, owner, cases, tail);
      FilterSplit(ok, if keep(head) then [head] else [], Filter(keep, tail));
      var kept := Filter(ok, if keep(head) then [head] else []);
      MapSplit(CaseOf, kept, Filter(ok, Filter(keep, tail)));
      MapSplit(CaseOf, if ok(head) then [head] else [], Filter(ok, tail));
      FilterSplit(NotAmong(cases), Map(CaseOf, if ok(head) then [head] else []), EligibleIds(contents, tail));
    }
  }

  lemma WithoutSuffix(xs: seq<string>, k: nat)
    requires Distinct(xs) && k <= |xs|
    ensures Filter(NotAmong(xs[k..]), xs) == xs[..k]
  {
    var drop := NotAmong(xs[k..]);
    assert xs == xs[..k] + xs[k..];
    FilterSplit(drop, xs[..k], xs[k..]);
    KeepAllOf(drop, xs[..k]);
    DropAllOf(drop, xs[k..]);
  }

  lemma {:induction false} KeepAllOf<T>(keep: T -> bool, xs: seq<T>)
    requires forall x | x in xs :: keep(x)
    ensures Filter(keep, xs) == xs
  {
    if |xs| > 0 {
      assert xs[0] in xs;
      KeepAllOf(keep, xs[1..]);
    }
  }

  lemma {:induction false} DropAllOf<T>(keep: T -> bool, xs: seq<T>)
    requires forall x | x in xs :: !keep(x)
    ensures Filter(keep, xs) == []
  {
    if |xs| > 0 {
      assert xs[0] in xs;
      DropAllOf(keep, xs[1..]);
    }
  }

  /** After a plan is applied the retained cases are exactly the eligible ones that are left, and
      planning again with the same limit prunes nothing. */
  lemma RetainingTwicePrunesNothing(db: seq<Row>, contents: Contents, owner: Owner, limit: nat)
    requires CaseKey(db) && Sound(db, owner) && PlanOf(db, contents, None, limit).Ok?
    ensures var p := PlanOf(db, contents, None, limit).value;
      var db' := Filter(Kept(owner, p.pruned), db);
      && EligibleIds(contents, Listed(db', contents)) == p.retained
      && PlanOf(db', contents, None, limit).Ok? && PlanOf(db', contents, None, limit).value.retained == p.retained
      && PlanOf(db', contents, None, limit).value.pruned == []
  {
    hide Listed, EligibleIds, Preview, Sound;
    var p := PlanOf(db, contents, None, limit).value;
    var db', listed := Filter(Kept(owner, p.pruned), db), Listed(db, contents);
    var eligible := EligibleIds(contents, listed);
    PlanKeepsTheNewest(db, contents, limit);
    EligibleAreDistinct(db, contents);
    ListedWithout(db, contents, owner, p.pruned);
    ListedRows(db, contents, owner);
    IdsWithout(contents, owner, p.pruned, listed);
    WithoutSuffix(eligible, Min(limit + 1, |eligible|));
    FilterMembers(Kept(owner, p.pruned), listed);
    KeyStays(db, Kept(owner, p.pruned));
    PlanKeepsTheNewest(db', contents, limit);
  }

  lemma ListedRows(db: seq<Row>, contents: Contents, owner: Owner)
    requires Sound(db, owner)
    ensures forall r | r in Listed(db, contents) :: r in db && owner(r.rowId) == CaseOf(r)
  {
    NewestFirstIsOrder(contents);
    FilterMembers(LiveShowcase(contents), db);
    SortBySorts(NewestFirst(contents), Filter(LiveShowcase(contents), db));
    hide NoDangling, SortBy, Filter, Refers;
    forall r | r in Listed(db, contents) ensures r in db && owner(r.rowId) == CaseOf(r) {
      assert Conforms(r) && CaseId in Columns(CaseInstances) - Nullable(CaseInstances);
    }
  }

  lemma KeyStays(db: seq<Row>, keep: Row -> bool)
    requires CaseKey(db)
    ensures CaseKey(Filter(keep, db))
  {
    FilterMembers(keep, db);
    FilterDistinct(keep, db);
  }
}
