/** Why the cascade is safe: no statement leaves a dangling reference, exactly the pruned cases' rows
    go, and as many as the preview counted. The one assumption is that references stay within a case. */
module RetentionLaws {
  import opened Basics
  import opened Retention

  /** The case each row belongs to, by the row's identity. */
  type Owner = nat -> string

  /** Every foreign key's parent belongs to its child's case, and case columns name that case. */
  ghost predicate OneCase(db: seq<Row>, owner: Owner) {
    && (forall r | r in db && CaseId in r.cells :: r.cells[CaseId] == owner(r.rowId))
    && (forall r, c, p | r in db && p in db && Refers(r, c, p) :: owner(r.rowId) == owner(p.rowId))
  }

  ghost predicate Sound(db: seq<Row>, owner: Owner) {
    && (forall r | r in db :: Conforms(r)) && NoDangling(db) && OneCase(db, owner)
  }

  predicate Pruned(owner: Owner, cases: seq<string>, r: Row) { owner(r.rowId) in cases }

  // --- The state between statements --------------------------------------------------

  /** What is left of one row once the first k tables are done, and perhaps the update. */
  function Remains(owner: Owner, cases: seq<string>, k: nat, detached: bool, r: Row): seq<Row> {
    if !Pruned(owner, cases, r) then [r]
    else if Position(r.table) < k then []
    else if r.table == CaseProposalSelections && detached then [Detach(r)]
    else [r]
  }

  function Swept(owner: Owner, cases: seq<string>, k: nat, detached: bool, db: seq<Row>): seq<Row> {
    if |db| == 0 then []
    else Remains(owner, cases, k, detached, db[0]) + Swept(owner, cases, k, detached, db[1..])
  }

  lemma {:induction false} SweptFrom(owner: Owner, cases: seq<string>, k: nat, detached: bool, db: seq<Row>, r: Row)
    returns (r0: Row)
    requires r in Swept(owner, cases, k, detached, db)
    ensures r0 in db && r in Remains(owner, cases, k, detached, r0)
  {
    if r in Remains(owner, cases, k, detached, db[0]) {
      r0 := db[0];
    } else {
      r0 := SweptFrom(owner, cases, k, detached, db[1..], r);
    }
  }

  lemma {:induction false} SweptKeeps(owner: Owner, cases: seq<string>, k: nat, detached: bool, db: seq<Row>, r0: Row)
    requires r0 in db
    ensures forall r | r in Remains(owner, cases, k, detached, r0) :: r in Swept(owner, cases, k, detached, db)
  {
    if r0 != db[0] { SweptKeeps(owner, cases, k, detached, db[1..], r0); }
  }

  /** A row before the sweep and what is left of it differ in the detached column only. */
  lemma RemainsAlike(owner: Owner, cases: seq<string>, k: nat, detached: bool, r0: Row, r: Row)
    requires r in Remains(owner, cases, k, detached, r0)
    ensures r.table == r0.table && r.rowId == r0.rowId && r.cells.Keys <= r0.cells.Keys
    ensures forall c | c in r.cells :: r.cells[c] == r0.cells[c]
    ensures forall c | c in r0.cells && c != ExpectedSelectionId :: c in r.cells
    ensures Pruned(owner, cases, r0) ==> Position(r.table) >= k
    ensures Pruned(owner, cases, r0) && r.table == CaseProposalSelections && detached ==>
      ExpectedSelectionId !in r.cells
    ensures !(Pruned(owner, cases, r0) && r.table == CaseProposalSelections && detached) ==> r == r0
  {
  }

  // --- The delete order follows the references -------------------------------------------

  lemma ParentsComeLater(t: Table, c: Column)
    requires References(t, c).Some?
    ensures Position(t) < Position(References(t, c).value) || (t == CaseProposalSelections && c == ExpectedSelectionId)
    ensures t == CaseProposalSelections && c == ExpectedSelectionId ==> References(t, c).value == t
  {
    hide References, Position;
    if c == CaseId { CasesComeLast(t); } else { KeyedParentsComeLater(t, c); }
  }

  lemma CasesComeLast(t: Table)
    requires References(t, CaseId).Some?
    ensures Position(t) < Position(References(t, CaseId).value)
  {
    hide Columns;
  }

  lemma KeyedParentsComeLater(t: Table, c: Column)
    requires References(t, c).Some? && c != CaseId
    ensures Position(t) < Position(References(t, c).value) || (t == CaseProposalSelections && c == ExpectedSelectionId)
    ensures t == CaseProposalSelections && c == ExpectedSelectionId ==> References(t, c).value == t
  {
  }

  /** Between any two statements every reference still finds its row. */
  lemma SweptNeverDangles(db: seq<Row>, owner: Owner, cases: seq<string>, k: nat, detached: bool)
    requires Sound(db, owner)
    ensures NoDangling(Swept(owner, cases, k, detached, db))
  {
    hide References, Remains, Swept, KeyOf, Position, Refers, Conforms;
    var now := Swept(owner, cases, k, detached, db);
    forall r, c | r in now && c in r.cells && References(r.table, c).Some? ensures Answered(now, r, c) {
      var r0 := SweptFrom(owner, cases, k, detached, db, r);
      RemainsAlike(owner, cases, k, detached, r0, r);
      assert Answered(db, r0, c);
      var p0 :| p0 in db && Refers(r0, c, p0);
      ParentRemains(owner, cases, k, detached, r0, r, c, p0);
      SweptKeeps(owner, cases, k, detached, db, p0);
      var p := Remains(owner, cases, k, detached, p0)[0];
      assert p in Remains(owner, cases, k, detached, p0);
      RemainsAlike(owner, cases, k, detached, p0, p);
      RefersAlike(r0, r, c, p0, p);
    }
  }

  lemma RefersAlike(r0: Row, r: Row, c: Column, p0: Row, p: Row)
    requires Refers(r0, c, p0) && r.table == r0.table && p.table == p0.table
    requires c in r.cells && r.cells[c] == r0.cells[c]
    requires forall k | k in p.cells :: k in p0.cells && p.cells[k] == p0.cells[k]
    requires forall k | k in p0.cells && k != ExpectedSelectionId :: k in p.cells
    ensures Refers(r, c, p)
  {
    hide References;
  }

  lemma ParentRemains(owner: Owner, cases: seq<string>, k: nat, detached: bool, r0: Row, r: Row, c: Column, p0: Row)
    requires r in Remains(owner, cases, k, detached, r0) && c in r.cells && Refers(r0, c, p0)
    requires owner(r0.rowId) == owner(p0.rowId)
    ensures |Remains(owner, cases, k, detached, p0)| == 1
  {
    ParentsComeLater(r0.table, c);
  }

  // --- What each statement selects ----------------------------------------------------------

  /** In every state of the run the statement of table t selects the rows of the pruned cases. */
  lemma TargetsThePruned(db: seq<Row>, owner: Owner, cases: seq<string>, k: nat, detached: bool, r: Row)
    requires Sound(db, owner)
    requires r in Swept(owner, cases, k, detached, db) && Position(r.table) >= k
    ensures Targeted(Swept(owner, cases, k, detached, db), cases, r) <==> Pruned(owner, cases, r)
  {
    var r0 := SweptFrom(owner, cases, k, detached, db, r);
    RemainsAlike(owner, cases, k, detached, r0, r);
    if Targeted(Swept(owner, cases, k, detached, db), cases, r) {
      TargetedIsPruned(db, owner, cases, k, detached, r, r0);
    }
    if Pruned(owner, cases, r) {
      PrunedIsTargeted(db, owner, cases, k, detached, r, r0);
    }
  }

  lemma TestedKeysRefer(t: Table, c: Column)
    requires c in TestedKeys(t) && c != CaseId
    ensures References(t, c) == Some(ParentOf(c)) && KeyOf(ParentOf(c)) == c
  {
    hide Columns;
    match c { case AnalysisId => case _ => }
  }

  lemma TargetedIsPruned(db: seq<Row>, owner: Owner, cases: seq<string>, k: nat, detached: bool, r: Row, r0: Row)
    requires Sound(db, owner) && r0 in db && r in Remains(owner, cases, k, detached, r0)
    requires Targeted(Swept(owner, cases, k, detached, db), cases, r)
    ensures Pruned(owner, cases, r)
  {
    var now := Swept(owner, cases, k, detached, db);
    RemainsAlike(owner, cases, k, detached, r0, r);
    var c :| c in TestedKeys(r.table) && c in r.cells && Queried(now, cases, c, r.cells[c]);
    if c != CaseId {
      TestedKeysRefer(r.table, c);
      var p :| p in now && p.table == ParentOf(c) && OfCases(p, cases) && c in p.cells && p.cells[c] == r.cells[c];
      var p0 := SweptFrom(owner, cases, k, detached, db, p);
      RemainsAlike(owner, cases, k, detached, p0, p);
      assert Refers(r0, c, p0);
    }
  }

  /** A table without a case column has a mandatory key whose parent is deleted after it. */
  function Anchor(t: Table): Column {
    match t
    case SupplierEmailRevisions | SupplierEmailDeliveries | DraftArtifacts | ExecutionAttempts | ExecutionEvents
      | OutboxEvents => DecisionId
    case ApprovalSatisfactions => AnalysisId
    case _ => CaseId
  }

  lemma AnchorHolds(r: Row)
    requires Conforms(r)
    ensures Anchor(r.table) in TestedKeys(r.table) && Anchor(r.table) in r.cells
    ensures Anchor(r.table) != CaseId ==>
      CaseId in Columns(ParentOf(Anchor(r.table))) - Nullable(ParentOf(Anchor(r.table)))
  {
    var a := Anchor(r.table);
    assert a in Columns(r.table) - Nullable(r.table);
  }

  lemma PrunedIsTargeted(db: seq<Row>, owner: Owner, cases: seq<string>, k: nat, detached: bool, r: Row, r0: Row)
    requires Sound(db, owner) && r0 in db && r in Remains(owner, cases, k, detached, r0) && Pruned(owner, cases, r)
    ensures Targeted(Swept(owner, cases, k, detached, db), cases, r)
  {
    hide References, Columns, Nullable, Position, Swept, TestedKeys;
    var now, a := Swept(owner, cases, k, detached, db), Anchor(r.table);
    RemainsAlike(owner, cases, k, detached, r0, r);
    AnchorHolds(r0);
    if a != CaseId {
      TestedKeysRefer(r.table, a);
      assert Answered(db, r0, a);
      var p0 :| p0 in db && Refers(r0, a, p0);
      ParentRemains(owner, cases, k, detached, r0, r, a, p0);
      SweptKeeps(owner, cases, k, detached, db, p0);
      var p := Remains(owner, cases, k, detached, p0)[0];
      RemainsAlike(owner, cases, k, detached, p0, p);
      assert Conforms(p0);
      assert OfCases(p, cases) && p.cells[a] == r.cells[a];
      assert Queried(now, cases, a, r.cells[a]);
    } else {
      assert Queried(now, cases, CaseId, r.cells[CaseId]);
    }
  }

  // --- What each statement does ---------------------------------------------------------------

  /** Deleting the targeted rows of the next table is the next sweep. */
  lemma {:induction false} DeleteSweeps(owner: Owner, cases: seq<string>, k: nat, detached: bool, db: seq<Row>,
                                        spared: Row -> bool, doomed: Row -> bool)
    requires k < |DELETE_ORDER|
    requires forall r | r in Swept(owner, cases, k, detached, db) ::
      && (spared(r) <==> !(r.table == DELETE_ORDER[k] && Pruned(owner, cases, r)))
      && (doomed(r) <==> r.table == DELETE_ORDER[k] && Pruned(owner, cases, r))
    ensures Filter(spared, Swept(owner, cases, k, detached, db)) == Swept(owner, cases, k + 1, detached, db)
    ensures |Filter(doomed, Swept(owner, cases, k, detached, db))|
         == |Filter((r: Row) => r.table == DELETE_ORDER[k] && Pruned(owner, cases, r), db)|
  {
    PositionIsPlace();
    if |db| > 0 {
      var head, rest := Remains(owner, cases, k, detached, db[0]), Swept(owner, cases, k, detached, db[1..]);
      assert forall r | r in rest :: r in head + rest;
      assert forall r | r in head :: r in head + rest;
      DeleteSweeps(owner, cases, k, detached, db[1..], spared, doomed);
      FilterSplit(spared, head, rest);
      FilterSplit(doomed, head, rest);
      DeleteSweepsOne(owner, cases, k, detached, db[0], spared, doomed);
    }
  }

  lemma DeleteSweepsOne(owner: Owner, cases: seq<string>, k: nat, detached: bool, r0: Row,
                        spared: Row -> bool, doomed: Row -> bool)
    requires k < |DELETE_ORDER|
    requires forall r | r in Remains(owner, cases, k, detached, r0) ::
      && (spared(r) <==> !(r.table == DELETE_ORDER[k] && Pruned(owner, cases, r)))
      && (doomed(r) <==> r.table == DELETE_ORDER[k] && Pruned(owner, cases, r))
    ensures Filter(spared, Remains(owner, cases, k, detached, r0)) == Remains(owner, cases, k + 1, detached, r0)
    ensures |Filter(doomed, Remains(owner, cases, k, detached, r0))|
         == if r0.table == DELETE_ORDER[k] && Pruned(owner, cases, r0) then 1 else 0
  {
    PositionIsPlace();
    var rest := Remains(owner, cases, k, detached, r0);
    if |rest| == 1 {
      var r := rest[0];
      assert r in rest && rest[1..] == [];
      assert r.table == r0.table && r.rowId == r0.rowId;
      assert Filter(spared, rest) == (if spared(r) then [r] else []) + Filter(spared, []);
      assert Filter(doomed, rest) == (if doomed(r) then [r] else []) + Filter(doomed, []);
    }
  }

  /** The update detaches the pruned selections. */
  lemma {:induction false} UpdateSweeps(owner: Owner, cases: seq<string>, k: nat, db: seq<Row>, f: Row -> Row)
    requires k <= Position(CaseProposalSelections)
    requires forall r | r in Swept(owner, cases, k, false, db) ::
      f(r) == if r.table == CaseProposalSelections && Pruned(owner, cases, r) then Detach(r) else r
    ensures Map(f, Swept(owner, cases, k, false, db)) == Swept(owner, cases, k, true, db)
  {
    if |db| > 0 {
      var head, rest := Remains(owner, cases, k, false, db[0]), Swept(owner, cases, k, false, db[1..]);
      assert forall r | r in rest :: r in head + rest;
      assert forall r | r in head :: r in head + rest;
      UpdateSweeps(owner, cases, k, db[1..], f);
      MapSplit(f, head, rest);
      MapIndex(f, head);
      assert Map(f, head) == Remains(owner, cases, k, true, db[0]);
    }
  }

  predicate Detached(k: nat) { k > Position(CaseProposalSelections) }

  lemma PreparedSweeps(db: seq<Row>, owner: Owner, cases: seq<string>, k: nat)
    requires Sound(db, owner) && k < |DELETE_ORDER|
    ensures Prepared(Swept(owner, cases, k, Detached(k), db), cases, DELETE_ORDER[k])
         == Swept(owner, cases, k, Detached(k + 1), db)
  {
    PositionIsPlace();
    var now := Swept(owner, cases, k, Detached(k), db);
    if DELETE_ORDER[k] == CaseProposalSelections {
      assert k == Position(CaseProposalSelections);
      forall r | r in now && r.table == CaseProposalSelections
        ensures Targeted(now, cases, r) <==> Pruned(owner, cases, r)
      {
        TargetsThePruned(db, owner, cases, k, Detached(k), r);
      }
      UpdateSweeps(owner, cases, k, db, DetachDoomed(now, cases));
    }
  }

  function PrunedIn(owner: Owner, cases: seq<string>, t: Table): Row -> bool {
    (r: Row) => r.table == t && Pruned(owner, cases, r)
  }

  lemma StatementSweeps(db: seq<Row>, owner: Owner, cases: seq<string>, k: nat)
    requires Sound(db, owner) && k < |DELETE_ORDER|
    ensures var now := Swept(owner, cases, k, Detached(k + 1), db);
      && Filter(Spared(now, cases, DELETE_ORDER[k]), now) == Swept(owner, cases, k + 1, Detached(k + 1), db)
      && |Filter(Doomed(now, cases, DELETE_ORDER[k]), now)| == |Filter(PrunedIn(owner, cases, DELETE_ORDER[k]), db)|
  {
    PositionIsPlace();
    var now, t := Swept(owner, cases, k, Detached(k + 1), db), DELETE_ORDER[k];
    forall r | r in now && r.table == t ensures Targeted(now, cases, r) <==> Pruned(owner, cases, r) {
      TargetsThePruned(db, owner, cases, k, Detached(k + 1), r);
    }
    DeleteSweeps(owner, cases, k, Detached(k + 1), db, Spared(now, cases, t), Doomed(now, cases, t));
    FilterAgrees((r: Row) => r.table == t && Pruned(owner, cases, r), PrunedIn(owner, cases, t), db);
  }

  lemma {:induction false} FilterAgrees<T>(f: T -> bool, g: T -> bool, xs: seq<T>)
    requires forall x | x in xs :: f(x) == g(x)
    ensures Filter(f, xs) == Filter(g, xs)
  {
    if |xs| > 0 {
      assert xs[0] in xs && forall x | x in xs[1..] :: x in xs;
      FilterAgrees(f, g, xs[1..]);
    }
  }

  // --- The whole run --------------------------------------------------------------------------

  lemma {:induction false} NothingSwept(owner: Owner, cases: seq<string>, db: seq<Row>)
    ensures Swept(owner, cases, 0, false, db) == db
  {
    if |db| > 0 { NothingSwept(owner, cases, db[1..]); }
  }

  /** What one table's statements leave of a state. */
  function Cleared(db: seq<Row>, cases: seq<string>, t: Table): seq<Row> {
    var now := Prepared(db, cases, t);
    Filter(Spared(now, cases, t), now)
  }

  lemma ClearedIsSwept(db: seq<Row>, owner: Owner, cases: seq<string>, k: nat)
    requires Sound(db, owner) && k < |DELETE_ORDER|
    ensures Cleared(Swept(owner, cases, k, Detached(k), db), cases, DELETE_ORDER[k])
         == Swept(owner, cases, k + 1, Detached(k + 1), db)
  {
    hide Sound, Prepared, Spared, Doomed, Swept, PrunedIn;
    PreparedSweeps(db, owner, cases, k);
    StatementSweeps(db, owner, cases, k);
  }

  lemma {:induction false} AfterIsSwept(db: seq<Row>, owner: Owner, cases: seq<string>, k: nat)
    requires Sound(db, owner) && k <= |DELETE_ORDER|
    ensures After(db, cases, k) == Swept(owner, cases, k, Detached(k), db)
  {
    hide Sound, Prepared, Spared, Swept, Detached;
    if k == 0 {
      NothingSwept(owner, cases, db);
      assert !Detached(0) by { NothingDetached(); }
    } else {
      AfterIsSwept(db, owner, cases, k - 1);
      ClearedIsSwept(db, owner, cases, k - 1);
    }
  }

  lemma NothingDetached()
    ensures !Detached(0)
  {
  }

  /** Nothing refers to a row that the next delete removes, not even a row removed with it. */
  ghost predicate Restricted(db: seq<Row>, doomed: Row -> bool) {
    forall r, c, p | r in db && p in db && Refers(r, c, p) :: !doomed(p)
  }

  lemma SweptIsRestricted(db: seq<Row>, owner: Owner, cases: seq<string>, k: nat, p: Row, r: Row, c: Column)
    requires Sound(db, owner) && k < |DELETE_ORDER|
    requires r in Swept(owner, cases, k, Detached(k + 1), db) && p in Swept(owner, cases, k, Detached(k + 1), db)
    requires Refers(r, c, p) && p.table == DELETE_ORDER[k]
    ensures !Pruned(owner, cases, p)
  {
    PositionIsPlace();
    var d := Detached(k + 1);
    var r0 := SweptFrom(owner, cases, k, d, db, r);
    var p0 := SweptFrom(owner, cases, k, d, db, p);
    RemainsAlike(owner, cases, k, d, r0, r);
    RemainsAlike(owner, cases, k, d, p0, p);
    assert Refers(r0, c, p0);
    ParentsComeLater(r.table, c);
  }

  /** Every statement of the run is safe under RESTRICT, and leaves no reference dangling. */
  lemma EveryStatementIsSafe(db: seq<Row>, owner: Owner, cases: seq<string>, k: nat)
    requires Sound(db, owner) && k < |DELETE_ORDER|
    ensures var before, t := After(db, cases, k), DELETE_ORDER[k];
      var now := Prepared(before, cases, t);
      && NoDangling(before) && NoDangling(now) && Restricted(now, Doomed(now, cases, t))
      && NoDangling(After(db, cases, k + 1))
  {
    hide Sound, After, Prepared, Swept, NoDangling, Restricted, Doomed, Detached;
    AfterIsSwept(db, owner, cases, k);
    AfterIsSwept(db, owner, cases, k + 1);
    PreparedSweeps(db, owner, cases, k);
    SweptNeverDangles(db, owner, cases, k, Detached(k));
    SweptNeverDangles(db, owner, cases, k, Detached(k + 1));
    SweptNeverDangles(db, owner, cases, k + 1, Detached(k + 1));
    DeleteIsRestricted(db, owner, cases, k);
  }

  lemma DeleteIsRestricted(db: seq<Row>, owner: Owner, cases: seq<string>, k: nat)
    requires Sound(db, owner) && k < |DELETE_ORDER|
    ensures var now := Swept(owner, cases, k, Detached(k + 1), db);
      Restricted(now, Doomed(now, cases, DELETE_ORDER[k]))
  {
    hide Sound, Swept, Refers, Targeted, Detached, Pruned;
    PositionIsPlace();
    var t, d := DELETE_ORDER[k], Detached(k + 1);
    var now := Swept(owner, cases, k, d, db);
    forall r, c, p | r in now && p in now && Refers(r, c, p) ensures !Doomed(now, cases, t)(p) {
      if p.table == t {
        SweptIsRestricted(db, owner, cases, k, p, r, c);
        TargetsThePruned(db, owner, cases, k, d, p);
      }
    }
  }

  function Kept(owner: Owner, cases: seq<string>): Row -> bool { (r: Row) => !Pruned(owner, cases, r) }

  lemma {:induction false} AllSwept(owner: Owner, cases: seq<string>, db: seq<Row>)
    ensures Swept(owner, cases, |DELETE_ORDER|, true, db) == Filter(Kept(owner, cases), db)
  {
    if |db| > 0 {
      PositionIsPlace();
      AllSwept(owner, cases, db[1..]);
    }
  }

  /** The run removes exactly the pruned cases' rows, and changes no other row. */
  lemma ExactlyThePrunedGo(db: seq<Row>, owner: Owner, cases: seq<string>)
    requires Sound(db, owner)
    ensures After(db, cases, |DELETE_ORDER|) == Filter(Kept(owner, cases), db)
    ensures NoDangling(After(db, cases, |DELETE_ORDER|))
  {
    hide Sound, After, Swept, NoDangling, Kept;
    AfterIsSwept(db, owner, cases, |DELETE_ORDER|);
    AllSwept(owner, cases, db);
    SweptNeverDangles(db, owner, cases, |DELETE_ORDER|, true);
  }

  /** The counts of the preview, taken before anything is deleted, are the counts of the deletes. */
  lemma CountsMatchPreview(db: seq<Row>, owner: Owner, cases: seq<string>)
    requires Sound(db, owner)
    ensures Deletions(db, cases) == Preview(db, cases)
  {
    PositionIsPlace();
    forall t: Table ensures DeletedCount(db, cases, Position(t)) == PreviewCount(db, cases, t) {
      var k := Position(t);
      AfterIsSwept(db, owner, cases, k);
      PreparedSweeps(db, owner, cases, k);
      StatementSweeps(db, owner, cases, k);
      PreviewCounts(db, owner, cases, t);
    }
  }

  lemma PreviewCounts(db: seq<Row>, owner: Owner, cases: seq<string>, t: Table)
    requires Sound(db, owner)
    ensures Filter(Doomed(db, cases, t), db) == Filter(PrunedIn(owner, cases, t), db)
  {
    NothingSwept(owner, cases, db);
    forall r | r in db && r.table == t ensures Targeted(db, cases, r) <==> Pruned(owner, cases, r) {
      TargetsThePruned(db, owner, cases, 0, false, r);
    }
    FilterAgrees(Doomed(db, cases, t), PrunedIn(owner, cases, t), db);
  }

  lemma SelectionsUnreferenced(db: seq<Row>, owner: Owner, cases: seq<string>, k: nat, r: Row, c: Column, p: Row)
    requires Sound(db, owner) && k == Position(CaseProposalSelections)
    requires r in Swept(owner, cases, k, false, db) && p in Swept(owner, cases, k, false, db) && Refers(r, c, p)
    requires p.table == CaseProposalSelections && Pruned(owner, cases, p)
    ensures r in db && r.table == CaseProposalSelections && Pruned(owner, cases, r) && ExpectedSelectionId in r.cells
  {
    var r0 := SweptFrom(owner, cases, k, false, db, r);
    var p0 := SweptFrom(owner, cases, k, false, db, p);
    RemainsAlike(owner, cases, k, false, r0, r);
    RemainsAlike(owner, cases, k, false, p0, p);
    ParentsComeLater(r.table, c);
  }

  lemma SelectionsRefer(r: Row)
    requires r.table == CaseProposalSelections
    ensures References(r.table, ExpectedSelectionId) == Some(CaseProposalSelections)
  {
  }

  lemma SelectionReferenced(db: seq<Row>, owner: Owner, cases: seq<string>, k: nat, r: Row) returns (p: Row)
    requires Sound(db, owner) && k == Position(CaseProposalSelections)
    requires r in db && r.table == CaseProposalSelections && Pruned(owner, cases, r) && ExpectedSelectionId in r.cells
    ensures r in Swept(owner, cases, k, false, db) && p in Swept(owner, cases, k, false, db)
    ensures Refers(r, ExpectedSelectionId, p) && p.table == CaseProposalSelections && Pruned(owner, cases, p)
  {
    hide Swept, Columns, Nullable, KeyOf;
    assert Answered(db, r, ExpectedSelectionId) by { SelectionsRefer(r); }
    p :| p in db && Refers(r, ExpectedSelectionId, p);
    SelectionsRefer(r);
    SweptKeeps(owner, cases, k, false, db, r);
    SweptKeeps(owner, cases, k, false, db, p);
    assert r in Remains(owner, cases, k, false, r) && p in Remains(owner, cases, k, false, p);
  }

  /** The update is what makes the selections' own delete safe: without it that statement would be
      refused exactly when a pruned selection was made over an earlier one. */
  lemma WithoutTheUpdate(db: seq<Row>, owner: Owner, cases: seq<string>)
    requires Sound(db, owner)
    ensures var k := Position(CaseProposalSelections);
      var before := After(db, cases, k);
      Restricted(before, Doomed(before, cases, CaseProposalSelections)) <==>
      forall r | r in db && r.table == CaseProposalSelections && Pruned(owner, cases, r) ::
        ExpectedSelectionId !in r.cells
  {
    var k := Position(CaseProposalSelections);
    AfterIsSwept(db, owner, cases, k);
    var before := Swept(owner, cases, k, false, db);
    forall p | p in before && p.table == CaseProposalSelections
      ensures Targeted(before, cases, p) <==> Pruned(owner, cases, p)
    {
      TargetsThePruned(db, owner, cases, k, false, p);
    }
    if r :| r in db && r.table == CaseProposalSelections && Pruned(owner, cases, r) && ExpectedSelectionId in r.cells {
      var p := SelectionReferenced(db, owner, cases, k, r);
      assert Doomed(before, cases, CaseProposalSelections)(p);
    } else {
      forall r, c, p | r in before && p in before && Refers(r, c, p)
        ensures !Doomed(before, cases, CaseProposalSelections)(p)
      {
        if p.table == CaseProposalSelections && Pruned(owner, cases, p) {
          SelectionsUnreferenced(db, owner, cases, k, r, c, p);
        }
      }
    }
  }
}
