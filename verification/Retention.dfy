/** Retention of presenter Case aggregates (services/persistence/presenter_runs.py): an ordered
    cascade of deletes whose predicates query tables that the same cascade empties. */
module Retention {
  import opened Basics

  datatype Table =
    | CaseProjection | OutcomeObservations | SupplierEmailRevisions | SupplierEmailDeliveries | DraftArtifacts
    | ExecutionAttempts | ExecutionEvents | ActionProjection | Playbacks | OutboxEvents | ApprovalSatisfactions
    | ExecutionActions | CaseProposalSelections | FinanceReviewRevisions | Decisions | EvidenceItems
    | AnalysisVersions | AnalysisClaims | OperationalSnapshots | CaseInstances

  const DELETE_ORDER: seq<Table> :=
    [CaseProjection, OutcomeObservations, SupplierEmailRevisions, SupplierEmailDeliveries, DraftArtifacts,
     ExecutionAttempts, ExecutionEvents, ActionProjection, Playbacks, OutboxEvents, ApprovalSatisfactions,
     ExecutionActions, CaseProposalSelections, FinanceReviewRevisions, Decisions, EvidenceItems,
     AnalysisVersions, AnalysisClaims, OperationalSnapshots, CaseInstances]

  /** The key columns; a review's (id, revision) pair counts as one column. */
  datatype Column =
    | CaseId | AnalysisId | DecisionId | ActionId | PlaybackId | SelectionId | ReviewKey
    | CurrentAnalysisId | CurrentSelectionId | CurrentDecisionId | ExpectedSelectionId | FinanceReview

  /** A stored row: its table, its identity in the file, and the key columns that are not NULL. */
  datatype Row = Row(table: Table, rowId: nat, cells: map<Column, string>)

  function Position(t: Table): nat {
    match t
    case CaseProjection => 0 case OutcomeObservations => 1 case SupplierEmailRevisions => 2
    case SupplierEmailDeliveries => 3 case DraftArtifacts => 4 case ExecutionAttempts => 5 case ExecutionEvents => 6
    case ActionProjection => 7 case Playbacks => 8 case OutboxEvents => 9 case ApprovalSatisfactions => 10
    case ExecutionActions => 11 case CaseProposalSelections => 12 case FinanceReviewRevisions => 13
    case Decisions => 14 case EvidenceItems => 15 case AnalysisVersions => 16 case AnalysisClaims => 17
    case OperationalSnapshots => 18 case CaseInstances => 19
  }

  // --- The schema ------------------------------------------------------------------

  function Columns(t: Table): set<Column> {
    match t
    case CaseProjection => {CaseId, CurrentAnalysisId, CurrentSelectionId, CurrentDecisionId}
    case OutcomeObservations => {CaseId, DecisionId, PlaybackId, ActionId}
    case SupplierEmailRevisions | DraftArtifacts | ExecutionAttempts | ExecutionEvents => {DecisionId, ActionId}
    case SupplierEmailDeliveries | OutboxEvents => {DecisionId}
    case ActionProjection | ExecutionActions => {ActionId, CaseId, DecisionId}
    case Playbacks => {PlaybackId, CaseId, DecisionId}
    case ApprovalSatisfactions => {AnalysisId, DecisionId}
    case CaseProposalSelections => {SelectionId, CaseId, AnalysisId, FinanceReview, ExpectedSelectionId}
    case FinanceReviewRevisions => {ReviewKey, CaseId, AnalysisId}
    case Decisions => {DecisionId, CaseId, AnalysisId}
    case EvidenceItems | AnalysisVersions => {AnalysisId, CaseId}
    case AnalysisClaims | OperationalSnapshots | CaseInstances => {CaseId}
  }

  function Nullable(t: Table): set<Column> {
    match t
    case CaseProjection => {CurrentAnalysisId, CurrentSelectionId, CurrentDecisionId}
    case OutcomeObservations => {PlaybackId, ActionId}
    case ApprovalSatisfactions => {DecisionId}
    case CaseProposalSelections => {FinanceReview, ExpectedSelectionId}
    case _ => {}
  }

  /** The table a column refers to, and the primary key there. */
  function References(t: Table, c: Column): Option<Table> {
    if c !in Columns(t) then None
    else match c
      case CaseId => if t == CaseInstances || t == ActionProjection then None else Some(CaseInstances)
      case AnalysisId => if t == AnalysisVersions then None else Some(AnalysisVersions)
      case DecisionId => if t == Decisions then None else Some(Decisions)
      case ActionId => if t == ExecutionActions then None else Some(ExecutionActions)
      case PlaybackId => if t == Playbacks then None else Some(Playbacks)
      case CurrentAnalysisId => Some(AnalysisVersions)
      case CurrentSelectionId | ExpectedSelectionId => Some(CaseProposalSelections)
      case CurrentDecisionId => Some(Decisions)
      case FinanceReview => Some(FinanceReviewRevisions)
      case SelectionId | ReviewKey => None
  }

  function KeyOf(t: Table): Column {
    match t
    case AnalysisVersions => AnalysisId
    case Decisions => DecisionId
    case ExecutionActions => ActionId
    case Playbacks => PlaybackId
    case CaseProposalSelections => SelectionId
    case FinanceReviewRevisions => ReviewKey
    case _ => CaseId
  }

  predicate Refers(r: Row, c: Column, p: Row) {
    && References(r.table, c) == Some(p.table) && c in r.cells
    && KeyOf(p.table) in p.cells && r.cells[c] == p.cells[KeyOf(p.table)]
  }

  predicate Conforms(r: Row) { Columns(r.table) - Nullable(r.table) <= r.cells.Keys <= Columns(r.table) }

  ghost predicate NoDangling(db: seq<Row>) {
    forall r, c | r in db && c in r.cells && References(r.table, c).Some? :: Answered(db, r, c)
  }

  ghost predicate Answered(db: seq<Row>, r: Row, c: Column) { exists p :: p in db && Refers(r, c, p) }

  // --- The statements ------------------------------------------------------------------

  const QUERIED: set<Column> := {CaseId, AnalysisId, DecisionId, ActionId, PlaybackId}

  /** Parents are found by their case alone, the other tables by every key they have. */
  function TestedKeys(t: Table): set<Column> {
    if t == CaseInstances || t == AnalysisVersions || t == Decisions || t == ExecutionActions || t == Playbacks
    then {CaseId} else QUERIED * Columns(t)
  }

  function ParentOf(c: Column): Table {
    match c
    case AnalysisId => AnalysisVersions
    case DecisionId => Decisions
    case ActionId => ExecutionActions
    case PlaybackId => Playbacks
    case _ => CaseInstances
  }

  predicate OfCases(r: Row, cases: seq<string>) { CaseId in r.cells && r.cells[CaseId] in cases }

  /** The subquery for one key, on the tables as they are when the statement runs. */
  predicate Queried(db: seq<Row>, cases: seq<string>, c: Column, value: string) {
    if c == CaseId then value in cases
    else exists p :: p in db && p.table == ParentOf(c) && OfCases(p, cases) && c in p.cells && p.cells[c] == value
  }

  predicate Targeted(db: seq<Row>, cases: seq<string>, r: Row) {
    exists c :: c in TestedKeys(r.table) && c in r.cells && Queried(db, cases, c, r.cells[c])
  }

  function Doomed(db: seq<Row>, cases: seq<string>, t: Table): Row -> bool {
    (r: Row) => r.table == t && Targeted(db, cases, r)
  }

  function Spared(db: seq<Row>, cases: seq<string>, t: Table): Row -> bool {
    (r: Row) => !(r.table == t && Targeted(db, cases, r))
  }

  function Detach(r: Row): Row { r.(cells := r.cells - {ExpectedSelectionId}) }

  function DetachDoomed(db: seq<Row>, cases: seq<string>): Row -> Row {
    (r: Row) => if r.table == CaseProposalSelections && Targeted(db, cases, r) then Detach(r) else r
  }

  /** The UPDATE that runs just before the selections are deleted. */
  function Prepared(db: seq<Row>, cases: seq<string>, t: Table): seq<Row> {
    if t == CaseProposalSelections then Map(DetachDoomed(db, cases), db) else db
  }

  /** The database after the statements of the first k tables. */
  function After(db: seq<Row>, cases: seq<string>, k: nat): seq<Row>
    requires k <= |DELETE_ORDER|
    decreases k, |db|
  {
    if k == 0 then db
    else
      var t := DELETE_ORDER[k - 1];
      var now := Prepared(After(db, cases, k - 1), cases, t);
      Filter(Spared(now, cases, t), now)
  }

  function PreviewCount(db: seq<Row>, cases: seq<string>, t: Table): nat {
    if |cases| == 0 then 0 else |Filter(Doomed(db, cases, t), db)|
  }

  function DeletedCount(db: seq<Row>, cases: seq<string>, k: nat): nat
    requires k < |DELETE_ORDER|
  {
    if |cases| == 0 then 0
    else
      var now := Prepared(After(db, cases, k), cases, DELETE_ORDER[k]);
      |Filter(Doomed(now, cases, DELETE_ORDER[k]), now)|
  }

  function Preview(db: seq<Row>, cases: seq<string>): map<Table, nat> {
    map t | t in DELETE_ORDER :: PreviewCount(db, cases, t)
  }

  /** The number of rows each table's delete removes, on the tables as it finds them. */
  function Deletions(db: seq<Row>, cases: seq<string>): map<Table, nat> {
    PositionIsPlace();
    map t: Table | t in DELETE_ORDER :: DeletedCount(db, cases, Position(t))
  }

  lemma PositionIsPlace()
    ensures forall k | 0 <= k < |DELETE_ORDER| :: Position(DELETE_ORDER[k]) == k
    ensures forall t: Table :: Position(t) < |DELETE_ORDER| && DELETE_ORDER[Position(t)] == t
    ensures forall t: Table :: t in DELETE_ORDER
  {
    forall t: Table ensures Position(t) < |DELETE_ORDER| && DELETE_ORDER[Position(t)] == t {
      match t { case CaseProjection => case _ => }
    }
    forall t: Table ensures t in DELETE_ORDER { assert DELETE_ORDER[Position(t)] == t; }
  }

  ghost predicate Counted(db: seq<Row>, cases: seq<string>, deleted: map<Table, nat>, k: nat) {
    && (forall t: Table :: t in deleted)
    && (forall t: Table | Position(t) < k && k <= |DELETE_ORDER| :: deleted[t] == DeletedCount(db, cases, Position(t)))
    && (forall t: Table | Position(t) >= k :: deleted[t] == 0)
  }

  lemma CountedNext(db: seq<Row>, cases: seq<string>, deleted: map<Table, nat>, k: nat, count: nat)
    requires k < |DELETE_ORDER| && Counted(db, cases, deleted, k) && count == DeletedCount(db, cases, k)
    ensures Counted(db, cases, deleted[DELETE_ORDER[k] := count], k + 1)
  {
    hide DeletedCount, Position;
    var place := DELETE_ORDER[k];
    PlaceIsUnique(k);
    hide DELETE_ORDER;
    assert forall t: Table :: Position(t) == k <==> t == place;
  }

  lemma PlaceIsUnique(k: nat)
    requires k < |DELETE_ORDER|
    ensures forall t: Table :: Position(t) == k <==> t == DELETE_ORDER[k]
  {
    PositionIsPlace();
  }

  lemma AllCounted(db: seq<Row>, cases: seq<string>, deleted: map<Table, nat>)
    requires if |cases| == 0 then deleted == map t: Table | t in DELETE_ORDER :: 0
             else Counted(db, cases, deleted, |DELETE_ORDER|)
    ensures deleted == Deletions(db, cases)
  {
    PositionIsPlace();
  }

  lemma {:induction false} Partition<T>(keep: T -> bool, drop: T -> bool, xs: seq<T>)
    requires forall x | x in xs :: keep(x) <==> !drop(x)
    ensures |Filter(drop, xs)| == |xs| - |Filter(keep, xs)|
  {
    if |xs| > 0 {
      assert xs[0] in xs && forall x | x in xs[1..] :: x in xs;
      Partition(keep, drop, xs[1..]);
    }
  }

  /** The aggregate tables, deleted from one statement after another. */
  class AggregateStore {
    var rows: seq<Row>

    constructor (rows: seq<Row>)
      ensures this.rows == rows
    {
      this.rows := rows;
    }

    method Update(cases: seq<string>)
      modifies this
      ensures rows == Prepared(old(rows), cases, CaseProposalSelections)
    {
      rows := Map(DetachDoomed(rows, cases), rows);
    }

    /** Deletes the targeted rows of one table and reports how many there were. */
    method Delete(t: Table, cases: seq<string>) returns (count: nat)
      modifies this
      ensures rows == Filter(Spared(old(rows), cases, t), old(rows))
      ensures count == |Filter(Doomed(old(rows), cases, t), old(rows))|
    {
      var spared := Filter(Spared(rows, cases, t), rows);
      Partition(Spared(rows, cases, t), Doomed(rows, cases, t), rows);
      count := |rows| - |spared|;
      rows := spared;
    }

    method DeleteTable(k: nat, cases: seq<string>, ghost original: seq<Row>) returns (count: nat)
      requires k < |DELETE_ORDER| && |cases| > 0 && rows == After(original, cases, k)
      modifies this
      ensures rows == After(original, cases, k + 1)
      ensures count == DeletedCount(original, cases, k)
    {
      var t := DELETE_ORDER[k];
      if t == CaseProposalSelections { Update(cases); }
      count := Delete(t, cases);
    }

    method DeleteAggregates(cases: seq<string>) returns (deleted: map<Table, nat>)
      modifies this
      ensures rows == if |cases| == 0 then old(rows) else After(old(rows), cases, |DELETE_ORDER|)
      ensures deleted == Deletions(old(rows), cases)
    {
      deleted := map t: Table | t in DELETE_ORDER :: 0;
      ghost var original := rows;
      if |cases| > 0 {
        PositionIsPlace();
        var k := 0;
        while k < |DELETE_ORDER|
          invariant k <= |DELETE_ORDER|
          invariant rows == After(original, cases, k)
          invariant Counted(original, cases, deleted, k)
        {
          var count := DeleteTable(k, cases, original);
          CountedNext(original, cases, deleted, k, count);
          deleted := deleted[DELETE_ORDER[k] := count];
          k := k + 1;
        }
      }
      AllCounted(original, cases, deleted);
    }
  }
}
