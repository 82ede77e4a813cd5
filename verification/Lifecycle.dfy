/**
 * Creating, finalising and deleting disbursements: the transaction bodies of
 * internal/service/disbursement/service.go over the guarded statements of
 * internal/repository/postgres/disbursement.go. Transactions interleave statement by statement;
 * an update waits for the row lock and then judges the latest committed row.
 */
module Lifecycle {
  import opened Common
  import opened Domain
  import A = Audit

  type TxId = nat

  datatype Kind = Creating | Finalising(decision: Decision) | Deleting

  datatype Reply =
    | Committed(after: Disbursement)
    | AlreadyGone(existing: Disbursement)  // repeated delete, answered as success
    | NotFound
    | AlreadyFinalized                     // conflict: the row has a decision
    | ConcurrentUpdate                     // conflict: the row is still open
    | NotDeletable                         // constraint: a decided row cannot be deleted
    | ConcurrentDelete                     // conflict: the row is still open
    | Failed

  datatype Phase =
    | Reading                // pre-read done; about to run the guarded update
    | Missed                 // the update matched no row; about to ask why
    | Updated(row: Row)      // row change staged
    | Staged(row: Row, event: A.AuditEvent)  // row change and audit event staged; about to commit
    | Done(reply: Reply)

  /** A transaction; its phase holds the uncommitted writes, `before` is what the pre-read found. */
  datatype Tx = Tx(
    kind: Kind, target: Id, actor: Id, request: Id, before: Option<Disbursement>, phase: Phase)

  /** One committed mutation, with the rows on both sides of it; no step reads these. */
  datatype Entry = Entry(
    target: Id, kind: Kind, event: A.AuditEvent, preRead: Option<Disbursement>,
    rowBefore: Option<Row>, rowAfter: Row)

  datatype State = State(
    rows: map<Id, Row>, locks: map<Id, TxId>, txs: map<TxId, Tx>, issued: set<Id>, history: seq<Entry>)

  ghost predicate Init(s: State) { s == State(map[], map[], map[], {}, []) }

  datatype Config = Config(fold: string -> string, codec: A.Codec)

  datatype Action =
    | BeginCreate(t: TxId, input: CreateInput, id: Id, actor: Id, request: Id, now: Time)
    | PreRead(t: TxId, kind: Kind, target: Id, actor: Id, request: Id)
    | Update(t: TxId, now: Time)
    | Diagnose(t: TxId)
    | StageEvent(t: TxId, eventId: Id, now: Time)
    | Commit(t: TxId, acknowledged: bool)
    | Abort(t: TxId)

  function StoredRow(s: State, id: Id): Option<Row> {
    if id in s.rows then Some(s.rows[id]) else None
  }

  /** `FindByID`: deleted rows are not found. */
  function FindByID(s: State, id: Id): Option<Disbursement> {
    if id in s.rows && s.rows[id].deletedAt.None? then Some(FromRow(s.rows[id])) else None
  }

  predicate HoldsLock(tx: Tx) { !tx.kind.Creating? && (tx.phase.Updated? || tx.phase.Staged?) }

  predicate Free(s: State, id: Id, t: TxId) { id in s.locks ==> s.locks[id] == t }

  ghost predicate Enabled(cfg: Config, s: State, a: Action) {
    match a
    case BeginCreate(t, input, id, actor, request, now) =>
      t !in s.txs && ValidInput(cfg.fold, input) && id != NIL && id !in s.issued
    case PreRead(t, kind, target, actor, request) =>
      && t !in s.txs && !kind.Creating?
      && (kind.Finalising? ==> ValidDecision(kind.decision) && kind.decision.actorId == actor)
    case Update(t, _) => t in s.txs && s.txs[t].phase.Reading? && Free(s, s.txs[t].target, t)
    case Diagnose(t) => t in s.txs && s.txs[t].phase.Missed?
    case StageEvent(t, eventId, _) => t in s.txs && s.txs[t].phase.Updated? && eventId !in s.issued
    case Commit(t, _) => t in s.txs && s.txs[t].phase.Staged?
    case Abort(t) => t in s.txs && !s.txs[t].phase.Done?
  }

  /** End the transaction without its writes. */
  function Rollback(s: State, t: TxId, reply: Reply): State
    requires t in s.txs
  {
    var id := s.txs[t].target;
    s.(locks := if id in s.locks && s.locks[id] == t then s.locks - {id} else s.locks,
       txs := s.txs[t := s.txs[t].(phase := Done(reply))])
  }

  function AfterBeginCreate(cfg: Config, s: State, t: TxId, input: CreateInput, id: Id, actor: Id, request: Id,
                            now: Time): State
  {
    var row := ToRow(NewDisbursement(cfg.fold, input, id, actor, now));
    s.(txs := s.txs[t := Tx(Creating, id, actor, request, None, Updated(row))],
       issued := s.issued + {id})
  }

  /** The read runs outside the transaction; only a delete goes on when it finds nothing. */
  function AfterPreRead(s: State, t: TxId, kind: Kind, target: Id, actor: Id, request: Id): State {
    var before := FindByID(s, target);
    var phase := if kind.Finalising? && before.None? then Done(NotFound) else Reading;
    s.(txs := s.txs[t := Tx(kind, target, actor, request, before, phase)])
  }

  function Changed(kind: Kind, row: Row, now: Time): Row {
    match kind
    case Creating => row
    case Finalising(decision) => Decided(row, decision, now)
    case Deleting => Deleted(row, now)
  }

  /** The guarded update: it takes the lock only on a row it changes. */
  function AfterUpdate(s: State, t: TxId, now: Time): State
    requires t in s.txs
  {
    var tx := s.txs[t];
    if tx.target in s.rows && Open(s.rows[tx.target]) then
      s.(locks := s.locks[tx.target := t],
         txs := s.txs[t := tx.(phase := Updated(Changed(tx.kind, s.rows[tx.target], now)))])
    else
      s.(txs := s.txs[t := tx.(phase := Missed)])
  }

  /** What the service tells a caller whose update matched no row. */
  function Diagnosis(kind: Kind, row: Option<Row>): Reply {
    if row.None? then NotFound
    else if row.value.deletedAt.Some? then (if kind.Deleting? then AlreadyGone(FromRow(row.value)) else NotFound)
    else if row.value.status != Pending then (if kind.Deleting? then NotDeletable else AlreadyFinalized)
    else (if kind.Deleting? then ConcurrentDelete else ConcurrentUpdate)
  }

  function AfterDiagnose(s: State, t: TxId): State
    requires t in s.txs
  {
    Rollback(s, t, Diagnosis(s.txs[t].kind, StoredRow(s, s.txs[t].target)))
  }

  function ActionName(kind: Kind): A.Action {
    match kind
    case Creating => A.Created
    case Finalising(decision) => if decision.status == Rejected then A.RejectedAction else A.ApprovedAction
    case Deleting => A.DeletedAction
  }

  /** The zero value a delete snapshots when its pre-read found nothing. */
  const ZERO := Disbursement(NIL, "", "", "", 0, 0, NoStatus, "", NIL, NIL, "", None, None, 0, 0)

  function BeforeSnapshot(tx: Tx): Option<Disbursement> {
    if tx.kind.Creating? then None else Some(OrElse(tx.before, ZERO))
  }

  function OccurredAt(kind: Kind, after: Disbursement, now: Time): Time {
    match kind
    case Creating => after.createdAt
    case Finalising(_) => OrElse(after.decidedAt, now)
    case Deleting => OrElse(after.deletedAt, now)
  }

  function EventFor(codec: A.Codec, tx: Tx, row: Row, eventId: Id, now: Time): Option<A.AuditEvent> {
    var after := FromRow(row);
    A.NewAuditEvent(codec, eventId, after.id, ActionName(tx.kind), tx.actor, tx.request, BeforeSnapshot(tx), after,
                    OccurredAt(tx.kind, after, now))
  }

  function AfterStageEvent(cfg: Config, s: State, t: TxId, eventId: Id, now: Time): State
    requires t in s.txs && s.txs[t].phase.Updated?
  {
    var tx := s.txs[t];
    var event := EventFor(cfg.codec, tx, tx.phase.row, eventId, now);
    if event.None? then Rollback(s, t, Failed)
    else s.(txs := s.txs[t := tx.(phase := Staged(tx.phase.row, event.value))], issued := s.issued + {eventId})
  }

  function EntryOf(s: State, tx: Tx): Entry
    requires tx.phase.Staged?
  {
    Entry(tx.target, tx.kind, tx.phase.event, tx.before, StoredRow(s, tx.target), tx.phase.row)
  }

  function AfterCommit(s: State, t: TxId, acknowledged: bool): State
    requires t in s.txs && s.txs[t].phase.Staged?
  {
    var tx := s.txs[t];
    Rollback(s.(rows := s.rows[tx.target := tx.phase.row], history := s.history + [EntryOf(s, tx)]),
             t, if acknowledged then Committed(FromRow(tx.phase.row)) else Failed)
  }

  ghost function Apply(cfg: Config, s: State, a: Action): State
    requires Enabled(cfg, s, a)
  {
    match a
    case BeginCreate(t, input, id, actor, request, now) => AfterBeginCreate(cfg, s, t, input, id, actor, request, now)
    case PreRead(t, kind, target, actor, request) => AfterPreRead(s, t, kind, target, actor, request)
    case Update(t, now) => AfterUpdate(s, t, now)
    case Diagnose(t) => AfterDiagnose(s, t)
    case StageEvent(t, eventId, now) => AfterStageEvent(cfg, s, t, eventId, now)
    case Commit(t, acknowledged) => AfterCommit(s, t, acknowledged)
    case Abort(t) => Rollback(s, t, Failed)
  }

  ghost predicate Next(cfg: Config, s: State, a: Action, s': State) {
    Enabled(cfg, s, a) && s' == Apply(cfg, s, a)
  }

  ghost predicate IsRun(cfg: Config, states: seq<State>, actions: seq<Action>) {
    && |states| == |actions| + 1
    && Init(states[0])
    && forall i :: 0 <= i < |actions| ==> Next(cfg, states[i], actions[i], states[i + 1])
  }
}
