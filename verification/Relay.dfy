/**
 * The outbox, its lease-based relay workers and the projection table:
 * internal/repository/postgres/outbox.go, projection.go and internal/service/audit/relay.go.
 * Any number of workers interleave; leases may overlap and any statement may fail.
 */
module Relay {
  import opened Common
  import opened Audit

  datatype Delivery = Pending | Delivered(at: Time)

  datatype OutboxRow = OutboxRow(event: AuditEvent, delivery: Delivery, availableAt: Time, attempts: nat)

  /** Where a worker is with the first event of its batch. */
  datatype Stage = Fetched | Projected | Rejected

  datatype Worker = Worker(queue: seq<AuditEvent>, stage: Stage)

  type WorkerId = nat

  /** `logs` is the audit_logs table; `committed` remembers every event ever inserted and is read by no step. */
  datatype State = State(
    outbox: map<Id, OutboxRow>, logs: seq<AuditEvent>, workers: map<WorkerId, Worker>,
    committed: map<Id, AuditEvent>)

  const INITIAL := State(map[], [], map[], map[])

  datatype Action =
    | Insert(event: AuditEvent, now: Time)
    | Fetch(w: WorkerId, ids: seq<Id>, now: Time, lease: Time)
    | Project(w: WorkerId)
    | ProjectFails(w: WorkerId)  // an insert that landed although it reported an error is a Project
    | Mark(w: WorkerId, at: Time)
    | RecordFailure(w: WorkerId, next: Time)
    | Skip(w: WorkerId)      // marking or recording the failure failed
    | Quit(w: WorkerId)      // crash or cancellation
    | Cleanup(cutoff: Time)

  predicate Available(row: OutboxRow, now: Time) { row.delivery.Pending? && row.availableAt <= now }

  predicate Busy(s: State, w: WorkerId) { w in s.workers && s.workers[w].queue != [] }

  /** The unique key of the projection table. */
  predicate Logged(logs: seq<AuditEvent>, id: Id) {
    exists i :: 0 <= i < |logs| && logs[i].eventId == id
  }

  predicate Distinct(ids: seq<Id>) {
    forall i, j :: 0 <= i < j < |ids| ==> ids[i] != ids[j]
  }

  predicate Enabled(s: State, a: Action) {
    match a
    case Insert(event, _) => event.eventId !in s.outbox
    case Fetch(w, ids, now, _) =>
      && !Busy(s, w) && Distinct(ids)
      && forall i :: 0 <= i < |ids| ==> ids[i] in s.outbox && Available(s.outbox[ids[i]], now)
    case Project(w) => Busy(s, w) && s.workers[w].stage.Fetched?
    case ProjectFails(w) => Busy(s, w) && s.workers[w].stage.Fetched?
    case Mark(w, _) => Busy(s, w) && s.workers[w].stage.Projected?
    case RecordFailure(w, _) => Busy(s, w) && !s.workers[w].stage.Fetched?
    case Skip(w) => Busy(s, w) && !s.workers[w].stage.Fetched?
    case Quit(w) => w in s.workers
    case Cleanup(_) => true
  }

  function AfterInsert(s: State, event: AuditEvent, now: Time): State {
    s.(outbox := s.outbox[event.eventId := OutboxRow(event, Pending, now, 0)],
       committed := s.committed[event.eventId := event])
  }

  /** One statement leases the chosen rows and hands their contents to the worker. */
  function AfterFetch(s: State, w: WorkerId, ids: seq<Id>, until: Time): State
    requires forall i :: 0 <= i < |ids| ==> ids[i] in s.outbox
  {
    s.(outbox := map id | id in s.outbox ::
                   if id in ids then s.outbox[id].(availableAt := until) else s.outbox[id],
       workers := s.workers[w := Worker(seq(|ids|, i requires 0 <= i < |ids| => s.outbox[ids[i]].event), Fetched)])
  }

  /** Insert into audit_logs, on conflict do nothing. */
  function Projection(logs: seq<AuditEvent>, event: AuditEvent): seq<AuditEvent> {
    if Logged(logs, event.eventId) then logs else logs + [event]
  }

  function Goto(s: State, w: WorkerId, stage: Stage): State
    requires w in s.workers
  {
    s.(workers := s.workers[w := s.workers[w].(stage := stage)])
  }

  function NextEvent(s: State, w: WorkerId): State
    requires Busy(s, w)
  {
    s.(workers := s.workers[w := Worker(s.workers[w].queue[1..], Fetched)])
  }

  /** An update guarded by the pending state; it changes nothing when the row is gone or delivered. */
  function UpdatePending(outbox: map<Id, OutboxRow>, id: Id, change: OutboxRow -> OutboxRow): map<Id, OutboxRow> {
    if id in outbox && outbox[id].delivery.Pending? then outbox[id := change(outbox[id])] else outbox
  }

  function AfterMark(s: State, w: WorkerId, at: Time): State
    requires Busy(s, w)
  {
    NextEvent(s, w).(outbox := UpdatePending(s.outbox, s.workers[w].queue[0].eventId,
      (row: OutboxRow) => row.(delivery := Delivered(at), attempts := row.attempts + 1)))
  }

  function AfterRecordFailure(s: State, w: WorkerId, next: Time): State
    requires Busy(s, w)
  {
    NextEvent(s, w).(outbox := UpdatePending(s.outbox, s.workers[w].queue[0].eventId,
      (row: OutboxRow) => row.(attempts := row.attempts + 1, availableAt := next)))
  }

  predicate Prunable(row: OutboxRow, cutoff: Time) { row.delivery.Delivered? && row.delivery.at < cutoff }

  function AfterCleanup(s: State, cutoff: Time): State {
    s.(outbox := map id | id in s.outbox && !Prunable(s.outbox[id], cutoff) :: s.outbox[id])
  }

  function Apply(s: State, a: Action): State
    requires Enabled(s, a)
  {
    match a
    case Insert(event, now) => AfterInsert(s, event, now)
    case Fetch(w, ids, now, lease) => AfterFetch(s, w, ids, now + lease)
    case Project(w) => Goto(s, w, Projected).(logs := Projection(s.logs, s.workers[w].queue[0]))
    case ProjectFails(w) => Goto(s, w, Rejected)
    case Mark(w, at) => AfterMark(s, w, at)
    case RecordFailure(w, next) => AfterRecordFailure(s, w, next)
    case Skip(w) => NextEvent(s, w)
    case Quit(w) => s.(workers := s.workers[w := Worker([], Fetched)])
    case Cleanup(cutoff) => AfterCleanup(s, cutoff)
  }

  // --------------------------------------------------------- the invariant

  /** Copies of one event in the projection table. */
  function Copies(logs: seq<AuditEvent>, id: Id): nat {
    if logs == [] then 0 else Copies(logs[1..], id) + (if logs[0].eventId == id then 1 else 0)
  }

  predicate LogsUnique(logs: seq<AuditEvent>) {
    forall i, j :: 0 <= i < j < |logs| ==> logs[i].eventId != logs[j].eventId
  }

  predicate Genuine(s: State, event: AuditEvent) {
    event.eventId in s.committed && s.committed[event.eventId] == event
  }

  predicate OutboxGenuine(s: State) {
    forall id :: id in s.outbox ==> s.outbox[id].event.eventId == id && Genuine(s, s.outbox[id].event)
  }

  predicate LogsGenuine(s: State) {
    forall i :: 0 <= i < |s.logs| ==> Genuine(s, s.logs[i])
  }

  predicate WorkersGenuine(s: State) {
    forall w :: w in s.workers ==>
      && (forall i :: 0 <= i < |s.workers[w].queue| ==> Genuine(s, s.workers[w].queue[i]))
      && (s.workers[w].queue != [] && s.workers[w].stage.Projected? ==> Logged(s.logs, s.workers[w].queue[0].eventId))
  }

  predicate PendingAt(s: State, id: Id) { id in s.outbox && s.outbox[id].delivery.Pending? }

  /** No event is lost: it waits in the outbox or it has reached the log. */
  predicate Conserved(s: State) {
    forall id :: id in s.committed ==>
      s.committed[id].eventId == id && (PendingAt(s, id) || Logged(s.logs, id))
  }

  predicate Inv(s: State) {
    LogsUnique(s.logs) && OutboxGenuine(s) && LogsGenuine(s) && WorkersGenuine(s) && Conserved(s)
  }

  // ------------------------------------------------------- it is inductive

  lemma InsertKeepsInv(s: State, event: AuditEvent, now: Time)
    requires Inv(s) && event.eventId !in s.committed
    ensures Inv(AfterInsert(s, event, now))
  {
    var t := AfterInsert(s, event, now);
    assert forall e :: Genuine(s, e) ==> Genuine(t, e);
    assert forall id :: PendingAt(s, id) ==> PendingAt(t, id);
  }

  lemma FetchKeepsInv(s: State, w: WorkerId, ids: seq<Id>, until: Time)
    requires Inv(s) && forall i :: 0 <= i < |ids| ==> ids[i] in s.outbox
    ensures Inv(AfterFetch(s, w, ids, until))
  {
    var t := AfterFetch(s, w, ids, until);
    assert forall e :: Genuine(s, e) <==> Genuine(t, e);
    assert forall id :: PendingAt(s, id) ==> PendingAt(t, id);
  }

  lemma ProjectionOnce(logs: seq<AuditEvent>, event: AuditEvent)
    requires LogsUnique(logs)
    ensures LogsUnique(Projection(logs, event)) && Logged(Projection(logs, event), event.eventId)
    ensures logs <= Projection(logs, event)
    ensures forall id :: Logged(logs, id) ==> Logged(Projection(logs, event), id)
  {
    var grown := Projection(logs, event);
    if !Logged(logs, event.eventId) { assert grown[|logs|] == event; }
    forall id | Logged(logs, id) ensures Logged(grown, id) {
      var i :| 0 <= i < |logs| && logs[i].eventId == id;
      assert grown[i] == logs[i];
    }
  }

  lemma ProjectKeepsInv(s: State, w: WorkerId, t: State)
    requires Inv(s) && Busy(s, w)
    requires t == Goto(s, w, Projected).(logs := Projection(s.logs, s.workers[w].queue[0]))
    ensures Inv(t)
  {
    var event := s.workers[w].queue[0];
    ProjectionOnce(s.logs, event);
    assert forall e :: Genuine(s, e) <==> Genuine(t, e);
    assert forall i :: 0 <= i < |t.logs| ==> t.logs[i] == event || (i < |s.logs| && t.logs[i] == s.logs[i]);
    assert forall id :: PendingAt(s, id) ==> PendingAt(t, id);
  }

  /** A guarded update may deliver a row only once its event is in the log. */
  lemma UpdateKeepsInv(s: State, w: WorkerId, change: OutboxRow -> OutboxRow)
    requires Inv(s) && Busy(s, w)
    requires forall row :: change(row).event == row.event
    requires s.workers[w].stage.Projected? || forall row :: change(row).delivery == row.delivery
    ensures Inv(NextEvent(s, w).(outbox := UpdatePending(s.outbox, s.workers[w].queue[0].eventId, change)))
  {
    var event := s.workers[w].queue[0];
    var t := NextEvent(s, w).(outbox := UpdatePending(s.outbox, event.eventId, change));
    assert forall e :: Genuine(s, e) <==> Genuine(t, e);
    forall id | id in t.committed
      ensures t.committed[id].eventId == id && (PendingAt(t, id) || Logged(t.logs, id))
    {
      if id != event.eventId { assert PendingAt(s, id) ==> PendingAt(t, id); }
    }
  }

  lemma CleanupKeepsInv(s: State, cutoff: Time)
    requires Inv(s)
    ensures Inv(AfterCleanup(s, cutoff))
  {
    var t := AfterCleanup(s, cutoff);
    assert forall e :: Genuine(s, e) <==> Genuine(t, e);
    assert forall id :: PendingAt(s, id) ==> PendingAt(t, id);
  }

  lemma WorkerMovesKeepInv(s: State, w: WorkerId, worker: Worker)
    requires Inv(s)
    requires forall i :: 0 <= i < |worker.queue| ==> Genuine(s, worker.queue[i])
    requires !worker.stage.Projected?
    ensures Inv(s.(workers := s.workers[w := worker]))
  {
    var t := s.(workers := s.workers[w := worker]);
    assert forall e :: Genuine(s, e) <==> Genuine(t, e);
    assert forall id :: PendingAt(s, id) ==> PendingAt(t, id);
  }

  lemma StepKeepsInv(s: State, a: Action)
    requires Inv(s) && Enabled(s, a) && (a.Insert? ==> a.event.eventId !in s.committed)
    ensures Inv(Apply(s, a))
  {
    match a
    case Insert(event, now) => InsertKeepsInv(s, event, now);
    case Fetch(w, ids, now, lease) => FetchKeepsInv(s, w, ids, now + lease);
    case Project(w) => ProjectKeepsInv(s, w, Apply(s, a));
    case ProjectFails(w) => WorkerMovesKeepInv(s, w, s.workers[w].(stage := Rejected));
    case Mark(w, at) =>
      UpdateKeepsInv(s, w, (row: OutboxRow) => row.(delivery := Delivered(at), attempts := row.attempts + 1));
    case RecordFailure(w, next) =>
      UpdateKeepsInv(s, w, (row: OutboxRow) => row.(attempts := row.attempts + 1, availableAt := next));
    case Skip(w) => WorkerMovesKeepInv(s, w, Worker(s.workers[w].queue[1..], Fetched));
    case Quit(w) => WorkerMovesKeepInv(s, w, Worker([], Fetched));
    case Cleanup(cutoff) => CleanupKeepsInv(s, cutoff);
  }
}
