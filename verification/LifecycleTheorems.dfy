/** The promises of the disbursement lifecycle, for every run. */
module LifecycleTheorems {
  import opened Common
  import opened Domain
  import opened Lifecycle
  import opened LifecycleProof
  import A = Audit

  // ------------------------------------------------- the audit trail of a row

  /** The committed mutations of one disbursement, in commit order. */
  function Trail(h: seq<Entry>, id: Id): seq<Entry> {
    if h == [] then []
    else Trail(h[..|h| - 1], id) + (if h[|h| - 1].target == id then [h[|h| - 1]] else [])
  }

  /**
   * One creation, then at most one closing mutation that starts from exactly the created row; the
   * last entry leaves the row that is stored now.
   */
  ghost predicate TrailTells(codec: A.Codec, trail: seq<Entry>, row: Option<Row>) {
    && |trail| <= 2
    && (row.None? <==> trail == [])
    && (forall i :: 0 <= i < |trail| ==> EntryOk(codec, trail[i]))
    && (trail != [] ==>
         && trail[0].kind.Creating?
         && row == Some(trail[|trail| - 1].rowAfter))
    && (|trail| == 2 ==>
         && !trail[1].kind.Creating?
         && trail[1].rowBefore == Some(trail[0].rowAfter))
  }

  ghost predicate TrailsTell(cfg: Config, s: State) {
    forall id :: TrailTells(cfg.codec, Trail(s.history, id), StoredRow(s, id))
  }

  lemma TrailExtends(h: seq<Entry>, e: Entry, id: Id)
    ensures Trail(h + [e], id) == Trail(h, id) + (if e.target == id then [e] else [])
  {
    assert (h + [e])[..|h|] == h;
  }

  lemma TrailGrows(codec: A.Codec, trail: seq<Entry>, row: Option<Row>, e: Entry)
    requires TrailTells(codec, trail, row) && EntryOk(codec, e) && e.rowBefore == row
    ensures TrailTells(codec, trail + [e], Some(e.rowAfter))
  {
    if trail != [] {
      assert EntryOk(codec, trail[|trail| - 1]);
    }
  }

  lemma GoodStepKeepsTrails(cfg: Config, s: State, s': State, t: TxId)
    requires Local(s, s', t) && RowStep(cfg, s, s', t) && TrailsTell(cfg, s)
    ensures TrailsTell(cfg, s')
  {
    forall id ensures TrailTells(cfg.codec, Trail(s'.history, id), StoredRow(s', id)) {
      assert TrailTells(cfg.codec, Trail(s.history, id), StoredRow(s, id));
      if s'.history != s.history {
        var e := s'.history[|s'.history| - 1];
        TrailExtends(s.history, e, id);
        if id == e.target { TrailGrows(cfg.codec, Trail(s.history, id), StoredRow(s, id), e); }
      }
    }
  }

  lemma {:induction false} RunTellsTrails(cfg: Config, states: seq<State>, actions: seq<Action>, n: nat)
    requires IsRun(cfg, states, actions) && n < |states|
    ensures TrailsTell(cfg, states[n])
  {
    if n > 0 {
      RunTellsTrails(cfg, states, actions, n - 1);
      RunIsSafe(cfg, states, actions, n - 1);
      StepKeepsSafe(cfg, states[n - 1], states[n], actions[n - 1]);
      GoodStepKeepsTrails(cfg, states[n - 1], states[n], actions[n - 1].t);
    }
  }

  /**
   * The audit history reconstructs the row: its events are one creation and at most one approval,
   * rejection or deletion; the last after-snapshot is the row as it stands; a before-snapshot that
   * the pre-read found, although read outside the transaction, is the row just before the update.
   */
  lemma AuditHistoryReconstructsRow(cfg: Config, states: seq<State>, actions: seq<Action>, n: nat, id: Id)
    requires IsRun(cfg, states, actions) && n < |states| && id in states[n].rows
    ensures var trail := Trail(states[n].history, id);
            && 1 <= |trail| <= 2
            && trail[0].event.action == A.Created && trail[0].event.before.None? && Open(trail[0].rowAfter)
            && trail[0].event.after == Some(A.Snapshot(cfg.codec, FromRow(trail[0].rowAfter)))
            && trail[|trail| - 1].event.after == Some(A.Snapshot(cfg.codec, FromRow(states[n].rows[id])))
            && (|trail| == 1 ==> Open(states[n].rows[id]))
            && (|trail| == 2 ==>
                 && !Open(states[n].rows[id]) && trail[1].rowBefore == Some(trail[0].rowAfter)
                 && trail[1].event.action == ActionName(trail[1].kind) && !trail[1].kind.Creating?
                 && (trail[1].preRead.Some? ==> trail[1].event.before == trail[0].event.after))
  {
    RunTellsTrails(cfg, states, actions, n);
    var trail := Trail(states[n].history, id);
    assert TrailTells(cfg.codec, trail, StoredRow(states[n], id));
    assert EntryOk(cfg.codec, trail[0]) && EntryOk(cfg.codec, trail[|trail| - 1]);
  }

  /** What was asked for at creation; no later mutation touches it. */
  predicate SameRequest(a: Row, b: Row) {
    && a.id == b.id && a.recipientName == b.recipientName && a.accountNumber == b.accountNumber
    && a.bankCode == b.bankCode
    && a.amount == b.amount && a.adminFee == b.adminFee && a.note == b.note
    && a.createdBy == b.createdBy && a.createdAt == b.createdAt
  }

  /** The row carries the decision, who made it and when, exactly as its audit event has them. */
  predicate ShowsDecision(row: Row, e: Entry) {
    && e.kind.Finalising? && row.status == e.kind.decision.status
    && OrElse(row.decisionNote, "") == e.kind.decision.note
    && row.decidedBy == Some(e.event.actorId) && row.decidedAt == Some(e.event.occurredAt)
    && row.updatedAt == e.event.occurredAt && row.deletedAt.None?
    && e.event.action == if row.status == Approved then A.ApprovedAction else A.RejectedAction
  }

  /** The row carries the deletion, and still no decision. */
  predicate ShowsDeletion(row: Row, e: Entry) {
    && e.kind.Deleting? && row.status == Pending && row.decidedBy.None? && row.decidedAt.None? && row.decisionNote.None?
    && row.deletedAt == Some(e.event.occurredAt) && row.updatedAt == e.event.occurredAt
    && e.event.action == A.DeletedAction
  }

  /**
   * A closed row is the created one with the decision or the deletion that its second event tells,
   * and nothing else changed.
   */
  lemma ClosedRowShowsItsEvent(cfg: Config, states: seq<State>, actions: seq<Action>, n: nat, id: Id)
    requires IsRun(cfg, states, actions) && n < |states| && id in states[n].rows && !Open(states[n].rows[id])
    ensures var trail, row := Trail(states[n].history, id), states[n].rows[id];
            && |trail| == 2 && SameRequest(trail[0].rowAfter, row)
            && trail[0].event.actorId == row.createdBy && trail[0].event.occurredAt == row.createdAt
            && (ShowsDecision(row, trail[1]) || ShowsDeletion(row, trail[1]))
  {
    RunTellsTrails(cfg, states, actions, n);
    var trail := Trail(states[n].history, id);
    assert TrailTells(cfg.codec, trail, StoredRow(states[n], id));
    assert EntryOk(cfg.codec, trail[0]) && EntryOk(cfg.codec, trail[|trail| - 1]);
    ClosingEntry(cfg.codec, trail[1]);
  }

  lemma ClosingEntry(codec: A.Codec, e: Entry)
    requires EntryOk(codec, e) && !e.kind.Creating? && e.rowBefore.value.decisionNote.None?
    ensures SameRequest(e.rowBefore.value, e.rowAfter)
    ensures ShowsDecision(e.rowAfter, e) || ShowsDeletion(e.rowAfter, e)
  {
    var now :| e.rowAfter == Changed(e.kind, e.rowBefore.value, now);
  }

  // ------------------------------------------------------ closing is final

  lemma ClosedRowStays(cfg: Config, s: State, s': State, t: TxId, id: Id)
    requires GoodStep(cfg, s, s', t) && id in s.rows
    ensures id in s'.rows
    ensures !Open(s.rows[id]) ==> s'.rows[id] == s.rows[id]
    ensures Open(s'.rows[id]) ==> s'.rows[id] == s.rows[id]
  {
    assert StoredRow(s, id) == Some(s.rows[id]);
    if StoredRow(s', id) != StoredRow(s, id) { assert id == s'.txs[t].target; }
  }

  /** Of all finalise and delete calls on one row at most one takes effect; what it leaves never changes. */
  lemma {:induction false} ClosingIsFinal(cfg: Config, states: seq<State>, actions: seq<Action>, n: nat, m: nat, id: Id)
    requires IsRun(cfg, states, actions) && n <= m < |states| && id in states[n].rows
    ensures id in states[m].rows
    ensures !Open(states[n].rows[id]) ==> states[m].rows[id] == states[n].rows[id]
    ensures Open(states[m].rows[id]) ==> states[m].rows[id] == states[n].rows[id]
    decreases m
  {
    if n < m {
      ClosingIsFinal(cfg, states, actions, n, m - 1, id);
      RunIsSafe(cfg, states, actions, m - 1);
      StepKeepsSafe(cfg, states[m - 1], states[m], actions[m - 1]);
      ClosedRowStays(cfg, states[m - 1], states[m], actions[m - 1].t, id);
    }
  }

  /** Every committed row meets the table's constraints, so no constraint ever rejects a commit. */
  lemma CommittedRowsMeetSchema(cfg: Config, states: seq<State>, actions: seq<Action>, n: nat, id: Id)
    requires IsRun(cfg, states, actions) && n < |states| && id in states[n].rows
    ensures SchemaOk(states[n].rows[id]) && states[n].rows[id].id == id
  {
    RunIsSafe(cfg, states, actions, n);
  }

  // -------------------------------------------------------------- diagnoses

  /** A reason is true of a row: it is absent or deleted, or it has been decided, as the reply says. */
  predicate ReasonHolds(reply: Reply, row: Option<Row>) {
    match reply
    case NotFound => row.None? || row.value.deletedAt.Some?
    case AlreadyGone(existing) => row.Some? && row.value.deletedAt.Some? && existing == FromRow(row.value)
    case AlreadyFinalized => row.Some? && row.value.status != Pending && row.value.deletedAt.None?
    case NotDeletable => row.Some? && row.value.status != Pending && row.value.deletedAt.None?
    case _ => false
  }

  /** The row a losing call asks about is still open. */
  predicate StillOpen(s: State, id: Id) { id in s.rows && Open(s.rows[id]) }

  lemma DiagnosisHolds(cfg: Config, s: State, s': State, a: Action)
    requires OwnView(cfg, s, a.t) && Next(cfg, s, a, s') && a.Diagnose?
    ensures a.t in s'.txs && s'.txs[a.t].phase.Done? && s'.rows == s.rows
    ensures ReasonHolds(s'.txs[a.t].phase.reply, StoredRow(s, s.txs[a.t].target)) <==> !StillOpen(s, s.txs[a.t].target)
    ensures StillOpen(s, s.txs[a.t].target) ==> s.txs[a.t].kind.Deleting? && s.txs[a.t].before.None?
    ensures s.txs[a.t].before.Some? ==> s.txs[a.t].target in s.rows
  {
  }

  /**
   * A losing call is told the truth if and only if the row is not open when it asks why, and the row can
   * be open only for a delete whose pre-read found nothing. A reason about an existing row stays true for
   * ever; a call whose pre-read found the row always gets such a reason.
   */
  lemma LosersAreToldTheTruth(cfg: Config, states: seq<State>, actions: seq<Action>, n: nat, m: nat)
    requires IsRun(cfg, states, actions) && n < m < |states|
    requires actions[n].Diagnose? && actions[n].t in states[n].txs
    ensures actions[n].t in states[n + 1].txs && states[n + 1].txs[actions[n].t].phase.Done?
    ensures var tx, reply := states[n].txs[actions[n].t], states[n + 1].txs[actions[n].t].phase.reply;
            && (ReasonHolds(reply, StoredRow(states[n + 1], tx.target)) <==> !StillOpen(states[n], tx.target))
            && (StillOpen(states[n], tx.target) ==> tx.kind.Deleting? && tx.before.None?)
            && (tx.before.Some? ==> tx.target in states[n].rows && !StillOpen(states[n], tx.target))
            && (tx.target in states[n].rows && !StillOpen(states[n], tx.target) ==>
                 ReasonHolds(reply, StoredRow(states[m], tx.target)))
  {
    RunIsSafe(cfg, states, actions, n);
    SafeGivesOwnView(cfg, states[n], actions[n].t);
    DiagnosisHolds(cfg, states[n], states[n + 1], actions[n]);
    var id := states[n].txs[actions[n].t].target;
    if id in states[n].rows { ClosingIsFinal(cfg, states, actions, n, m, id); }
  }

  /**
   * Through the service the "concurrent status update" reply is never given, and the "concurrent
   * delete" reply only to a delete whose pre-read found nothing.
   */
  lemma ConcurrentRepliesUnreachable(cfg: Config, states: seq<State>, actions: seq<Action>, n: nat, t: TxId)
    requires IsRun(cfg, states, actions) && n < |states| && t in states[n].txs && states[n].txs[t].phase.Done?
    ensures states[n].txs[t].phase.reply != ConcurrentUpdate
    ensures states[n].txs[t].phase.reply == ConcurrentDelete ==> states[n].txs[t].before.None?
  {
    RunIsSafe(cfg, states, actions, n);
    assert PhaseOk(cfg, states[n], states[n].txs[t]);
  }

  lemma RunExtends(cfg: Config, states: seq<State>, actions: seq<Action>, a: Action, s': State)
    requires IsRun(cfg, states, actions) && Next(cfg, states[|states| - 1], a, s')
    ensures IsRun(cfg, states + [s'], actions + [a])
  {
  }

  /** A delete that read and updated before anything was there. */
  const EARLY_DELETE := State(map[], map[], map[0 := Tx(Deleting, 7, 1, 1, None, Missed)], {}, [])

  lemma EarlyDelete(cfg: Config) returns (states: seq<State>, actions: seq<Action>)
    ensures IsRun(cfg, states, actions) && states[|states| - 1] == EARLY_DELETE
  {
    var s0 := State(map[], map[], map[], {}, []);
    var s1 := State(map[], map[], map[0 := Tx(Deleting, 7, 1, 1, None, Reading)], {}, []);
    states, actions := [s0], [];
    assert AfterPreRead(s0, 0, Deleting, 7, 1, 1) == s1;
    RunExtends(cfg, states, actions, PreRead(0, Deleting, 7, 1, 1), s1);
    states, actions := states + [s1], actions + [PreRead(0, Deleting, 7, 1, 1)];
    assert AfterUpdate(s1, 0, 0) == EARLY_DELETE;
    RunExtends(cfg, states, actions, Update(0, 0), EARLY_DELETE);
    states, actions := states + [EARLY_DELETE], actions + [Update(0, 0)];
  }

  /** The creation's three steps, none of which touches transaction 0. */
  lemma CreationMeanwhile(cfg: Config, input: CreateInput, s: State) returns (s1: State, s2: State, s3: State)
    requires ValidInput(cfg.fold, input) && s == EARLY_DELETE
    ensures Next(cfg, s, BeginCreate(1, input, 7, 1, 1, 0), s1)
    ensures Next(cfg, s1, StageEvent(1, 8, 0), s2)
    ensures Next(cfg, s2, Commit(1, true), s3)
    ensures s3.txs.Keys == {0, 1} && s3.txs[0] == s.txs[0]
    ensures 7 in s3.rows && Open(s3.rows[7])
  {
    ValidInputMeetsSchema(cfg.fold, input, 7, 1, 0);
    s1 := AfterBeginCreate(cfg, s, 1, input, 7, 1, 1, 0);
    s2 := AfterStageEvent(cfg, s1, 1, 8, 0);
    assert s2.txs[1].phase.Staged?;
    s3 := AfterCommit(s2, 1, true);
  }

  /**
   * That one case does occur: a delete of an identifier that a creation, still uncommitted when the
   * delete reads and updates, makes visible before the delete asks why it found nothing.
   */
  lemma ConcurrentDeleteHappens(cfg: Config, input: CreateInput) returns (states: seq<State>, actions: seq<Action>)
    requires ValidInput(cfg.fold, input)
    ensures IsRun(cfg, states, actions)
    ensures var s := states[|states| - 1];
            0 in s.txs && s.txs[0].phase == Done(ConcurrentDelete) && 7 in s.rows && Open(s.rows[7])
  {
    states, actions := EarlyDelete(cfg);
    var s1, s2, s3 := CreationMeanwhile(cfg, input, EARLY_DELETE);
    var s4 := AfterDiagnose(s3, 0);
    RunExtends(cfg, states, actions, BeginCreate(1, input, 7, 1, 1, 0), s1);
    states, actions := states + [s1], actions + [BeginCreate(1, input, 7, 1, 1, 0)];
    RunExtends(cfg, states, actions, StageEvent(1, 8, 0), s2);
    states, actions := states + [s2], actions + [StageEvent(1, 8, 0)];
    RunExtends(cfg, states, actions, Commit(1, true), s3);
    states, actions := states + [s3], actions + [Commit(1, true)];
    RunExtends(cfg, states, actions, Diagnose(0), s4);
    states, actions := states + [s4], actions + [Diagnose(0)];
  }
}
