/** What callers that finalise or delete are told, for every run, and that it is true. */
module LifecycleAnswers {
  import opened Common
  import opened Domain
  import opened Lifecycle
  import opened LifecycleProof
  import opened LifecycleTheorems
  import A = Audit

  // -------------------------------------------------------- single statements

  predicate Absent(s: State, id: Id) { id !in s.rows }

  predicate Gone(s: State, id: Id) { id in s.rows && s.rows[id].deletedAt.Some? }

  predicate DecidedOn(s: State, id: Id) {
    id in s.rows && s.rows[id].deletedAt.None? && (s.rows[id].status == Approved || s.rows[id].status == Rejected)
  }

  /** The pre-read finds exactly the undeleted row, and stops a finaliser, and only that, when there is none. */
  lemma PreReadTells(cfg: Config, states: seq<State>, actions: seq<Action>, n: nat)
    requires IsRun(cfg, states, actions) && n < |actions| && actions[n].PreRead?
    ensures actions[n].t in states[n + 1].txs
    ensures var tx, missing := states[n + 1].txs[actions[n].t], Absent(states[n], actions[n].target)
                                                                || Gone(states[n], actions[n].target);
            && (tx.before.None? <==> missing)
            && (!missing ==> tx.before == Some(FromRow(states[n].rows[actions[n].target])))
            && (tx.phase == Done(NotFound) <==> actions[n].kind.Finalising? && missing)
            && (tx.phase != Done(NotFound) ==> tx.phase == Reading)
  {
    assert Next(cfg, states[n], actions[n], states[n + 1]);
  }

  /** A finaliser whose update missed, by the row as it stands. */
  ghost predicate FinaliserTold(s: State, id: Id, reply: Reply) {
    && (reply == NotFound <==> Absent(s, id) || Gone(s, id))
    && (reply == AlreadyFinalized <==> DecidedOn(s, id))
    && (reply == ConcurrentUpdate <==> StillOpen(s, id))
  }

  /** A delete whose update missed, by the row as it stands. */
  ghost predicate DeleterTold(s: State, id: Id, reply: Reply) {
    && (reply == NotFound <==> Absent(s, id))
    && (reply.AlreadyGone? <==> Gone(s, id))
    && (Gone(s, id) ==> reply == AlreadyGone(FromRow(s.rows[id])))
    && (reply == NotDeletable <==> DecidedOn(s, id))
    && (reply == ConcurrentDelete <==> StillOpen(s, id))
  }

  lemma DiagnosisFits(s: State, id: Id)
    requires id in s.rows ==> SchemaOk(s.rows[id])
    ensures forall decision :: FinaliserTold(s, id, Diagnosis(Finalising(decision), StoredRow(s, id)))
    ensures DeleterTold(s, id, Diagnosis(Deleting, StoredRow(s, id)))
  {
  }

  /** Each losing call is told what its own kind of call must be told about the row as it stands. */
  lemma LosersGetTheirOwnReply(cfg: Config, states: seq<State>, actions: seq<Action>, n: nat)
    requires IsRun(cfg, states, actions) && n < |actions| && actions[n].Diagnose?
    ensures actions[n].t in states[n].txs && !states[n].txs[actions[n].t].kind.Creating?
    ensures actions[n].t in states[n + 1].txs && states[n + 1].txs[actions[n].t].phase.Done?
    ensures var tx, reply := states[n].txs[actions[n].t], states[n + 1].txs[actions[n].t].phase.reply;
            && (tx.kind.Finalising? ==> FinaliserTold(states[n], tx.target, reply) && reply != ConcurrentUpdate)
            && (tx.kind.Deleting? ==> DeleterTold(states[n], tx.target, reply))
  {
    assert Next(cfg, states[n], actions[n], states[n + 1]);
    RunIsSafe(cfg, states, actions, n);
    SafeGivesOwnView(cfg, states[n], actions[n].t);
    DiagnosisFits(states[n], states[n].txs[actions[n].t].target);
    DiagnosisHolds(cfg, states[n], states[n + 1], actions[n]);
  }

  /** The clock of an update is in the row it stages. */
  predicate Stamped(kind: Kind, row: Row, now: Time) {
    && row.updatedAt == now && (kind.Finalising? ==> row.decidedAt == Some(now))
    && (kind.Deleting? ==> row.deletedAt == Some(now))
  }

  /** An update takes hold exactly of an open row. */
  lemma UpdateTakesOpenRows(cfg: Config, states: seq<State>, actions: seq<Action>, n: nat)
    requires IsRun(cfg, states, actions) && n < |actions| && actions[n].Update?
    ensures actions[n].t in states[n].txs && actions[n].t in states[n + 1].txs
    ensures var tx, next := states[n].txs[actions[n].t], states[n + 1].txs[actions[n].t];
            && (next.phase.Updated? <==> StillOpen(states[n], tx.target))
            && (!next.phase.Updated? ==> next.phase == Missed)
            && (next.phase.Updated? ==> Stamped(tx.kind, next.phase.row, actions[n].now))
  {
    assert Next(cfg, states[n], actions[n], states[n + 1]);
    RunIsSafe(cfg, states, actions, n);
    SafeGivesOwnView(cfg, states[n], actions[n].t);
  }

  // ----------------------------------------------------------------- commits

  /** The event says who changed what on whose request, and leaves nothing out. */
  predicate Identified(e: A.AuditEvent, tx: Tx) {
    && e.entityType == "disbursement" && e.entityId == tx.target && e.actorId == tx.actor && e.requestId == tx.request
    && e.eventId != NIL && e.entityId != NIL && e.actorId != NIL && e.requestId != NIL
  }

  /** Entry `k` is what transaction `tx` has committed, and `after` is the record it left. */
  predicate CommittedAs(h: seq<Entry>, k: int, tx: Tx, after: Disbursement) {
    && 0 <= k < |h| && h[k].target == tx.target && h[k].kind == tx.kind && FromRow(h[k].rowAfter) == after
    && Identified(h[k].event, tx)
  }

  lemma StagedIsIdentified(cfg: Config, s: State, t: TxId)
    requires OwnView(cfg, s, t) && s.txs[t].phase.Staged?
    ensures Identified(s.txs[t].phase.event, s.txs[t])
  {
    var tx := s.txs[t];
    var now :| EventFor(cfg.codec, tx, tx.phase.row, tx.phase.event.eventId, now) == Some(tx.phase.event);
  }

  /** A commit stores the staged row with its event, and the caller is given that row, if it hears of it. */
  lemma CommitTellsTheRow(cfg: Config, states: seq<State>, actions: seq<Action>, n: nat)
    requires IsRun(cfg, states, actions) && n < |actions| && actions[n].Commit?
    ensures actions[n].t in states[n].txs && actions[n].t in states[n + 1].txs
    ensures var s, s', tx := states[n], states[n + 1], states[n].txs[actions[n].t];
            && tx.phase.Staged? && tx.target in s'.rows && s'.rows[tx.target] == tx.phase.row
            && |s'.history| == |s.history| + 1
            && CommittedAs(s'.history, |s.history|, tx, FromRow(s'.rows[tx.target]))
            && s'.txs[actions[n].t].phase ==
               Done(if actions[n].acknowledged then Committed(FromRow(s'.rows[tx.target])) else Failed)
  {
    assert Next(cfg, states[n], actions[n], states[n + 1]);
    RunIsSafe(cfg, states, actions, n);
    SafeGivesOwnView(cfg, states[n], actions[n].t);
    StagedIsIdentified(cfg, states[n], actions[n].t);
  }

  /** A caller given a record has committed it. */
  ghost predicate SuccessTrue(s: State, t: TxId) {
    t in s.txs && s.txs[t].phase.Done? && s.txs[t].phase.reply.Committed? ==>
      exists k :: CommittedAs(s.history, k, s.txs[t], s.txs[t].phase.reply.after)
  }

  lemma OnlyCommitsSucceed(cfg: Config, s: State, a: Action, s': State)
    requires Next(cfg, s, a, s') && !a.Commit?
    ensures s'.history == s.history && a.t in s'.txs
    ensures !(s'.txs[a.t].phase.Done? && s'.txs[a.t].phase.reply.Committed?)
  {
  }

  lemma OwnSuccessIsTrue(cfg: Config, states: seq<State>, actions: seq<Action>, n: nat)
    requires IsRun(cfg, states, actions) && n < |actions|
    ensures SuccessTrue(states[n + 1], actions[n].t)
  {
    assert Next(cfg, states[n], actions[n], states[n + 1]);
    if actions[n].Commit? {
      CommitTellsTheRow(cfg, states, actions, n);
      var t, s, s' := actions[n].t, states[n], states[n + 1];
      StepKeepsCall(cfg, s, actions[n], s', t);
      assert CommittedAs(s'.history, |s.history|, s'.txs[t], FromRow(s'.rows[s.txs[t].target]));
    } else {
      OnlyCommitsSucceed(cfg, states[n], actions[n], states[n + 1]);
    }
  }

  lemma HistoryOnlyGrows(cfg: Config, s: State, s': State, t: TxId)
    requires GoodStep(cfg, s, s', t)
    ensures s.history <= s'.history
  {
  }

  lemma StepOfRun(cfg: Config, states: seq<State>, actions: seq<Action>, n: nat)
    requires IsRun(cfg, states, actions) && n < |actions|
    ensures Local(states[n], states[n + 1], actions[n].t) && states[n].history <= states[n + 1].history
  {
    assert Next(cfg, states[n], actions[n], states[n + 1]);
    RunIsSafe(cfg, states, actions, n);
    StepKeepsSafe(cfg, states[n], states[n + 1], actions[n]);
    HistoryOnlyGrows(cfg, states[n], states[n + 1], actions[n].t);
  }

  lemma SuccessStays(cfg: Config, s: State, s': State, mover: TxId, t: TxId)
    requires Local(s, s', mover) && SuccessTrue(s, t) && s.history <= s'.history
    requires t == mover ==> SuccessTrue(s', t)
    ensures SuccessTrue(s', t)
  {
    if t != mover && t in s.txs && s.txs[t].phase.Done? && s.txs[t].phase.reply.Committed? {
      var k :| CommittedAs(s.history, k, s.txs[t], s.txs[t].phase.reply.after);
      assert CommittedAs(s'.history, k, s'.txs[t], s'.txs[t].phase.reply.after);
    }
  }

  lemma StepKeepsSuccess(cfg: Config, states: seq<State>, actions: seq<Action>, n: nat, t: TxId)
    requires IsRun(cfg, states, actions) && n < |actions| && SuccessTrue(states[n], t)
    ensures SuccessTrue(states[n + 1], t)
  {
    OwnSuccessIsTrue(cfg, states, actions, n);
    StepOfRun(cfg, states, actions, n);
    SuccessStays(cfg, states[n], states[n + 1], actions[n].t, t);
  }

  /** Whoever is given a record has committed it, under the actor and the request of its own call. */
  lemma {:induction false} SuccessIsTrue(cfg: Config, states: seq<State>, actions: seq<Action>, n: nat, t: TxId)
    requires IsRun(cfg, states, actions) && n < |states|
    ensures SuccessTrue(states[n], t)
  {
    if n > 0 {
      SuccessIsTrue(cfg, states, actions, n - 1, t);
      StepKeepsSuccess(cfg, states, actions, n - 1, t);
    }
  }

  // ------------------------------------------------- from the call to the row

  /** The transaction is that of this call. */
  predicate CallOf(a: Action, tx: Tx) {
    match a
    case BeginCreate(_, _, id, actor, request, _) =>
      tx.kind == Creating && tx.target == id && tx.actor == actor && tx.request == request
    case PreRead(_, kind, target, actor, request) =>
      tx.kind == kind && tx.target == target && tx.actor == actor && tx.request == request
    case _ => false
  }

  predicate SameCall(tx: Tx, next: Tx) {
    next.kind == tx.kind && next.target == tx.target && next.actor == tx.actor && next.request == tx.request
  }

  lemma StepKeepsCall(cfg: Config, s: State, a: Action, s': State, t: TxId)
    requires Next(cfg, s, a, s') && t in s.txs
    ensures t in s'.txs && SameCall(s.txs[t], s'.txs[t])
  {
  }

  /** A transaction keeps the kind, target, actor and request it was begun with. */
  lemma {:induction false} TxKeepsItsCall(cfg: Config, states: seq<State>, actions: seq<Action>, b: nat, n: nat)
    requires IsRun(cfg, states, actions) && b < n < |states| && (actions[b].BeginCreate? || actions[b].PreRead?)
    ensures actions[b].t in states[n].txs && CallOf(actions[b], states[n].txs[actions[b].t])
    decreases n
  {
    assert Next(cfg, states[n - 1], actions[n - 1], states[n]);
    if b + 1 < n {
      TxKeepsItsCall(cfg, states, actions, b, n - 1);
      StepKeepsCall(cfg, states[n - 1], actions[n - 1], states[n], actions[b].t);
    }
  }

  /** The row a transaction has staged, until it ends. */
  predicate Holding(s: State, t: TxId, row: Row) {
    && t in s.txs
    && (|| s.txs[t].phase == Updated(row) || s.txs[t].phase.Done?
        || (s.txs[t].phase.Staged? && s.txs[t].phase.row == row))
  }

  lemma StepKeepsHolding(cfg: Config, s: State, a: Action, s': State, t: TxId, row: Row)
    requires Next(cfg, s, a, s') && Holding(s, t, row)
    ensures Holding(s', t, row)
  {
  }

  lemma {:induction false} HoldsToTheEnd(cfg: Config, states: seq<State>, actions: seq<Action>, u: nat, n: nat,
                                         t: TxId, row: Row)
    requires IsRun(cfg, states, actions) && u <= n < |states| && Holding(states[u], t, row)
    ensures Holding(states[n], t, row)
    decreases n
  {
    if u < n {
      HoldsToTheEnd(cfg, states, actions, u, n - 1, t, row);
      assert Next(cfg, states[n - 1], actions[n - 1], states[n]);
      StepKeepsHolding(cfg, states[n - 1], actions[n - 1], states[n], t, row);
    }
  }

  /**
   * A finalise or delete call from its pre-read `b` over its update `u` to its commit `n`: the row committed
   * bears the update's time, and the event names the call's target, actor and request.
   */
  lemma ChangesAreAttributed(cfg: Config, states: seq<State>, actions: seq<Action>, b: nat, u: nat, n: nat)
    requires IsRun(cfg, states, actions) && b < u < n < |actions|
    requires actions[b].PreRead? && actions[u].Update? && actions[n].Commit?
    requires actions[u].t == actions[n].t == actions[b].t
    ensures var e := states[n + 1].history;
            && |e| == |states[n].history| + 1
            && var entry := e[|e| - 1];
               && entry.kind == actions[b].kind && entry.target == actions[b].target
               && entry.event.entityId == actions[b].target && entry.event.actorId == actions[b].actor
               && entry.event.requestId == actions[b].request
               && Stamped(actions[b].kind, entry.rowAfter, actions[u].now)
               && states[n + 1].rows.Keys == states[n].rows.Keys + {actions[b].target}
               && states[n + 1].rows[actions[b].target] == entry.rowAfter
  {
    TxKeepsItsCall(cfg, states, actions, b, u);
    TxKeepsItsCall(cfg, states, actions, b, n);
    CommitTellsTheRow(cfg, states, actions, n);
    UpdateTakesOpenRows(cfg, states, actions, u);
    UpdatedHolds(cfg, states, actions, u, n);
    assert Next(cfg, states[n], actions[n], states[n + 1]);
  }

  /** A transaction that has missed its row, or is over, stages nothing any more. */
  predicate OutOfIt(s: State, t: TxId) { t in s.txs && (s.txs[t].phase.Missed? || s.txs[t].phase.Done?) }

  lemma {:induction false} StaysOutOfIt(cfg: Config, states: seq<State>, actions: seq<Action>, u: nat, n: nat, t: TxId)
    requires IsRun(cfg, states, actions) && u <= n < |states| && OutOfIt(states[u], t)
    ensures OutOfIt(states[n], t)
    decreases n
  {
    if u < n {
      StaysOutOfIt(cfg, states, actions, u, n - 1, t);
      assert Next(cfg, states[n - 1], actions[n - 1], states[n]);
    }
  }

  lemma UpdatedHolds(cfg: Config, states: seq<State>, actions: seq<Action>, u: nat, n: nat)
    requires IsRun(cfg, states, actions) && u < n < |states| && actions[u].Update?
    requires actions[u].t in states[n].txs && states[n].txs[actions[u].t].phase.Staged?
    ensures actions[u].t in states[u + 1].txs
    ensures states[u + 1].txs[actions[u].t].phase == Updated(states[n].txs[actions[u].t].phase.row)
  {
    var t := actions[u].t;
    UpdateTakesOpenRows(cfg, states, actions, u);
    if states[u + 1].txs[t].phase.Updated? {
      HoldsToTheEnd(cfg, states, actions, u + 1, n, t, states[u + 1].txs[t].phase.row);
    } else {
      StaysOutOfIt(cfg, states, actions, u + 1, n, t);
    }
  }
}
