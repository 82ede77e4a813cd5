/**
 * The whole write side at once: `Create` with its idempotency protocol, finalising and deleting, and the
 * relay with its cleanup, interleaved statement by statement over the same tables. A creation's
 * transaction is one transaction of the lifecycle; its row may later be decided or deleted, and its event
 * projected and pruned.
 */
module Service {
  import opened Common
  import D = Domain
  import A = Audit
  import I = Idempotency
  import C = IdempotencyProtocol
  import CI = IdempotencyInvariant
  import CH = IdempotencyHistory
  import CT = IdempotencyTheorems
  import L = Lifecycle
  import LP = LifecycleProof
  import LT = LifecycleTheorems
  import R = Relay
  import W = Pipeline

  datatype State = State(create: C.State, world: W.State)

  datatype Action =
    | Create(call: C.Action, now: Time)     // a statement of a Create call
    | Change(mutation: L.Action, now: Time)  // a statement of a finalise or delete call
    | Deliver(delivery: R.Action)

  function WorldConfig(cfg: C.Config): L.Config { L.Config(cfg.fold, cfg.codec) }

  /** Create calls use the even transactions, the others the odd ones. */
  function TxOf(c: C.CallId): L.TxId { 2 * c }

  /** The call has writes in the shared tables' transaction. */
  predicate Writing(phase: C.Phase) { phase.Inserted? || phase.Audited? || phase.Completing? }

  function BeginOf(c: C.CallId, job: C.Job): L.Action {
    L.BeginCreate(TxOf(c), job.input, job.disbursement.id,
                  job.req.scope.user, job.requestId, job.disbursement.createdAt)
  }

  /** What a statement of Create does to the disbursements and the outbox. */
  function TableStep(s: C.State, a: C.Action): Option<L.Action> {
    if a.Begin? || a.c !in s.calls then None
    else
      var call := s.calls[a.c];
      match a
      case InsertDisbursement(c) => Some(BeginOf(c, call.job))
      case InsertEvent(c) => Some(L.StageEvent(TxOf(c), call.job.eventId, call.job.disbursement.createdAt))
      case Commit(c, acknowledged) => Some(L.Commit(TxOf(c), acknowledged))
      case Complete(c) =>
        if call.job.req.scope in s.keys && I.HeldBy(s.keys[call.job.req.scope], call.job.req.claimId) then None
        else Some(L.Abort(TxOf(c)))
      case Abort(c) => if Writing(call.phase) then Some(L.Abort(TxOf(c))) else None
      case Crash(c) => if Writing(call.phase) then Some(L.Abort(TxOf(c))) else None
      case _ => None
  }

  predicate FreshFor(job: C.Job, issued: set<Id>) {
    job.req.claimId !in issued && job.disbursement.id !in issued && job.eventId !in issued
  }

  /** Generated identifiers are fresh for both sides. */
  predicate Fresh(s: State, a: Action) {
    match a
    case Create(call, _) => call.Begin? ==> FreshFor(call.job, s.world.life.issued)
    case Change(mutation, _) => mutation.StageEvent? ==> mutation.eventId !in s.create.issued
    case Deliver(_) => true
  }

  ghost predicate Next(cfg: C.Config, s: State, a: Action, t: State) {
    && Fresh(s, a)
    && match a
       case Create(call, now) =>
         && C.Enabled(cfg, s.create, call) && t.create == C.Apply(cfg, s.create, call)
         && (match TableStep(s.create, call)
             case None => t.world == s.world
             case Some(step) => W.Next(WorldConfig(cfg), s.world, W.Mutate(step, now), t.world))
       case Change(mutation, now) =>
         && !mutation.BeginCreate? && mutation.t % 2 == 1 && t.create == s.create
         && W.Next(WorldConfig(cfg), s.world, W.Mutate(mutation, now), t.world)
       case Deliver(delivery) =>
         t.create == s.create && W.Next(WorldConfig(cfg), s.world, W.Deliver(delivery), t.world)
  }

  ghost predicate IsRun(cfg: C.Config, states: seq<State>, actions: seq<Action>) {
    && C.ValidConfig(cfg) && |states| == |actions| + 1
    && C.Init(states[0].create) && L.Init(states[0].world.life) && states[0].world.relay == R.INITIAL
    && forall i :: 0 <= i < |actions| ==> Next(cfg, states[i], actions[i], states[i + 1])
  }

  // --------------------------------------------------------- the invariant

  function TxWith(job: C.Job, phase: L.Phase): L.Tx {
    L.Tx(L.Creating, job.disbursement.id, job.req.scope.user, job.requestId, None, phase)
  }

  /** The lifecycle transaction of a call is where the call is. */
  ghost predicate Mirrored(cfg: C.Config, call: C.Call, t: L.TxId, txs: map<L.TxId, L.Tx>) {
    var row := D.ToRow(call.job.disbursement);
    match call.phase
    case Inserted => t in txs && txs[t] == TxWith(call.job, L.Updated(row))
    case Audited =>
      && C.CreatedEvent(cfg, call.job).Some? && t in txs
      && txs[t] == TxWith(call.job, L.Staged(row, C.CreatedEvent(cfg, call.job).value))
    case Completing =>
      && C.CreatedEvent(cfg, call.job).Some? && t in txs
      && txs[t] == TxWith(call.job, L.Staged(row, C.CreatedEvent(cfg, call.job).value))
    case Releasing(_) => t in txs ==> txs[t].phase.Done?
    case Finished(_) => t in txs ==> txs[t].phase.Done?
    case _ => t !in txs
  }

  /** A call's identifiers are unused in the tables until its own statements use them. */
  predicate Unused(call: C.Call, issued: set<Id>) {
    && (!Writing(call.phase) && !call.phase.Releasing? && !call.phase.Finished? ==> call.job.disbursement.id !in issued)
    && (!call.phase.Audited? && !call.phase.Completing? && !call.phase.Releasing? && !call.phase.Finished? ==>
         call.job.eventId !in issued)
  }

  /** Both, for a call that exists; no transaction waits for one that does not. */
  ghost predicate CallOk(cfg: C.Config, create: C.State, life: L.State, c: C.CallId) {
    if c in create.calls
    then Mirrored(cfg, create.calls[c], TxOf(c), life.txs) && Unused(create.calls[c], life.issued)
    else TxOf(c) !in life.txs
  }

  ghost predicate AllCallsOk(cfg: C.Config, create: C.State, life: L.State) {
    forall c {:trigger CallOk(cfg, create, life, c)} :: CallOk(cfg, create, life, c)
  }

  predicate NoOddCreation(life: L.State, t: L.TxId) { t in life.txs && t % 2 == 1 ==> !life.txs[t].kind.Creating? }

  ghost predicate NoOddCreations(life: L.State) {
    forall t {:trigger NoOddCreation(life, t)} :: NoOddCreation(life, t)
  }

  ghost predicate EventsAreNotRows(create: C.State) {
    forall c, d :: c in create.calls && d in create.calls ==>
      create.calls[c].job.disbursement.id != create.calls[d].job.eventId
  }

  /** Entry `k` of the lifecycle is the creation that `job` committed. */
  ghost predicate IsCreation(cfg: C.Config, h: seq<L.Entry>, k: int, job: C.Job) {
    && 0 <= k < |h| && h[k].kind.Creating? && h[k].target == job.disbursement.id
    && h[k].rowAfter == D.ToRow(job.disbursement) && Some(h[k].event) == C.CreatedEvent(cfg, job)
  }

  predicate CreatedJob(h: seq<C.Entry>, i: int, job: C.Job) { 0 <= i < |h| && h[i].Created? && h[i].job == job }

  /** Creation `i` of the protocol is one of the lifecycle. */
  ghost predicate Realised(cfg: C.Config, create: C.State, life: L.State, i: nat) {
    i < |create.history| && create.history[i].Created? ==>
      exists k :: IsCreation(cfg, life.history, k, create.history[i].job)
  }

  /** If entry `k` of the lifecycle is a creation, a Create call made it. */
  ghost predicate Requested(cfg: C.Config, create: C.State, life: L.State, k: nat) {
    k < |life.history| && life.history[k].kind.Creating? ==>
      exists i, job :: CreatedJob(create.history, i, job) && IsCreation(cfg, life.history, k, job)
  }

  ghost predicate CreationsAgree(cfg: C.Config, create: C.State, life: L.State) {
    && (forall i: nat {:trigger Realised(cfg, create, life, i)} :: Realised(cfg, create, life, i))
    && (forall k: nat {:trigger Requested(cfg, create, life, k)} :: Requested(cfg, create, life, k))
  }

  ghost predicate InStep(cfg: C.Config, create: C.State, life: L.State) {
    && AllCallsOk(cfg, create, life) && NoOddCreations(life) && EventsAreNotRows(create)
    && CreationsAgree(cfg, create, life)
  }

  ghost predicate Inv(cfg: C.Config, s: State) {
    && CI.Safe(cfg, s.create) && CH.Recorded(cfg, s.create) && W.Inv(WorldConfig(cfg), s.world)
    && InStep(cfg, s.create, s.world.life)
  }

  // ------------------------------------------------- what a Create step does

  predicate Over(phase: C.Phase) { phase.Releasing? || phase.Finished? }

  predicate Early(phase: C.Phase) { !Writing(phase) && !Over(phase) }

  /** Only call `c` moves. */
  ghost predicate Moves(s: C.State, t: C.State, c: C.CallId) {
    && c in s.calls && c in t.calls && t.calls.Keys == s.calls.Keys && t.calls[c].job == s.calls[c].job
    && forall d :: d in s.calls && d != c ==> t.calls[d] == s.calls[d]
  }

  /** No creation has been added. */
  ghost predicate NoCreation(s: C.State, t: C.State) {
    && s.history <= t.history
    && forall i :: |s.history| <= i < |t.history| ==> !t.history[i].Created?
  }

  /** A step that leaves the tables alone. */
  predicate QuietMove(p: C.Phase, q: C.Phase) {
    (Early(p) && (Early(q) || Over(q))) || (p.Audited? && q.Completing?) || (Over(p) && Over(q))
  }

  ghost predicate QuietlyTo(s: C.State, t: C.State, c: C.CallId) {
    Moves(s, t, c) && NoCreation(s, t) && QuietMove(s.calls[c].phase, t.calls[c].phase)
  }

  predicate MovesTo(s: C.State, t: C.State, c: C.CallId) {
    c in s.calls && c in t.calls && QuietMove(s.calls[c].phase, t.calls[c].phase)
  }

  lemma TryInsertMoves(s: C.State, c: C.CallId)
    requires c in s.calls && Early(s.calls[c].phase)
    ensures MovesTo(s, C.AfterTryInsert(s, c), c)
  {
  }

  lemma LockRowMoves(s: C.State, c: C.CallId)
    requires c in s.calls && Early(s.calls[c].phase)
    ensures MovesTo(s, C.AfterLockRow(s, c), c)
  {
  }

  lemma DecideMoves(s: C.State, c: C.CallId)
    requires c in s.calls && s.calls[c].phase.Loaded?
    ensures MovesTo(s, C.AfterDecide(s, c), c)
  {
  }

  lemma ReclaimMoves(s: C.State, c: C.CallId, acknowledged: bool)
    requires c in s.calls && Early(s.calls[c].phase)
    ensures MovesTo(s, C.AfterCommitReclaim(s, c, acknowledged), c)
  {
  }

  lemma VerifyMoves(s: C.State, c: C.CallId)
    requires c in s.calls && Early(s.calls[c].phase)
    ensures MovesTo(s, C.AfterVerify(s, c), c)
  {
  }

  lemma EndingMoves(s: C.State, c: C.CallId, phase: C.Phase)
    requires c in s.calls && !Writing(s.calls[c].phase) && Over(phase)
    ensures MovesTo(s, C.Rollback(s, c, phase), c)
    ensures s.calls[c].phase.Releasing? ==> MovesTo(s, C.AfterRelease(s, c), c)
  {
  }

  lemma CompleteMoves(cfg: C.Config, s: C.State, c: C.CallId)
    requires c in s.calls && s.calls[c].phase.Audited? && s.calls[c].job.req.scope in s.keys
    requires I.HeldBy(s.keys[s.calls[c].job.req.scope], s.calls[c].job.req.claimId)
    ensures MovesTo(s, C.AfterComplete(cfg, s, c), c)
  {
  }

  lemma QuietPhases(cfg: C.Config, s: C.State, a: C.Action)
    requires C.Enabled(cfg, s, a) && !a.Begin? && TableStep(s, a).None?
    ensures MovesTo(s, C.Apply(cfg, s, a), a.c)
  {
    match a
    case TryInsert(c) => TryInsertMoves(s, c);
    case LockRow(c) => LockRowMoves(s, c);
    case Decide(c) => DecideMoves(s, c);
    case CommitReclaim(c, acknowledged) => ReclaimMoves(s, c, acknowledged);
    case Verify(c) => VerifyMoves(s, c);
    case Complete(c) => CompleteMoves(cfg, s, c);
    case Abort(c) => EndingMoves(s, c, C.Releasing(C.Dependency));
    case Release(c) => EndingMoves(s, c, C.Releasing(C.Dependency));
    case Crash(c) => EndingMoves(s, c, C.Finished(C.Failed(C.Crashed)));
  }

  lemma QuietEffect(cfg: C.Config, s: C.State, t: C.State, c: C.CallId)
    requires CH.Effect(cfg, s, t, c) && c in s.calls && QuietMove(s.calls[c].phase, t.calls[c].phase)
    ensures QuietlyTo(s, t, c)
  {
  }

  lemma AbortStep(cfg: C.Config, s: C.State, a: C.Action, t: C.State)
    requires C.Enabled(cfg, s, a) && t == C.Apply(cfg, s, a) && TableStep(s, a).Some? && TableStep(s, a).value.Abort?
    ensures Moves(s, t, a.c) && NoCreation(s, t) && Over(t.calls[a.c].phase)
    ensures Writing(s.calls[a.c].phase) && TableStep(s, a) == Some(L.Abort(TxOf(a.c)))
  {
  }

  lemma WriteStep(cfg: C.Config, s: C.State, c: C.CallId)
    requires c in s.calls && C.CreatedEvent(cfg, s.calls[c].job).Some?
    ensures Moves(s, C.AfterInsertDisbursement(s, c), c) && NoCreation(s, C.AfterInsertDisbursement(s, c))
    ensures C.AfterInsertDisbursement(s, c).calls[c].phase.Inserted?
    ensures Moves(s, C.AfterInsertEvent(cfg, s, c), c) && NoCreation(s, C.AfterInsertEvent(cfg, s, c))
    ensures C.AfterInsertEvent(cfg, s, c).calls[c].phase.Audited?
  {
  }

  lemma CommitStep(s: C.State, c: C.CallId, acknowledged: bool)
    requires c in s.calls
    ensures var t := C.AfterCommit(s, c, acknowledged);
            && Moves(s, t, c) && Over(t.calls[c].phase) && t.history == s.history + [C.Created(c, s.calls[c].job)]
  {
  }

  // ------------------------------------------- the two sides stay in step

  /** Neither side has a new creation. */
  lemma CreationsStayAgreed(cfg: C.Config, s: C.State, l: L.State, t: C.State, m: L.State)
    requires CreationsAgree(cfg, s, l) && NoCreation(s, t) && l.history <= m.history
    requires forall k :: |l.history| <= k < |m.history| ==> !m.history[k].kind.Creating?
    ensures CreationsAgree(cfg, t, m)
  {
    forall i: nat ensures Realised(cfg, t, m, i) {
      assert Realised(cfg, s, l, i);
      if i < |t.history| && t.history[i].Created? {
        assert t.history[i] == s.history[i];
        var k :| IsCreation(cfg, l.history, k, s.history[i].job);
        assert IsCreation(cfg, m.history, k, t.history[i].job);
      }
    }
    forall k: nat ensures Requested(cfg, t, m, k) {
      assert Requested(cfg, s, l, k);
      if k < |m.history| && m.history[k].kind.Creating? {
        assert m.history[k] == l.history[k];
        var i, job :| CreatedJob(s.history, i, job) && IsCreation(cfg, l.history, k, job);
        assert CreatedJob(t.history, i, job) && IsCreation(cfg, m.history, k, job);
      }
    }
  }

  lemma CommitKeepsAgreement(cfg: C.Config, s: C.State, l: L.State, t: C.State, m: L.State, c: C.CallId, job: C.Job,
                             e: L.Entry)
    requires CreationsAgree(cfg, s, l) && t.history == s.history + [C.Created(c, job)]
    requires m.history == l.history + [e] && IsCreation(cfg, [e], 0, job)
    ensures CreationsAgree(cfg, t, m)
  {
    assert IsCreation(cfg, m.history, |l.history|, job) && CreatedJob(t.history, |s.history|, job);
    forall i: nat ensures Realised(cfg, t, m, i) {
      assert Realised(cfg, s, l, i);
      if i < |s.history| && t.history[i].Created? {
        assert t.history[i] == s.history[i];
        var k :| IsCreation(cfg, l.history, k, s.history[i].job);
        assert IsCreation(cfg, m.history, k, t.history[i].job);
      }
    }
    forall k: nat ensures Requested(cfg, t, m, k) {
      assert Requested(cfg, s, l, k);
      if k < |l.history| && m.history[k].kind.Creating? {
        assert m.history[k] == l.history[k];
        var i, j :| CreatedJob(s.history, i, j) && IsCreation(cfg, l.history, k, j);
        assert CreatedJob(t.history, i, j) && IsCreation(cfg, m.history, k, j);
      }
    }
  }

  /** A transaction's own step leaves the others alone. */
  ghost predicate OnlyTx(l: L.State, m: L.State, t: L.TxId) {
    t in m.txs && m.txs.Keys == l.txs.Keys + {t} && forall u :: u in l.txs && u != t ==> m.txs[u] == l.txs[u]
  }

  /** The call that moves is the only one that needs a look, as long as nobody else's identifier was used. */
  lemma OwnCallOnly(cfg: C.Config, s: C.State, l: L.State, t: C.State, m: L.State, c: C.CallId, used: set<Id>)
    requires AllCallsOk(cfg, s, l) && NoOddCreations(l) && Moves(s, t, c)
    requires OnlyTx(l, m, TxOf(c)) && m.issued == l.issued + used
    requires forall d :: d in s.calls && d != c ==>
               s.calls[d].job.disbursement.id !in used && s.calls[d].job.eventId !in used
    requires Mirrored(cfg, t.calls[c], TxOf(c), m.txs) && Unused(t.calls[c], m.issued)
    ensures AllCallsOk(cfg, t, m) && NoOddCreations(m)
  {
    forall d ensures CallOk(cfg, t, m, d) {
      assert CallOk(cfg, s, l, d);
      if d != c { assert TxOf(d) != TxOf(c); }
    }
    forall u ensures NoOddCreation(m, u) {
      assert NoOddCreation(l, u) && TxOf(c) % 2 == 0;
    }
  }

  lemma SameEventsAndRows(s: C.State, t: C.State, c: C.CallId)
    requires EventsAreNotRows(s) && Moves(s, t, c)
    ensures EventsAreNotRows(t)
  {
  }

  lemma QuietKeepsCall(cfg: C.Config, call: C.Call, next: C.Call, t: L.TxId, l: L.State)
    requires Mirrored(cfg, call, t, l.txs) && Unused(call, l.issued)
    requires next.job == call.job && QuietMove(call.phase, next.phase)
    ensures Mirrored(cfg, next, t, l.txs) && Unused(next, l.issued)
  {
  }

  lemma QuietKeepsStep(cfg: C.Config, s: C.State, l: L.State, t: C.State, c: C.CallId)
    requires InStep(cfg, s, l) && QuietlyTo(s, t, c)
    ensures InStep(cfg, t, l)
  {
    forall d ensures CallOk(cfg, t, l, d) {
      assert CallOk(cfg, s, l, d);
      if d == c { QuietKeepsCall(cfg, s.calls[c], t.calls[c], TxOf(c), l); }
    }
    SameEventsAndRows(s, t, c);
    CreationsStayAgreed(cfg, s, l, t, l);
  }

  lemma BeginKeepsStep(cfg: C.Config, s: C.State, l: L.State, t: C.State, c: C.CallId, job: C.Job)
    requires InStep(cfg, s, l) && CI.IdsApart(s) && c !in s.calls
    requires FreshFor(job, s.issued) && FreshFor(job, l.issued) && job.disbursement.id != job.eventId
    requires t.calls == s.calls[c := C.Call(job, C.Claiming, C.NO_WRITES)] && t.history == s.history
    ensures InStep(cfg, t, l)
  {
    CreationsStayAgreed(cfg, s, l, t, l);
    forall d ensures CallOk(cfg, t, l, d) {
      assert CallOk(cfg, s, l, d);
    }
  }

  lemma InsertKeepsCalls(cfg: C.Config, s: C.State, l: L.State, t: C.State, m: L.State, c: C.CallId)
    requires AllCallsOk(cfg, s, l) && NoOddCreations(l) && EventsAreNotRows(s) && CI.IdsApart(s) && Moves(s, t, c)
    requires s.calls[c].phase.Verified? && t.calls[c].phase.Inserted?
    requires OnlyTx(l, m, TxOf(c)) && m.issued == l.issued + {s.calls[c].job.disbursement.id}
    requires m.txs[TxOf(c)] == TxWith(s.calls[c].job, L.Updated(D.ToRow(s.calls[c].job.disbursement)))
    ensures AllCallsOk(cfg, t, m) && NoOddCreations(m)
  {
    assert CallOk(cfg, s, l, c);
    OwnCallOnly(cfg, s, l, t, m, c, {s.calls[c].job.disbursement.id});
  }

  lemma EventKeepsCalls(cfg: C.Config, s: C.State, l: L.State, t: C.State, m: L.State, c: C.CallId)
    requires AllCallsOk(cfg, s, l) && NoOddCreations(l) && EventsAreNotRows(s) && CI.IdsApart(s) && Moves(s, t, c)
    requires s.calls[c].phase.Inserted? && t.calls[c].phase.Audited? && C.CreatedEvent(cfg, s.calls[c].job).Some?
    requires OnlyTx(l, m, TxOf(c)) && m.issued == l.issued + {s.calls[c].job.eventId}
    requires m.txs[TxOf(c)] == TxWith(s.calls[c].job,
               L.Staged(D.ToRow(s.calls[c].job.disbursement), C.CreatedEvent(cfg, s.calls[c].job).value))
    ensures AllCallsOk(cfg, t, m) && NoOddCreations(m)
  {
    OwnCallOnly(cfg, s, l, t, m, c, {s.calls[c].job.eventId});
  }

  /** A transaction that ends, with or without its writes. */
  lemma EndKeepsCalls(cfg: C.Config, s: C.State, l: L.State, t: C.State, m: L.State, c: C.CallId)
    requires AllCallsOk(cfg, s, l) && NoOddCreations(l) && Moves(s, t, c) && Over(t.calls[c].phase)
    requires OnlyTx(l, m, TxOf(c)) && m.txs[TxOf(c)].phase.Done? && m.issued == l.issued
    ensures AllCallsOk(cfg, t, m) && NoOddCreations(m)
  {
    OwnCallOnly(cfg, s, l, t, m, c, {});
  }

  /** What a finalise or delete statement does: nothing to Create's transactions and no creation. */
  ghost predicate OddStep(l: L.State, m: L.State, a: L.Action) {
    && OnlyTx(l, m, a.t) && !m.txs[a.t].kind.Creating?
    && m.issued <= l.issued + (if a.StageEvent? then {a.eventId} else {})
    && l.history <= m.history && forall k :: |l.history| <= k < |m.history| ==> !m.history[k].kind.Creating?
  }

  lemma ChangeIsOdd(cfg: L.Config, l: L.State, a: L.Action, m: L.State)
    requires L.Next(cfg, l, a, m) && !a.BeginCreate? && (a.t in l.txs ==> !l.txs[a.t].kind.Creating?)
    ensures OddStep(l, m, a)
  {
  }

  lemma OddKeepsStep(cfg: C.Config, s: C.State, l: L.State, m: L.State, a: L.Action)
    requires InStep(cfg, s, l) && CI.IdsApart(s) && OddStep(l, m, a)
    requires a.t % 2 == 1 && (a.StageEvent? ==> a.eventId !in s.issued)
    ensures InStep(cfg, s, m)
  {
    CreationsStayAgreed(cfg, s, l, s, m);
    forall d ensures CallOk(cfg, s, m, d) {
      assert CallOk(cfg, s, l, d) && TxOf(d) != a.t;
    }
    forall u ensures NoOddCreation(m, u) {
      assert NoOddCreation(l, u);
    }
  }

  // ------------------------------------------- the table steps of Create

  /** Inserting the row begins the lifecycle's transaction. */
  lemma BeginsTransaction(cfg: C.Config, l: L.State, c: C.CallId, job: C.Job, m: L.State)
    requires C.ValidJob(cfg, job)
    requires m == L.AfterBeginCreate(WorldConfig(cfg), l, TxOf(c), job.input, job.disbursement.id,
               job.req.scope.user, job.requestId, job.disbursement.createdAt)
    ensures OnlyTx(l, m, TxOf(c)) && m.history == l.history && m.issued == l.issued + {job.disbursement.id}
    ensures m.txs[TxOf(c)] == TxWith(job, L.Updated(D.ToRow(job.disbursement)))
  {
  }

  lemma SameEvent(cfg: C.Config, job: C.Job, now: Time)
    requires C.ValidJob(cfg, job)
    ensures C.CreatedEvent(cfg, job).Some? && C.CreatedEvent(cfg, job).value.eventId == job.eventId
    ensures L.EventFor(cfg.codec, TxWith(job, L.Updated(D.ToRow(job.disbursement))), D.ToRow(job.disbursement),
                       job.eventId, now) == C.CreatedEvent(cfg, job)
  {
    D.RowRoundTrip(job.disbursement);
  }

  /** Inserting the event stages it with the row. */
  lemma StagesEvent(cfg: C.Config, l: L.State, c: C.CallId, job: C.Job, now: Time, m: L.State)
    requires C.ValidJob(cfg, job) && TxOf(c) in l.txs
    requires l.txs[TxOf(c)] == TxWith(job, L.Updated(D.ToRow(job.disbursement)))
    requires m == L.AfterStageEvent(WorldConfig(cfg), l, TxOf(c), job.eventId, now)
    ensures C.CreatedEvent(cfg, job).Some?
    ensures OnlyTx(l, m, TxOf(c)) && m.history == l.history && m.issued == l.issued + {job.eventId}
    ensures m.txs[TxOf(c)] == TxWith(job, L.Staged(D.ToRow(job.disbursement), C.CreatedEvent(cfg, job).value))
  {
    SameEvent(cfg, job, now);
  }

  lemma CommitsBoth(cfg: C.Config, l: L.State, c: C.CallId, job: C.Job, acknowledged: bool, m: L.State)
    requires C.CreatedEvent(cfg, job).Some? && TxOf(c) in l.txs
    requires l.txs[TxOf(c)] == TxWith(job, L.Staged(D.ToRow(job.disbursement), C.CreatedEvent(cfg, job).value))
    requires m == L.AfterCommit(l, TxOf(c), acknowledged)
    ensures OnlyTx(l, m, TxOf(c)) && m.txs[TxOf(c)].phase.Done? && m.issued == l.issued
    ensures m.history == l.history + [L.EntryOf(l, l.txs[TxOf(c)])]
    ensures IsCreation(cfg, [L.EntryOf(l, l.txs[TxOf(c)])], 0, job)
  {
  }

  lemma InsertStepKeeps(cfg: C.Config, s: C.State, l: L.State, c: C.CallId, m: L.State)
    requires InStep(cfg, s, l) && CI.IdsApart(s) && c in s.calls && C.ValidJob(cfg, s.calls[c].job)
    requires s.calls[c].phase.Verified? && L.Next(WorldConfig(cfg), l, BeginOf(c, s.calls[c].job), m)
    ensures InStep(cfg, C.AfterInsertDisbursement(s, c), m)
  {
    var t := C.AfterInsertDisbursement(s, c);
    BeginsTransaction(cfg, l, c, s.calls[c].job, m);
    SameEvent(cfg, s.calls[c].job, 0);
    WriteStep(cfg, s, c);
    InsertKeepsCalls(cfg, s, l, t, m, c);
    SameEventsAndRows(s, t, c);
    CreationsStayAgreed(cfg, s, l, t, m);
  }

  lemma EventStepKeeps(cfg: C.Config, s: C.State, l: L.State, c: C.CallId, now: Time, m: L.State)
    requires InStep(cfg, s, l) && CI.IdsApart(s) && c in s.calls && C.ValidJob(cfg, s.calls[c].job)
    requires s.calls[c].phase.Inserted?
    requires L.Next(WorldConfig(cfg), l, L.StageEvent(TxOf(c), s.calls[c].job.eventId, now), m)
    ensures InStep(cfg, C.AfterInsertEvent(cfg, s, c), m)
  {
    var t := C.AfterInsertEvent(cfg, s, c);
    assert CallOk(cfg, s, l, c);
    StagesEvent(cfg, l, c, s.calls[c].job, now, m);
    WriteStep(cfg, s, c);
    EventKeepsCalls(cfg, s, l, t, m, c);
    SameEventsAndRows(s, t, c);
    CreationsStayAgreed(cfg, s, l, t, m);
  }

  lemma CommitStepKeeps(cfg: C.Config, s: C.State, l: L.State, c: C.CallId, acknowledged: bool, m: L.State)
    requires InStep(cfg, s, l) && c in s.calls && s.calls[c].phase.Completing?
    requires L.Next(WorldConfig(cfg), l, L.Commit(TxOf(c), acknowledged), m)
    ensures InStep(cfg, C.AfterCommit(s, c, acknowledged), m)
  {
    var t, job := C.AfterCommit(s, c, acknowledged), s.calls[c].job;
    assert CallOk(cfg, s, l, c);
    CommitsBoth(cfg, l, c, job, acknowledged, m);
    CommitStep(s, c, acknowledged);
    EndKeepsCalls(cfg, s, l, t, m, c);
    SameEventsAndRows(s, t, c);
    CommitKeepsAgreement(cfg, s, l, t, m, c, job, L.EntryOf(l, l.txs[TxOf(c)]));
  }

  lemma AbortStepKeeps(cfg: C.Config, s: C.State, l: L.State, t: C.State, c: C.CallId, m: L.State)
    requires InStep(cfg, s, l) && Moves(s, t, c) && NoCreation(s, t) && Over(t.calls[c].phase)
    requires L.Next(WorldConfig(cfg), l, L.Abort(TxOf(c)), m)
    ensures InStep(cfg, t, m)
  {
    EndKeepsCalls(cfg, s, l, t, m, c);
    SameEventsAndRows(s, t, c);
    CreationsStayAgreed(cfg, s, l, t, m);
  }

  lemma TableStepKeeps(cfg: C.Config, s: C.State, l: L.State, a: C.Action, m: L.State)
    requires InStep(cfg, s, l) && CI.IdsApart(s) && CI.JobsValid(cfg, s)
    requires C.Enabled(cfg, s, a) && TableStep(s, a).Some?
    requires L.Next(WorldConfig(cfg), l, TableStep(s, a).value, m)
    ensures InStep(cfg, C.Apply(cfg, s, a), m)
  {
    if TableStep(s, a).value.Abort? {
      AbortStep(cfg, s, a, C.Apply(cfg, s, a));
      AbortStepKeeps(cfg, s, l, C.Apply(cfg, s, a), a.c, m);
    } else {
      match a
      case InsertDisbursement(c) => InsertStepKeeps(cfg, s, l, c, m);
      case InsertEvent(c) => EventStepKeeps(cfg, s, l, c, s.calls[c].job.disbursement.createdAt, m);
      case Commit(c, acknowledged) => CommitStepKeeps(cfg, s, l, c, acknowledged, m);
    }
  }

  lemma OtherStepKeeps(cfg: C.Config, s: C.State, l: L.State, a: C.Action)
    requires InStep(cfg, s, l) && CI.Safe(cfg, s) && C.Enabled(cfg, s, a) && TableStep(s, a).None?
    requires a.Begin? ==> FreshFor(a.job, l.issued)
    ensures InStep(cfg, C.Apply(cfg, s, a), l)
  {
    var t := C.Apply(cfg, s, a);
    if a.Begin? {
      var ids := C.Fresh(a.job);
      assert ids[0] !in s.issued && ids[1] !in s.issued && ids[2] !in s.issued && ids[1] != ids[2];
      BeginKeepsStep(cfg, s, l, t, a.c, a.job);
    } else {
      QuietPhases(cfg, s, a);
      CH.StepEffect(cfg, s, a);
      QuietEffect(cfg, s, t, a.c);
      QuietKeepsStep(cfg, s, l, t, a.c);
    }
  }

  lemma StepKeepsInv(cfg: C.Config, s: State, a: Action, t: State)
    requires Inv(cfg, s) && Next(cfg, s, a, t)
    ensures Inv(cfg, t)
  {
    match a
    case Create(call, now) =>
      CH.StepKeepsRecorded(cfg, s.create, call);
      match TableStep(s.create, call) {
        case None => OtherStepKeeps(cfg, s.create, s.world.life, call);
        case Some(step) =>
          W.MutateKeepsInv(WorldConfig(cfg), s.world, step, now, t.world);
          TableStepKeeps(cfg, s.create, s.world.life, call, t.world.life);
      }
    case Change(mutation, now) =>
      W.MutateKeepsInv(WorldConfig(cfg), s.world, mutation, now, t.world);
      assert NoOddCreation(s.world.life, mutation.t);
      ChangeIsOdd(WorldConfig(cfg), s.world.life, mutation, t.world.life);
      OddKeepsStep(cfg, s.create, s.world.life, t.world.life, mutation);
    case Deliver(delivery) => W.DeliverKeepsInv(WorldConfig(cfg), s.world, delivery, t.world);
  }

  lemma StartIsOk(cfg: C.Config, s: State)
    requires C.Init(s.create) && L.Init(s.world.life) && s.world.relay == R.INITIAL
    ensures Inv(cfg, s)
  {
    assert InStep(cfg, s.create, s.world.life);
    assert CH.Recorded(cfg, s.create) && CI.Safe(cfg, s.create);
  }

  lemma {:induction false} RunKeepsInv(cfg: C.Config, states: seq<State>, actions: seq<Action>, n: nat)
    requires IsRun(cfg, states, actions) && n < |states|
    ensures Inv(cfg, states[n])
  {
    if n == 0 {
      StartIsOk(cfg, states[0]);
    } else {
      RunKeepsInv(cfg, states, actions, n - 1);
      StepKeepsInv(cfg, states[n - 1], actions[n - 1], states[n]);
    }
  }

  // ------------------------------------------------------------ the promises

  lemma MirrorIsReady(cfg: C.Config, s: C.State, l: L.State, c: C.CallId)
    requires InStep(cfg, s, l) && c in s.calls && C.ValidJob(cfg, s.calls[c].job)
    ensures var job, phase := s.calls[c].job, s.calls[c].phase;
            && (phase.Verified? ==> L.Enabled(WorldConfig(cfg), l, BeginOf(c, job)))
            && (phase.Inserted? ==>
                 forall now :: L.Enabled(WorldConfig(cfg), l, L.StageEvent(TxOf(c), job.eventId, now)))
            && (phase.Completing? ==> forall ok :: L.Enabled(WorldConfig(cfg), l, L.Commit(TxOf(c), ok)))
            && (Writing(phase) ==> L.Enabled(WorldConfig(cfg), l, L.Abort(TxOf(c))))
  {
    assert CallOk(cfg, s, l, c);
  }

  lemma TableStepEnabled(cfg: C.Config, s: C.State, l: L.State, a: C.Action)
    requires InStep(cfg, s, l) && CI.JobsValid(cfg, s) && C.Enabled(cfg, s, a) && TableStep(s, a).Some?
    ensures L.Enabled(WorldConfig(cfg), l, TableStep(s, a).value)
  {
    MirrorIsReady(cfg, s, l, a.c);
  }

  /** A staged event is new to the outbox. */
  lemma StagedEventIsNew(cfg: C.Config, w: W.State, t: L.TxId)
    requires LP.EventsApart(w.life) && W.Linked(w.life.history, w.relay.committed) && R.OutboxGenuine(w.relay)
    requires t in w.life.txs && w.life.txs[t].phase.Staged?
    ensures w.life.txs[t].phase.event.eventId !in w.relay.outbox
  {
  }

  lemma LifecycleStepExists(cfg: C.Config, w: W.State, step: L.Action, now: Time) returns (t: W.State)
    requires W.Inv(WorldConfig(cfg), w) && L.Enabled(WorldConfig(cfg), w.life, step)
    ensures W.Next(WorldConfig(cfg), w, W.Mutate(step, now), t)
  {
    var life := L.Apply(WorldConfig(cfg), w.life, step);
    match W.NewEvent(w.life, life)
    case None => t := W.State(life, w.relay);
    case Some(event) =>
      OnlyCommitsAddEvents(cfg, w.life, step);
      StagedEventIsNew(cfg, w, step.t);
      t := W.State(life, R.AfterInsert(w.relay, event, now));
  }

  lemma OnlyCommitsAddEvents(cfg: C.Config, l: L.State, step: L.Action)
    requires L.Enabled(WorldConfig(cfg), l, step)
    ensures var event := W.NewEvent(l, L.Apply(WorldConfig(cfg), l, step));
            event.Some? ==> step.t in l.txs && l.txs[step.t].phase.Staged? && event.value == l.txs[step.t].phase.event
  {
  }

  /** Nothing the other calls and the relay do ever holds a Create call up at the tables. */
  lemma CreateIsNeverHeldUp(cfg: C.Config, states: seq<State>, actions: seq<Action>, n: nat, call: C.Action, now: Time)
      returns (t: State)
    requires IsRun(cfg, states, actions) && n < |states| && C.Enabled(cfg, states[n].create, call)
    requires Fresh(states[n], Create(call, now))
    ensures Next(cfg, states[n], Create(call, now), t)
  {
    RunKeepsInv(cfg, states, actions, n);
    var s := states[n];
    match TableStep(s.create, call)
    case None => t := State(C.Apply(cfg, s.create, call), s.world);
    case Some(step) =>
      TableStepEnabled(cfg, s.create, s.world.life, call);
      var world := LifecycleStepExists(cfg, s.world, step, now);
      t := State(C.Apply(cfg, s.create, call), world);
  }

  /** A creation is the first entry of its row's trail. */
  lemma CreationHeadsTrail(cfg: C.Config, l: L.State, k: nat, job: C.Job)
    requires LT.TrailsTell(WorldConfig(cfg), l) && IsCreation(cfg, l.history, k, job)
    ensures job.disbursement.id in l.rows
    ensures var trail := LT.Trail(l.history, job.disbursement.id); trail != [] && trail[0] == l.history[k]
  {
    var i := W.HistoryIsInTrail(l.history, k);
    assert LT.TrailTells(cfg.codec, LT.Trail(l.history, job.disbursement.id), L.StoredRow(l, job.disbursement.id));
  }

  lemma TrailKeepsRequest(codec: A.Codec, trail: seq<L.Entry>, row: D.Row)
    requires LT.TrailTells(codec, trail, Some(row)) && trail != []
    ensures LT.SameRequest(trail[0].rowAfter, row) && (D.Open(row) ==> row == trail[0].rowAfter)
  {
    assert LP.EntryOk(codec, trail[0]) && LP.EntryOk(codec, trail[|trail| - 1]);
    if |trail| == 2 { LT.ClosingEntry(codec, trail[1]); }
  }

  lemma RowKeepsRequest(cfg: C.Config, l: L.State, id: Id)
    requires LT.TrailsTell(WorldConfig(cfg), l) && id in l.rows && LT.Trail(l.history, id) != []
    ensures LT.SameRequest(LT.Trail(l.history, id)[0].rowAfter, l.rows[id])
    ensures D.Open(l.rows[id]) ==> l.rows[id] == LT.Trail(l.history, id)[0].rowAfter
  {
    assert LT.TrailTells(cfg.codec, LT.Trail(l.history, id), L.StoredRow(l, id));
    TrailKeepsRequest(cfg.codec, LT.Trail(l.history, id), l.rows[id]);
  }

  /**
   * What became of a creation, whoever decided, deleted, relayed or pruned since: its row is there and
   * still holds what was asked for; while open it is as created; its trail starts with its creation, which
   * shows the request; and its event waits in the outbox or stands once, unaltered, in the log.
   */
  ghost predicate Served(cfg: C.Config, w: W.State, job: C.Job) {
    var id, trail := job.disbursement.id, LT.Trail(w.life.history, job.disbursement.id);
    && C.CreatedEvent(cfg, job).Some? && id in w.life.rows && trail != []
    && trail[0].event == C.CreatedEvent(cfg, job).value && trail[0].rowAfter == D.ToRow(job.disbursement)
    && CT.ShowsInput(cfg, trail[0].rowAfter, job) && LT.SameRequest(trail[0].rowAfter, w.life.rows[id])
    && (D.Open(w.life.rows[id]) ==> w.life.rows[id] == trail[0].rowAfter)
    && W.Kept(w.relay, C.CreatedEvent(cfg, job).value)
  }

  lemma RealisedIsServed(cfg: C.Config, w: W.State, k: nat, job: C.Job)
    requires W.Inv(WorldConfig(cfg), w) && C.ValidJob(cfg, job) && IsCreation(cfg, w.life.history, k, job)
    ensures Served(cfg, w, job)
  {
    CreationHeadsTrail(cfg, w.life, k, job);
    RowKeepsRequest(cfg, w.life, job.disbursement.id);
    CT.JobShowsInput(cfg, job);
    W.CommittedEventKept(w.relay, w.life.history[k].event);
  }

  lemma CreationsAreServed(cfg: C.Config, states: seq<State>, actions: seq<Action>, n: nat, i: nat)
    requires IsRun(cfg, states, actions) && n < |states|
    requires i < |states[n].create.history| && states[n].create.history[i].Created?
    ensures Served(cfg, states[n].world, states[n].create.history[i].job)
  {
    RunKeepsInv(cfg, states, actions, n);
    var s, job := states[n], states[n].create.history[i].job;
    assert Realised(cfg, s.create, s.world.life, i);
    var k :| IsCreation(cfg, s.world.life.history, k, job);
    CT.CreatedJobIsValid(cfg, s.create, i);
    RealisedIsServed(cfg, s.world, k, job);
  }

  /** Every row of the table comes from exactly one creation of one Create call. */
  lemma EveryRowWasRequested(cfg: C.Config, states: seq<State>, actions: seq<Action>, n: nat, id: Id) returns (i: nat)
    requires IsRun(cfg, states, actions) && n < |states| && id in states[n].world.life.rows
    ensures CH.CreatedRow(states[n].create.history, i, id)
    ensures forall j :: CH.CreatedRow(states[n].create.history, j, id) ==> j == i
  {
    RunKeepsInv(cfg, states, actions, n);
    var s := states[n];
    i := RequestOfRow(cfg, s.create, s.world.life, id);
    forall j | CH.CreatedRow(s.create.history, j, id) ensures j == i {
      OneCreationPerRow(cfg, s.create, i, j, id);
    }
  }

  lemma RequestOfRow(cfg: C.Config, s: C.State, l: L.State, id: Id) returns (i: nat)
    requires CreationsAgree(cfg, s, l) && LT.TrailsTell(WorldConfig(cfg), l) && id in l.rows
    ensures CH.CreatedRow(s.history, i, id)
  {
    var trail := LT.Trail(l.history, id);
    assert LT.TrailTells(cfg.codec, trail, L.StoredRow(l, id));
    var k := W.TrailIsFromHistory(l.history, id, 0);
    TrailTargets(l.history, id, 0);
    assert Requested(cfg, s, l, k);
    var j, job :| CreatedJob(s.history, j, job) && IsCreation(cfg, l.history, k, job);
    i := j;
  }

  lemma {:induction false} TrailTargets(h: seq<L.Entry>, id: Id, i: nat)
    requires i < |LT.Trail(h, id)|
    ensures LT.Trail(h, id)[i].target == id
  {
    if i < |LT.Trail(h[..|h| - 1], id)| { TrailTargets(h[..|h| - 1], id, i); }
  }

  lemma OneCreationPerRow(cfg: C.Config, s: C.State, i: int, j: int, id: Id)
    requires CH.Traced(s) && CH.Once(s) && CI.IdsApart(s)
    requires CH.CreatedRow(s.history, i, id) && CH.CreatedRow(s.history, j, id)
    ensures i == j
  {
    assert s.history[i].call in s.calls && s.history[j].call in s.calls;
  }

  /**
   * Two rows of the table made under one (user, endpoint, key), whatever became of them since: between their
   * creations a claim took over the first one's completed key row at or after its expiry.
   */
  lemma TwoRowsNeedExpiry(cfg: C.Config, states: seq<State>, actions: seq<Action>, n: nat, id: Id, jd: Id)
      returns (i: nat, j: nat)
    requires IsRun(cfg, states, actions) && n < |states| && id != jd
    requires id in states[n].world.life.rows && jd in states[n].world.life.rows
    ensures CH.CreatedRow(states[n].create.history, i, id) && CH.CreatedRow(states[n].create.history, j, jd)
    ensures var h := states[n].create.history;
            h[i].job.req.scope == h[j].job.req.scope && i < j ==>
              exists k :: i < k < j && CH.Supersedes(cfg, h, k, h[i].job)
  {
    i := EveryRowWasRequested(cfg, states, actions, n, id);
    j := EveryRowWasRequested(cfg, states, actions, n, jd);
    RunKeepsInv(cfg, states, actions, n);
    var h := states[n].create.history;
    if h[i].job.req.scope == h[j].job.req.scope && i < j {
      assert CH.CreatedAt(h, i, h[i].job.req.scope) && CH.CreatedAt(h, j, h[i].job.req.scope);
    }
  }

  /**
   * A replayed answer names a row that is there, made by an equal request under the same key, and shows it as
   * it was created.
   */
  lemma ReplaysNameServedRows(cfg: C.Config, states: seq<State>, actions: seq<Action>, n: nat, j: nat) returns (i: nat)
    requires IsRun(cfg, states, actions) && n < |states|
    requires j < |states[n].create.history| && states[n].create.history[j].Repeated?
    ensures i < j && CH.Echoes(cfg, states[n].create.history, i, j)
    ensures Served(cfg, states[n].world, states[n].create.history[i].job)
    ensures var replay := states[n].create.history[j].replay;
            var trail := LT.Trail(states[n].world.life.history, replay.disbursementId);
            && replay.status == 201 && replay.disbursementId in states[n].world.life.rows
            && trail != [] && trail[0].rowAfter.id == replay.disbursementId
            && replay.body == cfg.render(D.FromRow(trail[0].rowAfter))
  {
    RunKeepsInv(cfg, states, actions, n);
    i :| CH.Echoes(cfg, states[n].create.history, i, j);
    CreationsAreServed(cfg, states, actions, n, i);
    D.RowRoundTrip(states[n].create.history[i].job.disbursement);
  }
}
