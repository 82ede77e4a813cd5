/** What the callers of `Create` are told, for every run, and that it is true. */
module IdempotencyAnswers {
  import opened Common
  import opened Idempotency
  import opened IdempotencyProtocol
  import opened IdempotencyInvariant
  import opened IdempotencyHistory
  import D = Domain
  import T = IdempotencyTheorems

  // -------------------------------------------------------- single statements

  /** The row is there but is not the caller's own unfinished claim. */
  predicate HeldByOther(s: State, job: Job) {
    && job.req.scope in s.keys
    && (s.keys[job.req.scope].state != InProgress || s.keys[job.req.scope].claimId != job.req.claimId)
  }

  /**
   * A caller goes on to insert exactly if the row is its own unfinished claim; if the row is missing or
   * another's, it fails with that reason.
   */
  lemma VerifyTellsOwnership(cfg: Config, states: seq<State>, actions: seq<Action>, n: nat)
    requires IsRun(cfg, states, actions) && n < |actions| && actions[n].Verify?
    ensures actions[n].c in states[n].calls && actions[n].c in states[n + 1].calls
    ensures var job, phase := states[n].calls[actions[n].c].job, states[n + 1].calls[actions[n].c].phase;
            && (phase == Releasing(KeyMissing) <==> job.req.scope !in states[n].keys)
            && (phase == Releasing(OwnershipLost) <==> HeldByOther(states[n], job))
            && (phase == Verified <==> job.req.scope in states[n].keys && !HeldByOther(states[n], job))
  {
  }

  /** A failed transaction's reason is what the caller is told once the claim is released. */
  lemma ReleaseTellsReason(cfg: Config, states: seq<State>, actions: seq<Action>, n: nat)
    requires IsRun(cfg, states, actions) && n < |actions| && actions[n].Release?
    ensures actions[n].c in states[n].calls && states[n].calls[actions[n].c].phase.Releasing?
    ensures actions[n].c in states[n + 1].calls
    ensures states[n + 1].calls[actions[n].c].phase == Finished(Failed(states[n].calls[actions[n].c].phase.reason))
  {
  }

  /** An acknowledged commit is a success, any other leaves the caller with a dependency failure to clean up. */
  lemma CommitTellsAcknowledgement(cfg: Config, states: seq<State>, actions: seq<Action>, n: nat)
    requires IsRun(cfg, states, actions) && n < |actions| && (actions[n].Commit? || actions[n].CommitReclaim?)
    ensures actions[n].c in states[n + 1].calls
    ensures var phase := states[n + 1].calls[actions[n].c].phase;
            && (actions[n] == Commit(actions[n].c, true) ==> phase == Finished(Succeeded))
            && (actions[n] == Commit(actions[n].c, false) ==> phase == Releasing(Dependency))
            && (actions[n] == CommitReclaim(actions[n].c, true) ==> phase == Owner)
            && (actions[n] == CommitReclaim(actions[n].c, false) ==> phase == Finished(Failed(Dependency)))
  {
  }

  /** A row that was there at the insert and is gone at the lock fails the claim; one still there is judged. */
  lemma LockTellsMissing(cfg: Config, states: seq<State>, actions: seq<Action>, n: nat)
    requires IsRun(cfg, states, actions) && n < |actions| && actions[n].LockRow?
    ensures actions[n].c in states[n].calls && actions[n].c in states[n + 1].calls
    ensures var scope := ScopeOf(states[n].calls[actions[n].c]);
            states[n + 1].calls[actions[n].c].phase ==
            if scope in states[n].keys then Loaded(states[n].keys[scope]) else Finished(Failed(KeyMissing))
  {
  }

  // ------------------------------------------------------ answers and history

  predicate CreatedBy(h: seq<Entry>, i: int, c: CallId, job: Job) { 0 <= i < |h| && h[i] == Created(c, job) }

  predicate RepeatedTo(h: seq<Entry>, i: int, req: ClaimRequest, replay: Replay) {
    0 <= i < |h| && h[i] == Repeated(req, replay)
  }

  /** How a call that has created may end: told so, or cut off from the news. */
  predicate AfterCreating(phase: Phase) {
    || phase == Finished(Succeeded) || phase == Releasing(Dependency)
    || phase == Finished(Failed(Dependency)) || phase == Finished(Failed(Crashed))
  }

  /** A call told of success has created; one given a replay had it recorded; one that created ends as it may. */
  ghost predicate AnswerTrue(s: State, c: CallId) {
    c in s.calls ==>
      var call := s.calls[c];
      && (call.phase == Finished(Succeeded) ==> exists i :: CreatedBy(s.history, i, c, call.job))
      && (call.phase.Finished? && call.phase.outcome.Answered? && call.phase.outcome.result.Replayed? ==>
           exists i :: RepeatedTo(s.history, i, call.job.req, call.phase.outcome.result.replay))
      && ((exists i :: CreatedBy(s.history, i, c, call.job)) ==> AfterCreating(call.phase))
  }

  ghost predicate AnswersTrue(s: State) { forall c {:trigger AnswerTrue(s, c)} :: AnswerTrue(s, c) }

  /** A phase that tells nothing, or tells of a failure. */
  predicate Plain(phase: Phase) { phase.Finished? ==> phase.outcome.Failed? }

  /** A step that neither commits nor answers. */
  ghost predicate PlainStep(s: State, t: State, c: CallId) {
    && c in s.calls && c in t.calls && Plain(t.calls[c].phase)
    && (PastCommit(s, c) ==> s.calls[c].phase.Releasing?)
    && (PastCommit(s, c) && s.calls[c].phase.Releasing? ==>
         || t.calls[c].phase == Finished(Failed(s.calls[c].phase.reason))
         || t.calls[c].phase == Finished(Failed(Crashed)))
  }

  lemma ClaimStepsArePlain(s: State, c: CallId, acknowledged: bool)
    requires c in s.calls && !PastCommit(s, c)
    ensures PlainStep(s, AfterTryInsert(s, c), c) && PlainStep(s, AfterLockRow(s, c), c)
    ensures PlainStep(s, AfterCommitReclaim(s, c, acknowledged), c)
  {
  }

  lemma VerifyIsPlain(s: State, c: CallId)
    requires c in s.calls && !PastCommit(s, c)
    ensures PlainStep(s, AfterVerify(s, c), c)
  {
  }

  lemma StagingIsPlain(cfg: Config, s: State, c: CallId)
    requires c in s.calls && !PastCommit(s, c)
    ensures PlainStep(s, AfterInsertDisbursement(s, c), c) && PlainStep(s, AfterInsertEvent(cfg, s, c), c)
    ensures PlainStep(s, AfterComplete(cfg, s, c), c)
  {
  }

  lemma OtherStepsArePlain(cfg: Config, s: State, a: Action)
    requires Enabled(cfg, s, a) && !a.Begin? && !a.Commit? && !a.Decide?
    ensures PlainStep(s, Apply(cfg, s, a), a.c)
  {
    match a
    case TryInsert(c) => ClaimStepsArePlain(s, c, true);
    case LockRow(c) => ClaimStepsArePlain(s, c, true);
    case CommitReclaim(c, acknowledged) => ClaimStepsArePlain(s, c, acknowledged);
    case Verify(c) => VerifyIsPlain(s, c);
    case InsertDisbursement(c) => StagingIsPlain(cfg, s, c);
    case InsertEvent(c) => StagingIsPlain(cfg, s, c);
    case Complete(c) => StagingIsPlain(cfg, s, c);
    case Abort(c) =>
    case Release(c) =>
    case Crash(c) =>
  }

  /** The history has grown, by no creation. */
  ghost predicate NoneCreated(s: State, t: State) {
    s.history <= t.history && forall i :: |s.history| <= i < |t.history| ==> !t.history[i].Created?
  }

  lemma EffectWithoutCreation(cfg: Config, s: State, t: State, c: CallId)
    requires Effect(cfg, s, t, c) && (Creates(cfg, s, t, c) ==> t.history == s.history)
    ensures NoneCreated(s, t)
  {
  }

  lemma OnlyCommitsCreate(cfg: Config, s: State, a: Action)
    requires Safe(cfg, s) && Enabled(cfg, s, a) && !a.Commit?
    ensures NoneCreated(s, Apply(cfg, s, a)) && Local(s, Apply(cfg, s, a), a.c)
  {
    StepEffect(cfg, s, a);
    if a.Abort? || a.Crash? { QuietActions(cfg, s, a); }
    EffectWithoutCreation(cfg, s, Apply(cfg, s, a), a.c);
  }

  lemma NotYetCreated(s: State, c: CallId)
    requires Traced(s) && (c in s.calls ==> !PastCommit(s, c))
    ensures forall i, job :: !CreatedBy(s.history, i, c, job)
  {
  }

  lemma CreatedStays(s: State, t: State, c: CallId, job: Job)
    requires NoneCreated(s, t)
    ensures (exists i :: CreatedBy(s.history, i, c, job)) <==> (exists i :: CreatedBy(t.history, i, c, job))
  {
    if i :| CreatedBy(s.history, i, c, job) { assert CreatedBy(t.history, i, c, job); }
    if i :| CreatedBy(t.history, i, c, job) { assert CreatedBy(s.history, i, c, job); }
  }

  lemma PlainKeepsAnswer(s: State, t: State, c: CallId)
    requires AnswerTrue(s, c) && Traced(s) && PlainStep(s, t, c) && NoneCreated(s, t)
    requires t.calls[c].job == s.calls[c].job
    ensures AnswerTrue(t, c)
  {
    CreatedStays(s, t, c, s.calls[c].job);
    if !PastCommit(s, c) { NotYetCreated(s, c); }
  }

  lemma CommitAnswers(s: State, c: CallId, acknowledged: bool)
    requires c in s.calls
    ensures AnswerTrue(AfterCommit(s, c, acknowledged), c)
  {
    var t := AfterCommit(s, c, acknowledged);
    assert CreatedBy(t.history, |s.history|, c, t.calls[c].job);
  }

  /** An answered or reclaiming decision creates nothing; a replay is recorded as it is given. */
  lemma DecideAnswers(s: State, c: CallId)
    requires c in s.calls && s.calls[c].phase.Loaded? && Traced(s) && NoneCreated(s, AfterDecide(s, c))
    ensures AnswerTrue(AfterDecide(s, c), c)
  {
    var t := AfterDecide(s, c);
    NotYetCreated(s, c);
    CreatedStays(s, t, c, s.calls[c].job);
    var result := Classify(s.calls[c].phase.row, s.calls[c].job.req);
    if result.Some? && result.value.Replayed? {
      assert RepeatedTo(t.history, |s.history|, t.calls[c].job.req, result.value.replay);
    }
  }

  lemma OtherAnswersStay(s: State, t: State, d: CallId)
    requires AnswerTrue(s, d) && d in s.calls && d in t.calls && t.calls[d] == s.calls[d] && s.history <= t.history
    requires forall i :: |s.history| <= i < |t.history| && t.history[i].Created? ==> t.history[i].call != d
    ensures AnswerTrue(t, d)
  {
    var call := s.calls[d];
    if call.phase == Finished(Succeeded) {
      var i :| CreatedBy(s.history, i, d, call.job);
      assert CreatedBy(t.history, i, d, call.job);
    }
    if call.phase.Finished? && call.phase.outcome.Answered? && call.phase.outcome.result.Replayed? {
      var i :| RepeatedTo(s.history, i, call.job.req, call.phase.outcome.result.replay);
      assert RepeatedTo(t.history, i, call.job.req, call.phase.outcome.result.replay);
    }
    if i :| CreatedBy(t.history, i, d, call.job) { assert CreatedBy(s.history, i, d, call.job); }
  }

  lemma NewCallHasNoAnswer(s: State, t: State, c: CallId)
    requires Traced(s) && c !in s.calls && c in t.calls && t.calls[c].phase.Claiming? && t.history == s.history
    ensures AnswerTrue(t, c)
  {
    NotYetCreated(s, c);
  }

  lemma StepKeepsOwnAnswer(cfg: Config, s: State, a: Action)
    requires Safe(cfg, s) && Traced(s) && Enabled(cfg, s, a) && AnswerTrue(s, a.c)
    ensures AnswerTrue(Apply(cfg, s, a), a.c)
  {
    var t := Apply(cfg, s, a);
    if a.Commit? {
      CommitAnswers(s, a.c, a.acknowledged);
    } else if a.Begin? {
      NewCallHasNoAnswer(s, t, a.c);
    } else {
      OnlyCommitsCreate(cfg, s, a);
      if a.Decide? {
        DecideAnswers(s, a.c);
      } else {
        OtherStepsArePlain(cfg, s, a);
        PlainKeepsAnswer(s, t, a.c);
      }
    }
  }

  /** Whatever a step adds to the history, a creation in it is the caller's own. */
  ghost predicate OwnCreations(s: State, t: State, c: CallId) {
    && s.history <= t.history
    && forall i :: |s.history| <= i < |t.history| && t.history[i].Created? ==> t.history[i].call == c
  }

  lemma EffectCreatesOwn(cfg: Config, s: State, t: State, c: CallId)
    requires Effect(cfg, s, t, c)
    ensures OwnCreations(s, t, c)
  {
  }

  lemma StepKeepsAnswers(cfg: Config, s: State, a: Action)
    requires Safe(cfg, s) && Traced(s) && Enabled(cfg, s, a) && AnswersTrue(s)
    ensures AnswersTrue(Apply(cfg, s, a))
  {
    var t := Apply(cfg, s, a);
    StepEffect(cfg, s, a);
    EffectCreatesOwn(cfg, s, t, a.c);
    forall d ensures AnswerTrue(t, d) {
      assert AnswerTrue(s, d);
      if d == a.c {
        StepKeepsOwnAnswer(cfg, s, a);
      } else if d in s.calls {
        OtherAnswersStay(s, t, d);
      }
    }
  }

  lemma {:induction false} RunAnswersTruly(cfg: Config, states: seq<State>, actions: seq<Action>, n: nat)
    requires IsRun(cfg, states, actions) && n < |states|
    ensures AnswersTrue(states[n])
  {
    if n > 0 {
      RunAnswersTruly(cfg, states, actions, n - 1);
      RunIsRecorded(cfg, states, actions, n - 1);
      StepKeepsAnswers(cfg, states[n - 1], actions[n - 1]);
    }
  }

  // ------------------------------------------------------------ the promises

  /** A caller told of success has created, and the record it was given is stored. */
  lemma SuccessIsTrue(cfg: Config, states: seq<State>, actions: seq<Action>, n: nat, c: CallId) returns (i: nat)
    requires IsRun(cfg, states, actions) && n < |states|
    requires c in states[n].calls && states[n].calls[c].phase == Finished(Succeeded)
    ensures i < |states[n].history| && states[n].history[i] == Created(c, states[n].calls[c].job)
    ensures var d := states[n].calls[c].job.disbursement;
            d.id in states[n].disbursements && D.FromRow(states[n].disbursements[d.id]) == d
  {
    RunAnswersTruly(cfg, states, actions, n);
    assert AnswerTrue(states[n], c);
    i :| CreatedBy(states[n].history, i, c, states[n].calls[c].job);
    RunIsRecorded(cfg, states, actions, n);
    assert Stored(cfg, states[n], states[n].history[i].job);
  }

  /** A caller that has created is told so, unless it crashed or the commit's acknowledgement was lost. */
  lemma CreatorsLearnOfIt(cfg: Config, states: seq<State>, actions: seq<Action>, n: nat, i: nat)
    requires IsRun(cfg, states, actions) && n < |states|
    requires i < |states[n].history| && states[n].history[i].Created?
    ensures states[n].history[i].call in states[n].calls
    ensures AfterCreating(states[n].calls[states[n].history[i].call].phase)
  {
    RunAnswersTruly(cfg, states, actions, n);
    RunIsRecorded(cfg, states, actions, n);
    var c := states[n].history[i].call;
    assert AnswerTrue(states[n], c);
    assert CreatedBy(states[n].history, i, c, states[n].calls[c].job);
  }

  /**
   * A caller answered with a replay gets status 201, the identifier of a row created by an equal request
   * under its key, and the rendering of that row as it was created.
   */
  lemma ReplayedCallersGetTheRow(cfg: Config, states: seq<State>, actions: seq<Action>, n: nat, c: CallId,
                                 replay: Replay)
    requires IsRun(cfg, states, actions) && n < |states|
    requires c in states[n].calls && states[n].calls[c].phase == Finished(Answered(Replayed(replay)))
    ensures replay.status == 201 && replay.disbursementId in states[n].disbursements
    ensures replay.body == cfg.render(D.FromRow(states[n].disbursements[replay.disbursementId]))
  {
    RunAnswersTruly(cfg, states, actions, n);
    assert AnswerTrue(states[n], c);
    var j :| RepeatedTo(states[n].history, j, states[n].calls[c].job.req, replay);
    var i := T.ReplaysAreTrue(cfg, states, actions, n, j);
  }
}
