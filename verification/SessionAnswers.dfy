/** What the callers of login, refresh and logout are told, for every run, and that it is true. */
module SessionAnswers {
  import opened Common
  import opened Sessions
  import opened SessionChains

  // ------------------------------------------------------------------ logout

  /** The session is revoked. */
  predicate IsRevoked(s: State, id: Id) { id in s.sessions && s.sessions[id].revokedAt.Some? }

  /** A logout of the session `id`: about to revoke it, given up, or over with the session revoked. */
  ghost predicate LoggingOut(s: State, t: TxId, id: Id) {
    && t in s.txs && s.txs[t].purpose.LogoutTx?
    && match s.txs[t].phase
       case Revoking(prevId, _) => prevId == id
       case Done(ok) => ok ==> IsRevoked(s, id)
       case _ => false
  }

  lemma LogoutStarts(s: State, a: Action, s': State, id: Id)
    requires Apart(s) && Next(s, a, s') && a.Logout? && id in s.sessions && s.sessions[id].tokenHash == a.token
    ensures LoggingOut(s', a.t, id)
  {
  }

  lemma StepKeepsLogout(s: State, a: Action, s': State, t: TxId, id: Id)
    requires Safe(s) && Next(s, a, s') && LoggingOut(s, t, id)
    requires IsRevoked(s, id) ==> IsRevoked(s', id)
    ensures LoggingOut(s', t, id)
  {
    if a.t == t { assert PhaseOk(s, s.txs[t]); }
  }

  lemma RevokedStaysRevoked(states: seq<State>, actions: seq<Action>, n: nat, id: Id)
    requires IsRun(states, actions) && n < |actions| && IsRevoked(states[n], id)
    ensures IsRevoked(states[n + 1], id)
  {
    RevocationIsFinal(states, actions, n, n + 1, id);
  }

  lemma LogoutBegins(states: seq<State>, actions: seq<Action>, n: nat, id: Id)
    requires IsRun(states, actions) && n < |actions| && actions[n].Logout?
    requires id in states[n].sessions && states[n].sessions[id].tokenHash == actions[n].token
    ensures LoggingOut(states[n + 1], actions[n].t, id)
  {
    RunIsSafe(states, actions, n);
    assert Next(states[n], actions[n], states[n + 1]);
    LogoutStarts(states[n], actions[n], states[n + 1], id);
  }

  lemma LogoutStep(states: seq<State>, actions: seq<Action>, n: nat, t: TxId, id: Id)
    requires IsRun(states, actions) && n < |actions| && LoggingOut(states[n], t, id)
    ensures LoggingOut(states[n + 1], t, id)
  {
    RunIsSafe(states, actions, n);
    assert Next(states[n], actions[n], states[n + 1]);
    if IsRevoked(states[n], id) { RevokedStaysRevoked(states, actions, n, id); }
    StepKeepsLogout(states[n], actions[n], states[n + 1], t, id);
  }

  lemma {:induction false} LogoutGoesOn(states: seq<State>, actions: seq<Action>, n: nat, m: nat, id: Id)
    requires IsRun(states, actions) && n < m < |states| && actions[n].Logout?
    requires id in states[n].sessions && states[n].sessions[id].tokenHash == actions[n].token
    ensures LoggingOut(states[m], actions[n].t, id)
    decreases m
  {
    if n + 1 == m {
      LogoutBegins(states, actions, n, id);
    } else {
      LogoutGoesOn(states, actions, n, m - 1, id);
      LogoutStep(states, actions, m - 1, actions[n].t, id);
    }
  }

  /** A logout that ended well has left the session of its token revoked, now and for ever. */
  lemma LogoutRevokes(states: seq<State>, actions: seq<Action>, n: nat, m: nat, id: Id)
    requires IsRun(states, actions) && n < m < |states| && actions[n].Logout?
    requires id in states[n].sessions && states[n].sessions[id].tokenHash == actions[n].token
    requires actions[n].t in states[m].txs && states[m].txs[actions[n].t].phase == Done(true)
    ensures id in states[m].sessions && states[m].sessions[id].revokedAt.Some?
    ensures forall k :: m <= k < |states| ==>
              id in states[k].sessions && states[k].sessions[id] == states[m].sessions[id]
  {
    LogoutGoesOn(states, actions, n, m, id);
    forall k | m <= k < |states| ensures id in states[k].sessions && states[k].sessions[id] == states[m].sessions[id] {
      RevocationIsFinal(states, actions, m, k, id);
    }
  }

  /** A logout of an unrevoked session stages its revocation, at the logout's own time. */
  lemma LogoutStagesRevocation(states: seq<State>, actions: seq<Action>, n: nat, id: Id)
    requires IsRun(states, actions) && n < |actions| && actions[n].Logout?
    requires id in states[n].sessions && states[n].sessions[id].tokenHash == actions[n].token
    ensures actions[n].t in states[n + 1].txs && states[n + 1].sessions == states[n].sessions
    ensures var tx := states[n + 1].txs[actions[n].t];
            && tx.now == actions[n].now
            && (if states[n].sessions[id].revokedAt.None? then tx.phase.Revoking? && tx.phase.prevId == id
                else tx.phase == Done(true))
  {
    RunIsSafe(states, actions, n);
    assert Next(states[n], actions[n], states[n + 1]);
  }

  /** Its commit revokes that session at that time, links it to nothing, and changes no other. */
  lemma LogoutChangesOneSession(states: seq<State>, actions: seq<Action>, n: nat)
    requires IsRun(states, actions) && n < |actions| && actions[n].Commit?
    requires actions[n].t in states[n].txs && states[n].txs[actions[n].t].purpose.LogoutTx?
    ensures states[n].txs[actions[n].t].phase.Revoking?
    ensures var m, m', id := states[n].sessions, states[n + 1].sessions, states[n].txs[actions[n].t].phase.prevId;
            && id in m && m[id].revokedAt.None? && m'.Keys == m.Keys
            && m'[id].revokedAt == Some(states[n].txs[actions[n].t].now) && m'[id].replacedBy.None?
            && (forall d :: d in m && d != id ==> m'[d] == m[d])
    ensures actions[n].t in states[n + 1].txs && states[n + 1].txs[actions[n].t].phase == Done(actions[n].acknowledged)
  {
    RunIsSafe(states, actions, n);
    assert Next(states[n], actions[n], states[n + 1]);
    PurposeFits(states, actions, n, actions[n].t);
    assert PhaseOk(states[n], states[n].txs[actions[n].t]);
    UnrevokedIsUnlinked(states, actions, n, states[n].txs[actions[n].t].phase.prevId);
  }

  lemma UnrevokedIsUnlinked(states: seq<State>, actions: seq<Action>, n: nat, id: Id)
    requires IsRun(states, actions) && n < |states| && id in states[n].sessions
    requires states[n].sessions[id].revokedAt.None?
    ensures states[n].sessions[id].replacedBy.None?
  {
    var chains := SessionsFormChains(states, actions, n);
    assert Covered(chains, id);
    var i, j :| Place(chains, i, j) && chains[i].ids[j] == id;
    assert LinkOk(states[n].sessions, chains[i], j);
  }

  // ---------------------------------------------------- what each call can be

  /** Each kind of call has its own phases. */
  predicate Fits(tx: Tx) {
    match tx.phase
    case LoggingIn(_, _) => tx.purpose.LoginTx?
    case Found(_) => tx.purpose.RefreshTx?
    case Inserted(_, _) => tx.purpose.RefreshTx?
    case Rotated(_, _, _, _) => tx.purpose.RefreshTx?
    case Revoking(_, _) => tx.purpose.LogoutTx?
    case Done(_) => true
  }

  lemma StepFits(s: State, a: Action, s': State, t: TxId)
    requires Next(s, a, s') && (t in s.txs ==> Fits(s.txs[t]))
    ensures t in s'.txs ==> Fits(s'.txs[t])
    ensures t in s.txs ==> t in s'.txs && s'.txs[t].purpose == s.txs[t].purpose
    ensures t in s.txs ==> s'.txs[t].hash == s.txs[t].hash && s'.txs[t].now == s.txs[t].now
  {
  }

  lemma {:induction false} PurposeFits(states: seq<State>, actions: seq<Action>, n: nat, t: TxId)
    requires IsRun(states, actions) && n < |states|
    ensures t in states[n].txs ==> Fits(states[n].txs[t])
  {
    if n > 0 {
      PurposeFits(states, actions, n - 1, t);
      assert Next(states[n - 1], actions[n - 1], states[n]);
      StepFits(states[n - 1], actions[n - 1], states[n], t);
    }
  }

  // -------------------------------------------------------- login and refresh

  /** Step `k` committed the writes of `t`. */
  ghost predicate CommitsAt(states: seq<State>, actions: seq<Action>, k: nat, t: TxId) {
    && k < |actions| && k < |states| && actions[k] == Commit(t, true) && t in states[k].txs
    && (states[k].txs[t].phase.LoggingIn? || states[k].txs[t].phase.Rotated? || states[k].txs[t].phase.Revoking?)
  }

  /** Only a commit turns a login or a refresh into a success. */
  lemma OnlyCommitsSucceed(s: State, a: Action, s': State, t: TxId)
    requires Next(s, a, s') && t in s'.txs && s'.txs[t].phase == Done(true) && !s'.txs[t].purpose.LogoutTx?
    ensures a == Commit(t, true) || (t in s.txs && s.txs[t] == s'.txs[t])
  {
  }

  /** A login or refresh told of success has committed: its new session was stored at that step. */
  lemma {:induction false} SuccessIsTrue(states: seq<State>, actions: seq<Action>, n: nat, t: TxId) returns (k: nat)
    requires IsRun(states, actions) && n < |states| && t in states[n].txs
    requires states[n].txs[t].phase == Done(true) && !states[n].txs[t].purpose.LogoutTx?
    ensures k < n && CommitsAt(states, actions, k, t)
    ensures states[k].txs[t].purpose == states[n].txs[t].purpose && states[k].txs[t].hash == states[n].txs[t].hash
    ensures if states[n].txs[t].purpose.LoginTx? then states[k].txs[t].phase.LoggingIn?
            else states[k].txs[t].phase.Rotated?
  {
    assert Next(states[n - 1], actions[n - 1], states[n]);
    OnlyCommitsSucceed(states[n - 1], actions[n - 1], states[n], t);
    if actions[n - 1] == Commit(t, true) {
      k := n - 1;
      PurposeFits(states, actions, n - 1, t);
      StepFits(states[n - 1], actions[n - 1], states[n], t);
    } else {
      k := SuccessIsTrue(states, actions, n - 1, t);
    }
  }

  ghost predicate NoneLive(s: State, token: Token, now: Time) {
    forall id :: id in s.sessions && s.sessions[id].tokenHash == token ==>
      s.sessions[id].revokedAt.Some? || s.sessions[id].expiresAt <= now
  }

  /** A refresh whose old session is no longer live when it comes to revoke it is told so and leaves no trace. */
  lemma LosingRefreshFails(states: seq<State>, actions: seq<Action>, n: nat)
    requires IsRun(states, actions) && n < |actions| && actions[n].RevokeOld?
    ensures actions[n].t in states[n].txs && actions[n].t in states[n + 1].txs
    ensures states[n + 1].sessions == states[n].sessions
    ensures var tx, next := states[n].txs[actions[n].t], states[n + 1].txs[actions[n].t].phase;
            && (next == Done(false) <==> NoneLive(states[n], tx.hash, tx.now))
            && (next != Done(false) ==> next.Rotated?)
  {
    RunIsSafe(states, actions, n);
    assert Next(states[n], actions[n], states[n + 1]);
  }

  /** Who refreshes with a token that names no live session is turned away at once. */
  lemma FindTells(states: seq<State>, actions: seq<Action>, n: nat)
    requires IsRun(states, actions) && n < |actions| && actions[n].Find?
    ensures actions[n].t in states[n + 1].txs && states[n + 1].sessions == states[n].sessions
    ensures var next := states[n + 1].txs[actions[n].t].phase;
            && (next == Done(false) <==> NoneLive(states[n], actions[n].token, actions[n].now))
            && (next != Done(false) ==> next.Found?)
  {
    RunIsSafe(states, actions, n);
    assert Next(states[n], actions[n], states[n + 1]);
  }

  /** The session a call has staged, until it ends. */
  predicate Staging(s: State, t: TxId, id: Id, session: Session) {
    && t in s.txs
    && (s.txs[t].phase.Done? ||
        (HasNew(s.txs[t].phase) && s.txs[t].phase.nextId == id && s.txs[t].phase.next == session))
  }

  lemma {:induction false} StagingStays(states: seq<State>, actions: seq<Action>, b: nat, n: nat, t: TxId, id: Id,
                                        session: Session)
    requires IsRun(states, actions) && b <= n < |states| && Staging(states[b], t, id, session)
    ensures Staging(states[n], t, id, session)
    decreases n
  {
    if b < n {
      StagingStays(states, actions, b, n - 1, t, id, session);
      assert Next(states[n - 1], actions[n - 1], states[n]);
    }
  }

  /** A login's commit stores exactly the session it asked for. */
  lemma LoginStoresItsSession(states: seq<State>, actions: seq<Action>, b: nat, n: nat)
    requires IsRun(states, actions) && b < n < |actions| && actions[b].Login?
    requires actions[n].Commit? && actions[n].t == actions[b].t
    ensures var a := actions[b];
            states[n + 1].sessions == states[n].sessions[a.id := Session(a.user, a.token, a.expiresAt, None, None)]
  {
    var a := actions[b];
    assert Next(states[b], actions[b], states[b + 1]) && Next(states[n], actions[n], states[n + 1]);
    StagingStays(states, actions, b + 1, n, a.t, a.id, Session(a.user, a.token, a.expiresAt, None, None));
    PurposeStays(states, actions, b + 1, n, a.t);
    PurposeFits(states, actions, n, a.t);
  }

  lemma {:induction false} PurposeStays(states: seq<State>, actions: seq<Action>, b: nat, n: nat, t: TxId)
    requires IsRun(states, actions) && b <= n < |states| && t in states[b].txs
    ensures t in states[n].txs && states[n].txs[t].purpose == states[b].txs[t].purpose
    ensures states[n].txs[t].hash == states[b].txs[t].hash && states[n].txs[t].now == states[b].txs[t].now
    decreases n
  {
    if b < n {
      PurposeStays(states, actions, b, n - 1, t);
      PurposeFits(states, actions, n - 1, t);
      assert Next(states[n - 1], actions[n - 1], states[n]);
      StepFits(states[n - 1], actions[n - 1], states[n], t);
    }
  }

  /** A refresh's commit stores the session its insert asked for, for the user of the old one. */
  lemma RefreshStoresItsSession(states: seq<State>, actions: seq<Action>, b: nat, n: nat)
    requires IsRun(states, actions) && b < n < |actions| && actions[b].InsertNew?
    requires actions[n].Commit? && actions[n].t == actions[b].t
    ensures var a := actions[b];
            && a.id in states[n + 1].sessions && states[n + 1].sessions[a.id].tokenHash == a.token
            && states[n + 1].sessions[a.id].expiresAt == a.expiresAt && JustOpened(states[n + 1].sessions[a.id])
  {
    var a := actions[b];
    assert Next(states[b], actions[b], states[b + 1]) && Next(states[n], actions[n], states[n + 1]);
    StagingStays(states, actions, b + 1, n, a.t, a.id, states[b + 1].txs[a.t].phase.next);
    RunIsSafe(states, actions, n);
    assert PhaseOk(states[n], states[n].txs[a.t]);
  }
}
