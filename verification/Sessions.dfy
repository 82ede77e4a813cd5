/**
 * Refresh sessions: the transaction bodies of Login, Refresh and Logout in
 * internal/service/auth/service.go over internal/repository/postgres/refresh_session.go.
 * Transactions interleave statement by statement. Token hashes stand for their tokens; generated
 * tokens and identifiers are fresh.
 */
module Sessions {
  import opened Common

  type Token = string
  type TxId = nat

  datatype Session = Session(
    user: Id, tokenHash: Token, expiresAt: Time, revokedAt: Option<Time>, replacedBy: Option<Id>)

  /** The uncommitted writes of a transaction sit in its phase. */
  datatype Phase =
    | LoggingIn(nextId: Id, next: Session)                                       // Login: insert staged
    | Found(user: Id)                                                           // Refresh: old session read and live
    | Inserted(nextId: Id, next: Session)                                        // Refresh: new session staged
    | Rotated(nextId: Id, next: Session, prevId: Id, prev: Session)               // Refresh: both staged
    | Revoking(prevId: Id, prev: Session)                                        // Logout: revocation staged
    | Done(ok: bool)

  datatype Purpose = LoginTx | RefreshTx | LogoutTx

  datatype Tx = Tx(purpose: Purpose, hash: Token, now: Time, phase: Phase)

  datatype State = State(
    sessions: map<Id, Session>, locks: map<Id, TxId>, txs: map<TxId, Tx>, ids: set<Id>, tokens: set<Token>)

  const INITIAL := State(map[], map[], map[], {}, {})

  datatype Action =
    | Login(t: TxId, id: Id, user: Id, token: Token, expiresAt: Time, now: Time)
    | Find(t: TxId, token: Token, found: Option<Id>, now: Time)
    | InsertNew(t: TxId, id: Id, token: Token, expiresAt: Time)
    | RevokeOld(t: TxId, found: Option<Id>)
    | Logout(t: TxId, token: Token, found: Option<Id>, now: Time)
    | Commit(t: TxId, acknowledged: bool)
    | Abort(t: TxId)

  /** The answer of a look-up by token hash. */
  ghost predicate LookedUp(s: State, token: Token, found: Option<Id>) {
    match found
    case Some(id) => id in s.sessions && s.sessions[id].tokenHash == token
    case None => forall id :: id in s.sessions ==> s.sessions[id].tokenHash != token
  }

  predicate Live(session: Session, now: Time) { session.revokedAt.None? && session.expiresAt > now }

  predicate Free(s: State, id: Id, t: TxId) { id in s.locks ==> s.locks[id] == t }

  predicate Fresh(s: State, id: Id, token: Token) { id !in s.ids && token !in s.tokens }

  ghost predicate Enabled(s: State, a: Action) {
    match a
    case Login(t, id, _, token, _, _) => t !in s.txs && Fresh(s, id, token)
    case Find(t, token, found, _) => t !in s.txs && LookedUp(s, token, found)
    case InsertNew(t, id, token, _) => t in s.txs && s.txs[t].phase.Found? && Fresh(s, id, token)
    case RevokeOld(t, found) =>
      && t in s.txs && s.txs[t].phase.Inserted? && LookedUp(s, s.txs[t].hash, found)
      && (found.Some? ==> Free(s, found.value, t))
    case Logout(t, token, found, _) =>
      t !in s.txs && LookedUp(s, token, found) && (found.Some? ==> found.value !in s.locks)
    case Commit(t, _) =>
      t in s.txs && (s.txs[t].phase.LoggingIn? || s.txs[t].phase.Rotated? || s.txs[t].phase.Revoking?)
    case Abort(t) => t in s.txs && !s.txs[t].phase.Done?
  }

  function Opened(user: Id, token: Token, expiresAt: Time): Session {
    Session(user, token, expiresAt, None, None)
  }

  function Issue(s: State, id: Id, token: Token): State {
    s.(ids := s.ids + {id}, tokens := s.tokens + {token})
  }

  function Goto(s: State, t: TxId, phase: Phase): State
    requires t in s.txs
  {
    s.(txs := s.txs[t := s.txs[t].(phase := phase)])
  }

  function Locked(phase: Phase): Option<Id> {
    if phase.Rotated? || phase.Revoking? then Some(phase.prevId) else None
  }

  function End(s: State, t: TxId, ok: bool): State
    requires t in s.txs
  {
    var held := Locked(s.txs[t].phase);
    Goto(s, t, Done(ok)).(locks := if held.Some? then s.locks - {held.value} else s.locks)
  }

  /** Refresh reads the old session and stops unless it is live. */
  function AfterFind(s: State, t: TxId, token: Token, found: Option<Id>, now: Time): State
    requires found.Some? ==> found.value in s.sessions
  {
    var phase := if found.Some? && Live(s.sessions[found.value], now) then
      Found(s.sessions[found.value].user) else Done(false);
    s.(txs := s.txs[t := Tx(RefreshTx, token, now, phase)])
  }

  /** The conditional revocation of the old session; no row means an invalid token. */
  function AfterRevokeOld(s: State, t: TxId, found: Option<Id>): State
    requires t in s.txs && s.txs[t].phase.Inserted? && (found.Some? ==> found.value in s.sessions)
  {
    var tx := s.txs[t];
    if found.Some? && Live(s.sessions[found.value], tx.now) then
      var prev := s.sessions[found.value].(revokedAt := Some(tx.now), replacedBy := Some(tx.phase.nextId));
      Goto(s, t, Rotated(tx.phase.nextId, tx.phase.next, found.value, prev)).(locks := s.locks[found.value := t])
    else End(s, t, false)
  }

  function AfterLogout(s: State, t: TxId, token: Token, found: Option<Id>, now: Time): State
    requires found.Some? ==> found.value in s.sessions
  {
    if found.Some? && s.sessions[found.value].revokedAt.None? then
      var prev := s.sessions[found.value].(revokedAt := Some(now));
      s.(txs := s.txs[t := Tx(LogoutTx, token, now, Revoking(found.value, prev))], locks := s.locks[found.value := t])
    else s.(txs := s.txs[t := Tx(LogoutTx, token, now, Done(true))])
  }

  /** All staged writes become visible together. */
  function Committed(sessions: map<Id, Session>, phase: Phase): map<Id, Session> {
    match phase
    case LoggingIn(nextId, next) => sessions[nextId := next]
    case Rotated(nextId, next, prevId, prev) => sessions[nextId := next][prevId := prev]
    case Revoking(prevId, prev) => sessions[prevId := prev]
    case _ => sessions
  }

  ghost function Apply(s: State, a: Action): State
    requires Enabled(s, a)
  {
    match a
    case Login(t, id, user, token, expiresAt, now) =>
      Issue(s, id, token).(txs := s.txs[t := Tx(LoginTx, token, now, LoggingIn(id, Opened(user, token, expiresAt)))])
    case Find(t, token, found, now) => AfterFind(s, t, token, found, now)
    case InsertNew(t, id, token, expiresAt) =>
      Goto(Issue(s, id, token), t, Inserted(id, Opened(s.txs[t].phase.user, token, expiresAt)))
    case RevokeOld(t, found) => AfterRevokeOld(s, t, found)
    case Logout(t, token, found, now) => AfterLogout(s, t, token, found, now)
    case Commit(t, acknowledged) => End(s, t, acknowledged).(sessions := Committed(s.sessions, s.txs[t].phase))
    case Abort(t) => End(s, t, false)
  }

  ghost predicate Next(s: State, a: Action, s': State) { Enabled(s, a) && s' == Apply(s, a) }

  ghost predicate IsRun(states: seq<State>, actions: seq<Action>) {
    && |states| == |actions| + 1
    && states[0] == INITIAL
    && forall i :: 0 <= i < |actions| ==> Next(states[i], actions[i], states[i + 1])
  }

  // --------------------------------------------------------- the invariant

  predicate HasNew(phase: Phase) { phase.LoggingIn? || phase.Inserted? || phase.Rotated? }

  /** Stored and staged sessions have identifiers and token hashes of their own. */
  ghost predicate Apart(s: State) {
    && (forall id :: id in s.sessions ==> id in s.ids && s.sessions[id].tokenHash in s.tokens)
    && (forall id, jd :: id in s.sessions && jd in s.sessions && id != jd ==>
         s.sessions[id].tokenHash != s.sessions[jd].tokenHash)
    && (forall t :: t in s.txs && HasNew(s.txs[t].phase) ==>
         var phase := s.txs[t].phase;
         phase.nextId in s.ids && phase.nextId !in s.sessions && phase.next.tokenHash in s.tokens)
    && (forall t, id :: t in s.txs && HasNew(s.txs[t].phase) && id in s.sessions ==>
         s.txs[t].phase.next.tokenHash != s.sessions[id].tokenHash)
    && (forall t, u :: t in s.txs && u in s.txs && t != u && HasNew(s.txs[t].phase) && HasNew(s.txs[u].phase) ==>
         s.txs[t].phase.nextId != s.txs[u].phase.nextId &&
         s.txs[t].phase.next.tokenHash != s.txs[u].phase.next.tokenHash)
  }

  ghost predicate LocksMatch(s: State) {
    && (forall id :: id in s.locks ==> s.locks[id] in s.txs && Locked(s.txs[s.locks[id]].phase) == Some(id))
    && (forall t :: t in s.txs && Locked(s.txs[t].phase).Some? ==>
         Locked(s.txs[t].phase).value in s.locks && s.locks[Locked(s.txs[t].phase).value] == t)
  }

  /** A session with this token exists and belongs to this user. */
  ghost predicate Belongs(s: State, token: Token, user: Id) {
    exists id :: id in s.sessions && s.sessions[id].tokenHash == token && s.sessions[id].user == user
  }

  predicate JustOpened(session: Session) { session.revokedAt.None? && session.replacedBy.None? }

  ghost predicate PhaseOk(s: State, tx: Tx) {
    match tx.phase
    case LoggingIn(nextId, next) => JustOpened(next)
    case Found(user) => Belongs(s, tx.hash, user)
    case Inserted(nextId, next) => JustOpened(next) && Belongs(s, tx.hash, next.user)
    case Rotated(nextId, next, prevId, prev) =>
      && JustOpened(next) && prevId in s.sessions && Live(s.sessions[prevId], tx.now)
      && prev == s.sessions[prevId].(revokedAt := Some(tx.now), replacedBy := Some(nextId))
      && next.user == prev.user && prev.tokenHash == tx.hash
    case Revoking(prevId, prev) =>
      && prevId in s.sessions && s.sessions[prevId].revokedAt.None?
      && prev == s.sessions[prevId].(revokedAt := Some(tx.now))
    case Done(_) => true
  }

  ghost predicate PhasesOk(s: State) { forall t :: t in s.txs ==> PhaseOk(s, s.txs[t]) }

  ghost predicate Safe(s: State) { Apart(s) && LocksMatch(s) && PhasesOk(s) }

  // ------------------------------------------- what a step does to sessions

  /** Nothing, a new login, a rotation, or a plain revocation. */
  datatype Change =
    | Nothing
    | Open(id: Id, session: Session)
    | Rotate(prior: Id, id: Id, session: Session, at: Time)
    | Revoke(id: Id, at: Time)

  ghost predicate Changes(m: map<Id, Session>, change: Change, m': map<Id, Session>) {
    match change
    case Nothing => m' == m
    case Open(id, session) => id !in m && JustOpened(session) && m' == m[id := session]
    case Rotate(prior, id, session, at) =>
      && prior in m && m[prior].revokedAt.None? && id !in m && JustOpened(session) && session.user == m[prior].user
      && m' == m[id := session][prior := m[prior].(revokedAt := Some(at), replacedBy := Some(id))]
    case Revoke(id, at) => id in m && m[id].revokedAt.None? && m' == m[id := m[id].(revokedAt := Some(at))]
  }

  function ChangeOf(s: State, a: Action): Change {
    if a.Commit? && a.t in s.txs then
      match s.txs[a.t].phase
      case LoggingIn(nextId, next) => Open(nextId, next)
      case Rotated(nextId, next, prevId, _) => Rotate(prevId, nextId, next, s.txs[a.t].now)
      case Revoking(prevId, _) => Revoke(prevId, s.txs[a.t].now)
      case _ => Nothing
    else Nothing
  }

  lemma StepChanges(s: State, a: Action, s': State)
    requires Apart(s) && PhasesOk(s) && Next(s, a, s')
    ensures Changes(s.sessions, ChangeOf(s, a), s'.sessions)
  {
    if a.Commit? { assert PhaseOk(s, s.txs[a.t]); }
  }

  // ------------------------------------------------------- it is inductive

  /** A step leaves other transactions alone. */
  predicate OthersSame(s: State, s': State, t: TxId) {
    && t in s'.txs && s'.txs.Keys == s.txs.Keys + {t}
    && forall u :: u in s.txs && u != t ==> s'.txs[u] == s.txs[u]
  }

  lemma StepIsLocal(s: State, a: Action, s': State)
    requires Next(s, a, s')
    ensures OthersSame(s, s', a.t)
  {
  }

  /** Identifiers and tokens after a step: the same session still staged, none, or a fresh one. */
  predicate StagesApart(s: State, s': State, t: TxId)
    requires t in s'.txs
  {
    && s.ids <= s'.ids && s.tokens <= s'.tokens
    && (HasNew(s'.txs[t].phase) ==>
         var phase := s'.txs[t].phase;
         || (t in s.txs && HasNew(s.txs[t].phase)
             && s.txs[t].phase.nextId == phase.nextId && s.txs[t].phase.next == phase.next)
         || (phase.nextId !in s.ids && phase.nextId in s'.ids
             && phase.next.tokenHash !in s.tokens && phase.next.tokenHash in s'.tokens))
  }

  lemma StepStagesApart(s: State, a: Action, s': State)
    requires Next(s, a, s')
    ensures a.t in s'.txs && StagesApart(s, s', a.t)
    ensures a.Commit? ==> s'.txs[a.t].phase.Done? && s'.ids == s.ids && s'.tokens == s.tokens
    ensures !a.Commit? ==> s'.sessions == s.sessions
  {
  }

  lemma QuietKeepsApart(s: State, s': State, t: TxId)
    requires Apart(s) && OthersSame(s, s', t) && StagesApart(s, s', t) && s'.sessions == s.sessions
    ensures Apart(s')
  {
  }

  /** Every stored session keeps its user and its token. */
  predicate IdentityKept(m: map<Id, Session>, m': map<Id, Session>) {
    forall id :: id in m ==> id in m' && m'[id].user == m[id].user && m'[id].tokenHash == m[id].tokenHash
  }

  lemma ChangeKeepsIdentity(m: map<Id, Session>, change: Change, m': map<Id, Session>)
    requires Changes(m, change, m')
    ensures IdentityKept(m, m')
  {
  }

  /** Exactly the staged session of `t`, if it has one, became visible. */
  predicate Publishes(s: State, s': State, t: TxId)
    requires t in s.txs
  {
    var phase := s.txs[t].phase;
    && IdentityKept(s.sessions, s'.sessions)
    && s'.sessions.Keys == s.sessions.Keys + (if HasNew(phase) then {phase.nextId} else {})
    && (HasNew(phase) ==> s'.sessions[phase.nextId] == phase.next)
  }

  lemma CommitPublishes(s: State, t: TxId, acknowledged: bool, s': State)
    requires Apart(s) && PhasesOk(s) && Next(s, Commit(t, acknowledged), s')
    ensures Publishes(s, s', t)
  {
    assert PhaseOk(s, s.txs[t]);
    StepChanges(s, Commit(t, acknowledged), s');
    ChangeKeepsIdentity(s.sessions, ChangeOf(s, Commit(t, acknowledged)), s'.sessions);
  }

  lemma CommitKeepsApart(s: State, t: TxId, s': State)
    requires Apart(s) && OthersSame(s, s', t) && t in s.txs && Publishes(s, s', t)
    requires s'.txs[t].phase.Done? && s'.ids == s.ids && s'.tokens == s.tokens
    ensures Apart(s')
  {
    var phase := s.txs[t].phase;
    assert forall id :: id in s'.sessions && id !in s.sessions ==> HasNew(phase) && id == phase.nextId;
    assert forall u :: u in s'.txs && HasNew(s'.txs[u].phase) ==> u != t && u in s.txs && s'.txs[u] == s.txs[u];
  }

  lemma StepKeepsApart(s: State, a: Action, s': State)
    requires Apart(s) && PhasesOk(s) && Next(s, a, s')
    ensures Apart(s')
  {
    StepIsLocal(s, a, s');
    StepStagesApart(s, a, s');
    if a.Commit? {
      CommitPublishes(s, a.t, a.acknowledged, s');
      CommitKeepsApart(s, a.t, s');
    } else {
      QuietKeepsApart(s, s', a.t);
    }
  }

  function LockedBy(s: State, t: TxId): Option<Id> {
    if t in s.txs then Locked(s.txs[t].phase) else None
  }

  /** A step keeps the locks, drops its own, or takes one that was free. */
  predicate LockStep(s: State, s': State, t: TxId) {
    var was, now := LockedBy(s, t), LockedBy(s', t);
    || (now == was && s'.locks == s.locks)
    || (was.Some? && now.None? && s'.locks == s.locks - {was.value})
    || (was.None? && now.Some? && (now.value !in s.locks || s.locks[now.value] == t)
        && s'.locks == s.locks[now.value := t])
  }

  lemma StepLocks(s: State, a: Action, s': State)
    requires Next(s, a, s')
    ensures LockStep(s, s', a.t)
  {
  }

  lemma LockStepKeepsLocks(s: State, s': State, t: TxId)
    requires LocksMatch(s) && OthersSame(s, s', t) && LockStep(s, s', t)
    ensures LocksMatch(s')
  {
    forall u | u in s'.txs && Locked(s'.txs[u].phase).Some?
      ensures Locked(s'.txs[u].phase).value in s'.locks && s'.locks[Locked(s'.txs[u].phase).value] == u
    {
      assert u != t ==> s'.txs[u] == s.txs[u];
    }
  }

  /** The session a transaction has locked is out of every other transaction's reach. */
  predicate Untouched(s: State, s': State, id: Id) {
    id in s.sessions && id in s'.sessions && s'.sessions[id] == s.sessions[id]
  }

  lemma LockedStaysPut(s: State, a: Action, s': State, u: TxId)
    requires Safe(s) && Next(s, a, s') && u in s.txs && u != a.t && Locked(s.txs[u].phase).Some?
    ensures Untouched(s, s', Locked(s.txs[u].phase).value)
  {
    assert PhaseOk(s, s.txs[u]);
    if a.Commit? { assert PhaseOk(s, s.txs[a.t]); }
  }

  lemma BelongsStays(s: State, s': State, token: Token, user: Id)
    requires Belongs(s, token, user) && IdentityKept(s.sessions, s'.sessions)
    ensures Belongs(s', token, user)
  {
    var id :| id in s.sessions && s.sessions[id].tokenHash == token && s.sessions[id].user == user;
    assert id in s'.sessions;
  }

  lemma OtherPhaseKept(s: State, s': State, tx: Tx)
    requires PhaseOk(s, tx) && IdentityKept(s.sessions, s'.sessions)
    requires Locked(tx.phase).Some? ==> Untouched(s, s', Locked(tx.phase).value)
    ensures PhaseOk(s', tx)
  {
    if tx.phase.Found? { BelongsStays(s, s', tx.hash, tx.phase.user); }
    if tx.phase.Inserted? { BelongsStays(s, s', tx.hash, tx.phase.next.user); }
  }

  lemma OwnPhaseKept(s: State, a: Action, s': State)
    requires Apart(s) && PhasesOk(s) && Next(s, a, s')
    ensures a.t in s'.txs && PhaseOk(s', s'.txs[a.t])
  {
    match a
    case Login(_, _, _, _, _, _) =>
    case Find(_, token, found, now) =>
      if found.Some? && Live(s.sessions[found.value], now) {
        assert Belongs(s', token, s.sessions[found.value].user);
      }
    case InsertNew(t, _, _, _) => assert PhaseOk(s, s.txs[t]); BelongsStays(s, s', s.txs[t].hash, s.txs[t].phase.user);
    case RevokeOld(t, found) =>
      assert PhaseOk(s, s.txs[t]);
    case Logout(_, _, _, _) =>
    case Commit(_, _) =>
    case Abort(_) =>
  }

  lemma StepKeepsSafe(s: State, a: Action, s': State)
    requires Safe(s) && Next(s, a, s')
    ensures Safe(s') && Changes(s.sessions, ChangeOf(s, a), s'.sessions)
  {
    StepKeepsApart(s, a, s');
    StepIsLocal(s, a, s');
    StepLocks(s, a, s');
    LockStepKeepsLocks(s, s', a.t);
    StepChanges(s, a, s');
    ChangeKeepsIdentity(s.sessions, ChangeOf(s, a), s'.sessions);
    forall u | u in s'.txs ensures PhaseOk(s', s'.txs[u]) {
      if u == a.t {
        OwnPhaseKept(s, a, s');
      } else {
        assert PhaseOk(s, s.txs[u]);
        if Locked(s.txs[u].phase).Some? { LockedStaysPut(s, a, s', u); }
        OtherPhaseKept(s, s', s.txs[u]);
      }
    }
  }

  lemma {:induction false} RunIsSafe(states: seq<State>, actions: seq<Action>, n: nat)
    requires IsRun(states, actions) && n < |states|
    ensures Safe(states[n])
  {
    if n > 0 {
      RunIsSafe(states, actions, n - 1);
      StepKeepsSafe(states[n - 1], actions[n - 1], states[n]);
    }
  }
}
