/** The shape of the replaced-by links, for every run of logins, refreshes and logouts. */
module SessionChains {
  import opened Common
  import opened Sessions

  /** The sessions that replaced one another since one login, oldest first, and their user. */
  datatype Chain = Chain(user: Id, ids: seq<Id>)

  predicate Place(chains: seq<Chain>, i: int, j: int) { 0 <= i < |chains| && 0 <= j < |chains[i].ids| }

  /** What is stored for the session at one place of a chain. */
  predicate LinkOk(m: map<Id, Session>, chain: Chain, j: int)
    requires 0 <= j < |chain.ids|
  {
    && chain.ids[j] in m
    && var session := m[chain.ids[j]];
       && session.user == chain.user
       && (if j + 1 < |chain.ids|
           then session.replacedBy == Some(chain.ids[j + 1]) && session.revokedAt.Some?
           else session.replacedBy.None?)
  }

  ghost predicate Linked(m: map<Id, Session>, chains: seq<Chain>) {
    && (forall i :: 0 <= i < |chains| ==> chains[i].ids != [])
    && (forall i, j {:trigger Place(chains, i, j)} :: Place(chains, i, j) ==> LinkOk(m, chains[i], j))
  }

  ghost predicate NoRepeats(chains: seq<Chain>) {
    forall i, j, k, l {:trigger Place(chains, i, j), Place(chains, k, l)} ::
      Place(chains, i, j) && Place(chains, k, l) && chains[i].ids[j] == chains[k].ids[l] ==> i == k && j == l
  }

  ghost predicate Covered(chains: seq<Chain>, id: Id) {
    exists i, j {:trigger Place(chains, i, j)} :: Place(chains, i, j) && chains[i].ids[j] == id
  }

  ghost predicate Covers(m: map<Id, Session>, chains: seq<Chain>) {
    forall id :: id in m ==> Covered(chains, id)
  }

  /**
   * The chains split the sessions: every session stands at exactly one place, each one points at the
   * next in its chain and only there, a chain has one user, and only its last session may be unrevoked.
   */
  ghost predicate Decomposes(m: map<Id, Session>, chains: seq<Chain>) {
    Linked(m, chains) && NoRepeats(chains) && Covers(m, chains)
  }

  lemma OpenAddsChain(m: map<Id, Session>, chains: seq<Chain>, id: Id, session: Session, m': map<Id, Session>)
    requires Linked(m, chains) && NoRepeats(chains) && Changes(m, Open(id, session), m')
    ensures Linked(m', chains + [Chain(session.user, [id])]) && NoRepeats(chains + [Chain(session.user, [id])])
  {
    var more := chains + [Chain(session.user, [id])];
    forall i, j | Place(more, i, j) ensures LinkOk(m', more[i], j) && (i < |chains| <==> more[i].ids[j] != id) {
      if i < |chains| { assert Place(chains, i, j) && LinkOk(m, chains[i], j); }
    }
    forall i, j, k, l | Place(more, i, j) && Place(more, k, l) && more[i].ids[j] == more[k].ids[l]
      ensures i == k && j == l
    {
      if i < |chains| { assert Place(chains, i, j) && Place(chains, k, l); }
    }
  }

  lemma CoverGrows(chains: seq<Chain>, more: seq<Chain>, id: Id)
    requires Covered(chains, id) && |chains| <= |more|
    requires forall i :: 0 <= i < |chains| ==> chains[i].ids <= more[i].ids
    ensures Covered(more, id)
  {
    var i, j :| Place(chains, i, j) && chains[i].ids[j] == id;
    assert Place(more, i, j);
  }

  lemma CoversGrow(m: map<Id, Session>, chains: seq<Chain>, m': map<Id, Session>, more: seq<Chain>, id: Id)
    requires Covers(m, chains) && |chains| <= |more| && m'.Keys == m.Keys + {id} && Covered(more, id)
    requires forall i :: 0 <= i < |chains| ==> chains[i].ids <= more[i].ids
    ensures Covers(m', more)
  {
    forall jd | jd in m' ensures Covered(more, jd) {
      if jd != id { CoverGrows(chains, more, jd); }
    }
  }

  /** An unrevoked session is the last of its chain. */
  lemma UnrevokedIsLast(m: map<Id, Session>, chains: seq<Chain>, i: int, j: int)
    requires Linked(m, chains) && Place(chains, i, j) && m[chains[i].ids[j]].revokedAt.None?
    ensures j == |chains[i].ids| - 1
  {
  }

  lemma RevokeKeepsChains(m: map<Id, Session>, chains: seq<Chain>, id: Id, at: Time, m': map<Id, Session>)
    requires Linked(m, chains) && Changes(m, Revoke(id, at), m')
    ensures Linked(m', chains)
  {
    forall i, j | Place(chains, i, j) ensures LinkOk(m', chains[i], j) {
      assert LinkOk(m, chains[i], j);
    }
  }

  /** `chains` with `id` put at the end of chain `r`. */
  function Grown(chains: seq<Chain>, r: nat, id: Id): seq<Chain>
    requires r < |chains|
  {
    chains[r := chains[r].(ids := chains[r].ids + [id])]
  }

  lemma RotateGrowsChain(m: map<Id, Session>, chains: seq<Chain>, r: nat, id: Id, session: Session, at: Time,
                         m': map<Id, Session>)
    requires Linked(m, chains) && NoRepeats(chains) && r < |chains| && chains[r].ids != []
    requires Changes(m, Rotate(chains[r].ids[|chains[r].ids| - 1], id, session, at), m')
    ensures Linked(m', Grown(chains, r, id)) && NoRepeats(Grown(chains, r, id))
  {
    var more := Grown(chains, r, id);
    var last := |chains[r].ids| - 1;
    assert Place(chains, r, last) && LinkOk(m, chains[r], last);
    forall i, j | Place(more, i, j)
      ensures LinkOk(m', more[i], j) && (more[i].ids[j] == id <==> i == r && j == last + 1)
    {
      if i != r || j <= last {
        assert Place(chains, i, j) && LinkOk(m, chains[i], j) && more[i].ids[j] == chains[i].ids[j];
        assert chains[i].ids[j] == chains[r].ids[last] ==> i == r && j == last;
      }
    }
    forall i, j, k, l | Place(more, i, j) && Place(more, k, l) && more[i].ids[j] == more[k].ids[l]
      ensures i == k && j == l
    {
      if more[i].ids[j] != id { assert Place(chains, i, j) && Place(chains, k, l); }
    }
  }

  /** The sessions that committed logins have opened in the first `n` steps, each as a chain of its own. */
  ghost function Logins(states: seq<State>, actions: seq<Action>, n: nat): seq<Chain>
    requires n <= |actions| && n <= |states|
  {
    if n == 0 then []
    else Logins(states, actions, n - 1) + NewLogin(ChangeOf(states[n - 1], actions[n - 1]))
  }

  function NewLogin(change: Change): seq<Chain> {
    if change.Open? then [Chain(change.session.user, [change.id])] else []
  }

  /** One chain per login, starting with the session that login opened, for its user. */
  predicate StartWith(chains: seq<Chain>, logins: seq<Chain>) {
    |chains| == |logins| && forall i :: 0 <= i < |chains| ==>
      && chains[i].user == logins[i].user && chains[i].ids != [] && logins[i].ids != []
      && chains[i].ids[0] == logins[i].ids[0]
  }

  lemma StepOfRun(states: seq<State>, actions: seq<Action>, n: nat)
    requires IsRun(states, actions) && n < |actions|
    ensures Changes(states[n].sessions, ChangeOf(states[n], actions[n]), states[n + 1].sessions)
  {
    RunIsSafe(states, actions, n);
    StepKeepsSafe(states[n], actions[n], states[n + 1]);
  }

  lemma GrownStarts(chains: seq<Chain>, i: nat, id: Id)
    requires i < |chains| && forall k :: 0 <= k < |chains| ==> chains[k].ids != []
    ensures StartWith(Grown(chains, i, id), chains) && StartWith(chains, chains)
  {
  }

  lemma ChangeKeepsDecomposition(m: map<Id, Session>, chains: seq<Chain>, change: Change, m': map<Id, Session>)
    returns (more: seq<Chain>)
    requires Decomposes(m, chains) && Changes(m, change, m')
    ensures Decomposes(m', more) && StartWith(more, chains + NewLogin(change))
  {
    assert NewLogin(change) == [] ==> chains + NewLogin(change) == chains;
    match change
    case Nothing => more := chains;
    case Open(id, session) =>
      OpenAddsChain(m, chains, id, session, m');
      more := chains + [Chain(session.user, [id])];
      assert Place(more, |chains|, 0);
      CoversGrow(m, chains, m', more, id);
    case Rotate(prior, id, session, at) =>
      assert Covered(chains, prior);
      var i, j :| Place(chains, i, j) && chains[i].ids[j] == prior;
      UnrevokedIsLast(m, chains, i, j);
      RotateGrowsChain(m, chains, i, id, session, at, m');
      more := Grown(chains, i, id);
      GrownStarts(chains, i, id);
      assert Place(more, i, j + 1);
      CoversGrow(m, chains, m', more, id);
    case Revoke(id, at) =>
      RevokeKeepsChains(m, chains, id, at, m');
      more := chains;
  }

  lemma StartsCarryOver(a: seq<Chain>, b: seq<Chain>, c: seq<Chain>, added: seq<Chain>)
    requires StartWith(a, b) && StartWith(c, a + added)
    ensures StartWith(c, b + added)
  {
  }

  /** In every run the sessions form disjoint chains, one per login and starting with its session. */
  lemma {:induction false} SessionsFormChains(states: seq<State>, actions: seq<Action>, n: nat)
      returns (chains: seq<Chain>)
    requires IsRun(states, actions) && n <= |actions|
    ensures Decomposes(states[n].sessions, chains) && StartWith(chains, Logins(states, actions, n))
  {
    if n == 0 {
      chains := [];
    } else {
      var shorter := SessionsFormChains(states, actions, n - 1);
      StepOfRun(states, actions, n - 1);
      var change := ChangeOf(states[n - 1], actions[n - 1]);
      chains := ChangeKeepsDecomposition(states[n - 1].sessions, shorter, change, states[n].sessions);
      StartsCarryOver(shorter, Logins(states, actions, n - 1), chains, NewLogin(change));
    }
  }

  // --------------------------------------------------------------- acyclic

  /** Follow `k` replaced-by links. */
  function Follow(m: map<Id, Session>, id: Id, k: nat): Option<Id>
    decreases k
  {
    if k == 0 then Some(id)
    else if id in m && m[id].replacedBy.Some? then Follow(m, m[id].replacedBy.value, k - 1)
    else None
  }

  lemma {:induction false} FollowWalksChain(m: map<Id, Session>, chains: seq<Chain>, i: int, j: int, k: nat)
    requires Linked(m, chains) && Place(chains, i, j)
    ensures Follow(m, chains[i].ids[j], k) == if j + k < |chains[i].ids| then Some(chains[i].ids[j + k]) else None
    decreases k
  {
    if k > 0 && j + 1 < |chains[i].ids| {
      assert Place(chains, i, j + 1);
      FollowWalksChain(m, chains, i, j + 1, k - 1);
    }
  }

  /** Links never lead back. */
  lemma LinksAreAcyclic(states: seq<State>, actions: seq<Action>, n: nat, id: Id, k: nat)
    requires IsRun(states, actions) && n <= |actions| && id in states[n].sessions && k > 0
    ensures Follow(states[n].sessions, id, k) != Some(id)
  {
    var chains := SessionsFormChains(states, actions, n);
    assert Covered(chains, id);
    var i, j :| Place(chains, i, j) && chains[i].ids[j] == id;
    FollowWalksChain(states[n].sessions, chains, i, j, k);
    assert j + k < |chains[i].ids| ==> Place(chains, i, j + k);
  }

  /** Two different sessions never lead to one successor. */
  lemma LinksAreInjective(states: seq<State>, actions: seq<Action>, n: nat, id: Id, jd: Id)
    requires IsRun(states, actions) && n <= |actions| && id in states[n].sessions && jd in states[n].sessions
    requires states[n].sessions[id].replacedBy.Some?
    requires states[n].sessions[id].replacedBy == states[n].sessions[jd].replacedBy
    ensures id == jd
  {
    var chains := SessionsFormChains(states, actions, n);
    assert Covered(chains, id) && Covered(chains, jd);
    var i, j :| Place(chains, i, j) && chains[i].ids[j] == id;
    var p, q :| Place(chains, p, q) && chains[p].ids[q] == jd;
    assert Place(chains, i, j + 1) && Place(chains, p, q + 1);
  }

  // --------------------------------------------------------- revocation data

  lemma RevokedStays(m: map<Id, Session>, change: Change, m': map<Id, Session>, id: Id)
    requires Changes(m, change, m') && id in m
    ensures id in m' && m'[id].user == m[id].user && m'[id].tokenHash == m[id].tokenHash
    ensures m[id].revokedAt.Some? ==> m'[id] == m[id]
  {
  }

  /** A session keeps its user and token for ever; once revoked, nothing of it changes again. */
  lemma {:induction false} RevocationIsFinal(states: seq<State>, actions: seq<Action>, n: nat, k: nat, id: Id)
    requires IsRun(states, actions) && n <= k <= |actions| && id in states[n].sessions
    ensures id in states[k].sessions
    ensures states[k].sessions[id].user == states[n].sessions[id].user
    ensures states[k].sessions[id].tokenHash == states[n].sessions[id].tokenHash
    ensures states[n].sessions[id].revokedAt.Some? ==> states[k].sessions[id] == states[n].sessions[id]
    decreases k
  {
    if n < k {
      RevocationIsFinal(states, actions, n, k - 1, id);
      StepOfRun(states, actions, k - 1);
      RevokedStays(states[k - 1].sessions, ChangeOf(states[k - 1], actions[k - 1]), states[k].sessions, id);
    }
  }

  /** Step `n` commits a refresh of the session whose token hashes to `token`. */
  ghost predicate Refreshes(states: seq<State>, actions: seq<Action>, n: nat, token: Token) {
    && n < |actions| && n < |states|
    && actions[n].Commit? && actions[n].t in states[n].txs
    && states[n].txs[actions[n].t].phase.Rotated? && states[n].txs[actions[n].t].hash == token
  }

  lemma RefreshRevokes(s: State, a: Action, s': State)
    requires Safe(s) && Next(s, a, s') && a.Commit? && s.txs[a.t].phase.Rotated?
    ensures var id := s.txs[a.t].phase.prevId;
            && id in s.sessions && id in s'.sessions
            && s.sessions[id].tokenHash == s.txs[a.t].hash
            && s.sessions[id].revokedAt.None? && s'.sessions[id].revokedAt.Some?
  {
    assert PhaseOk(s, s.txs[a.t]);
  }

  /**
   * A refresh that commits replaces exactly one live session: until then unrevoked and not expired at the
   * refresh's own time, afterwards revoked at that time and linked to a new unrevoked session of its user.
   */
  lemma OnlyLiveSessionsAreRefreshed(states: seq<State>, actions: seq<Action>, n: nat, token: Token) returns (id: Id)
    requires IsRun(states, actions) && Refreshes(states, actions, n, token)
    ensures id in states[n].sessions && states[n].sessions[id].tokenHash == token
    ensures states[n].sessions[id].revokedAt.None? && states[n].sessions[id].expiresAt > states[n].txs[actions[n].t].now
    ensures id in states[n + 1].sessions
    ensures states[n + 1].sessions[id].revokedAt == Some(states[n].txs[actions[n].t].now)
    ensures var link := states[n + 1].sessions[id].replacedBy;
            && link.Some? && link.value !in states[n].sessions && link.value in states[n + 1].sessions
            && states[n + 1].sessions[link.value].user == states[n].sessions[id].user
            && states[n + 1].sessions[link.value].revokedAt.None?
    ensures states[n + 1].sessions.Keys == states[n].sessions.Keys + {states[n + 1].sessions[id].replacedBy.value}
    ensures forall d :: d in states[n].sessions && d != id ==> states[n + 1].sessions[d] == states[n].sessions[d]
  {
    RunIsSafe(states, actions, n);
    id := states[n].txs[actions[n].t].phase.prevId;
    assert PhaseOk(states[n], states[n].txs[actions[n].t]);
  }

  lemma TokensNameOneSession(s: State, id: Id, jd: Id)
    requires Apart(s) && id in s.sessions && jd in s.sessions && s.sessions[id].tokenHash == s.sessions[jd].tokenHash
    ensures id == jd
  {
  }

  /** However many refreshes of one token run at once, at most one of them ever commits. */
  lemma OneSuccessorPerToken(states: seq<State>, actions: seq<Action>, n: nat, k: nat, token: Token)
    requires IsRun(states, actions)
    requires Refreshes(states, actions, n, token) && Refreshes(states, actions, k, token)
    ensures n == k
  {
    RefreshIsLast(states, actions, n, k, token);
    RefreshIsLast(states, actions, k, n, token);
  }

  lemma RefreshIsLast(states: seq<State>, actions: seq<Action>, n: nat, k: nat, token: Token)
    requires IsRun(states, actions)
    requires Refreshes(states, actions, n, token) && Refreshes(states, actions, k, token)
    ensures k <= n
  {
    if n < k {
      RunIsSafe(states, actions, n);
      RunIsSafe(states, actions, k);
      RefreshRevokes(states[n], actions[n], states[n + 1]);
      RefreshRevokes(states[k], actions[k], states[k + 1]);
      var id := states[n].txs[actions[n].t].phase.prevId;
      RevocationIsFinal(states, actions, n, n + 1, id);
      RevocationIsFinal(states, actions, n + 1, k, id);
      TokensNameOneSession(states[k], id, states[k].txs[actions[k].t].phase.prevId);
    }
  }
}
