/**
 * The lifecycle and the relay run together: a committed mutation inserts its audit event into the
 * outbox in the same transaction, and relay steps interleave freely with everything else.
 */
module Pipeline {
  import opened Common
  import A = Audit
  import D = Domain
  import L = Lifecycle
  import P = LifecycleProof
  import T = LifecycleTheorems
  import R = Relay

  datatype State = State(life: L.State, relay: R.State)

  datatype Action = Mutate(mutation: L.Action, now: Time) | Deliver(delivery: R.Action)

  /** The event a lifecycle step has committed, if any. */
  function NewEvent(s: L.State, t: L.State): Option<A.AuditEvent> {
    if |t.history| == |s.history| + 1 then Some(t.history[|s.history|].event) else None
  }

  ghost predicate Next(cfg: L.Config, s: State, a: Action, t: State) {
    match a
    case Mutate(step, now) =>
      && L.Next(cfg, s.life, step, t.life)
      && (match NewEvent(s.life, t.life)
          case None => t.relay == s.relay
          case Some(event) =>
            R.Enabled(s.relay, R.Insert(event, now)) && t.relay == R.AfterInsert(s.relay, event, now))
    case Deliver(step) =>
      !step.Insert? && R.Enabled(s.relay, step) && t.relay == R.Apply(s.relay, step) && t.life == s.life
  }

  ghost predicate IsRun(cfg: L.Config, states: seq<State>, actions: seq<Action>) {
    && |states| == |actions| + 1
    && L.Init(states[0].life) && states[0].relay == R.INITIAL
    && forall i :: 0 <= i < |actions| ==> Next(cfg, states[i], actions[i], states[i + 1])
  }

  // --------------------------------------------------------- the invariant

  predicate CommittedAt(h: seq<L.Entry>, i: int, id: Id) {
    0 <= i < |h| && h[i].event.eventId == id
  }

  /** What the relay was ever given is exactly what the lifecycle has committed. */
  ghost predicate Linked(h: seq<L.Entry>, committed: map<Id, A.AuditEvent>) {
    && (forall i :: 0 <= i < |h| ==>
         h[i].event.eventId in committed && committed[h[i].event.eventId] == h[i].event)
    && (forall id :: id in committed ==> exists i :: CommittedAt(h, i, id))
  }

  ghost predicate Inv(cfg: L.Config, s: State) {
    P.Safe(cfg, s.life) && T.TrailsTell(cfg, s.life) && R.Inv(s.relay) && Linked(s.life.history, s.relay.committed)
  }

  lemma LinkGrows(h: seq<L.Entry>, committed: map<Id, A.AuditEvent>, e: L.Entry)
    requires Linked(h, committed)
    requires forall i :: 0 <= i < |h| ==> h[i].event.eventId != e.event.eventId
    ensures e.event.eventId !in committed
    ensures Linked(h + [e], committed[e.event.eventId := e.event])
  {
    var g := h + [e];
    var grown := committed[e.event.eventId := e.event];
    assert forall i :: !CommittedAt(h, i, e.event.eventId);
    forall id | id in grown ensures exists i :: CommittedAt(g, i, id) {
      if id == e.event.eventId {
        assert CommittedAt(g, |h|, id);
      } else {
        var i :| CommittedAt(h, i, id);
        assert CommittedAt(g, i, id);
      }
    }
  }

  lemma MutateKeepsInv(cfg: L.Config, s: State, step: L.Action, now: Time, t: State)
    requires Inv(cfg, s) && Next(cfg, s, Mutate(step, now), t)
    ensures Inv(cfg, t)
  {
    P.StepKeepsSafe(cfg, s.life, t.life, step);
    T.GoodStepKeepsTrails(cfg, s.life, t.life, step.t);
    MutationLinks(cfg, s, step.t, now, t);
  }

  lemma MutationLinks(cfg: L.Config, s: State, tx: L.TxId, now: Time, t: State)
    requires R.Inv(s.relay) && Linked(s.life.history, s.relay.committed) && P.EventsApart(t.life)
    requires P.Local(s.life, t.life, tx) && P.RowStep(cfg, s.life, t.life, tx)
    requires match NewEvent(s.life, t.life)
             case None => t.relay == s.relay
             case Some(event) => t.relay == R.AfterInsert(s.relay, event, now)
    ensures R.Inv(t.relay) && Linked(t.life.history, t.relay.committed)
  {
    var h, g := s.life.history, t.life.history;
    if g != h {
      var e := g[|g| - 1];
      assert g == h + [e];
      assert forall i :: 0 <= i < |h| ==> g[i] == h[i];
      LinkGrows(h, s.relay.committed, e);
      R.InsertKeepsInv(s.relay, e.event, now);
    }
  }

  lemma DeliverCommitsNothing(s: R.State, a: R.Action)
    requires R.Enabled(s, a) && !a.Insert?
    ensures R.Apply(s, a).committed == s.committed
  {
  }

  lemma DeliverKeepsInv(cfg: L.Config, s: State, step: R.Action, t: State)
    requires Inv(cfg, s) && Next(cfg, s, Deliver(step), t)
    ensures Inv(cfg, t)
  {
    R.StepKeepsInv(s.relay, step);
    DeliverCommitsNothing(s.relay, step);
  }

  lemma {:induction false} RunKeepsInv(cfg: L.Config, states: seq<State>, actions: seq<Action>, n: nat)
    requires IsRun(cfg, states, actions) && n < |states|
    ensures Inv(cfg, states[n])
  {
    if n > 0 {
      RunKeepsInv(cfg, states, actions, n - 1);
      match actions[n - 1]
      case Mutate(step, now) => MutateKeepsInv(cfg, states[n - 1], step, now, states[n]);
      case Deliver(step) => DeliverKeepsInv(cfg, states[n - 1], step, states[n]);
    }
  }

  // ------------------------------------------------------------ the promises

  lemma LoggedSplits(logs: seq<A.AuditEvent>, id: Id)
    requires logs != []
    ensures R.Logged(logs, id) <==> logs[0].eventId == id || R.Logged(logs[1..], id)
  {
    if R.Logged(logs, id) && logs[0].eventId != id {
      var i :| 0 <= i < |logs| && logs[i].eventId == id;
      assert logs[1..][i - 1].eventId == id;
    }
    if R.Logged(logs[1..], id) {
      var i :| 0 <= i < |logs[1..]| && logs[1..][i].eventId == id;
      assert logs[i + 1].eventId == id;
    }
  }

  lemma {:induction false} UniqueLogsCountOnce(logs: seq<A.AuditEvent>, id: Id)
    requires R.LogsUnique(logs)
    ensures R.Copies(logs, id) == if R.Logged(logs, id) then 1 else 0
  {
    if logs != [] {
      LoggedSplits(logs, id);
      UniqueLogsCountOnce(logs[1..], id);
    }
  }

  /** The event waits in the outbox or stands once in the log, in either case unaltered. */
  predicate Kept(relay: R.State, event: A.AuditEvent) {
    && R.Copies(relay.logs, event.eventId) <= 1
    && (|| (R.PendingAt(relay, event.eventId) && relay.outbox[event.eventId].event == event)
        || (R.Copies(relay.logs, event.eventId) == 1 && event in relay.logs))
  }

  lemma CommittedEventKept(s: R.State, event: A.AuditEvent)
    requires R.Inv(s) && R.Genuine(s, event)
    ensures Kept(s, event)
  {
    UniqueLogsCountOnce(s.logs, event.eventId);
    if R.Logged(s.logs, event.eventId) {
      var k :| 0 <= k < |s.logs| && s.logs[k].eventId == event.eventId;
      assert R.Genuine(s, s.logs[k]);
    }
  }

  /**
   * No audit event is lost or doubled: each committed mutation's event is still pending in the
   * outbox, or has exactly one audit_logs row with the same contents, or both.
   */
  lemma NoEventLostOrDoubled(cfg: L.Config, states: seq<State>, actions: seq<Action>, n: nat, i: nat)
    requires IsRun(cfg, states, actions) && n < |states| && i < |states[n].life.history|
    ensures Kept(states[n].relay, states[n].life.history[i].event)
  {
    RunKeepsInv(cfg, states, actions, n);
    CommittedEventKept(states[n].relay, states[n].life.history[i].event);
  }

  lemma LogComesFromHistory(s: State, k: nat) returns (i: nat)
    requires R.LogsGenuine(s.relay) && Linked(s.life.history, s.relay.committed) && k < |s.relay.logs|
    ensures i < |s.life.history| && s.life.history[i].event == s.relay.logs[k]
  {
    assert R.Genuine(s.relay, s.relay.logs[k]);
    i :| CommittedAt(s.life.history, i, s.relay.logs[k].eventId);
  }

  /** Nothing enters the log that no mutation committed. */
  lemma LogsAreGenuine(cfg: L.Config, states: seq<State>, actions: seq<Action>, n: nat, k: nat) returns (i: nat)
    requires IsRun(cfg, states, actions) && n < |states| && k < |states[n].relay.logs|
    ensures i < |states[n].life.history| && states[n].life.history[i].event == states[n].relay.logs[k]
  {
    RunKeepsInv(cfg, states, actions, n);
    i := LogComesFromHistory(states[n], k);
  }

  /** No snapshot in the log shows a sensitive value. */
  lemma LogsHideSensitiveValues(cfg: L.Config, states: seq<State>, actions: seq<Action>, n: nat, k: nat)
    requires IsRun(cfg, states, actions) && n < |states| && k < |states[n].relay.logs|
    ensures var event := states[n].relay.logs[k];
            && event.after.Some? && A.Hides(cfg.codec, event.after.value)
            && (event.before.Some? ==> A.Hides(cfg.codec, event.before.value))
  {
    RunKeepsInv(cfg, states, actions, n);
    var i := LogComesFromHistory(states[n], k);
    EntriesHide(cfg, states[n].life, i);
  }

  lemma EntriesHide(cfg: L.Config, s: L.State, i: nat)
    requires T.TrailsTell(cfg, s) && i < |s.history|
    ensures var event := s.history[i].event;
            && event.after.Some? && A.Hides(cfg.codec, event.after.value)
            && (event.before.Some? ==> A.Hides(cfg.codec, event.before.value))
  {
    var e, id := s.history[i], s.history[i].target;
    var j := HistoryIsInTrail(s.history, i);
    assert T.TrailTells(cfg.codec, T.Trail(s.history, id), L.StoredRow(s, id));
    assert P.EntryOk(cfg.codec, T.Trail(s.history, id)[j]);
    A.SnapshotHidesOnlySensitiveValues(cfg.codec, D.FromRow(e.rowAfter));
    if e.event.before.Some? {
      var d :| e.event.before == Some(A.Snapshot(cfg.codec, d));
      A.SnapshotHidesOnlySensitiveValues(cfg.codec, d);
    }
  }

  lemma LogStep(cfg: L.Config, s: State, a: Action, t: State)
    requires Next(cfg, s, a, t)
    ensures s.relay.logs <= t.relay.logs
  {
  }

  lemma RemovalStep(cfg: L.Config, s: State, a: Action, t: State, id: Id)
    requires Next(cfg, s, a, t) && id in s.relay.outbox
    ensures id !in t.relay.outbox <==>
              a.Deliver? && a.delivery.Cleanup?
              && s.relay.outbox[id].delivery.Delivered? && s.relay.outbox[id].delivery.at < a.delivery.cutoff
  {
  }

  /** Cleanup removes exactly the rows delivered before its cutoff, and the log has their events. */
  lemma OnlyProjectedEventsArePruned(cfg: L.Config, states: seq<State>, actions: seq<Action>, n: nat, id: Id)
    requires IsRun(cfg, states, actions) && n < |actions| && id in states[n].relay.outbox
    ensures var row := states[n].relay.outbox[id];
            && (id !in states[n + 1].relay.outbox <==>
                 actions[n].Deliver? && actions[n].delivery.Cleanup?
                 && row.delivery.Delivered? && row.delivery.at < actions[n].delivery.cutoff)
            && (id !in states[n + 1].relay.outbox ==>
                 row.event in states[n].relay.logs && row.event in states[n + 1].relay.logs)
  {
    RunKeepsInv(cfg, states, actions, n);
    RemovalStep(cfg, states[n], actions[n], states[n + 1], id);
    if id !in states[n + 1].relay.outbox {
      LogStep(cfg, states[n], actions[n], states[n + 1]);
      var relay := states[n].relay;
      assert R.Genuine(relay, relay.outbox[id].event) && !R.PendingAt(relay, id);
      var k :| 0 <= k < |relay.logs| && relay.logs[k].eventId == id;
      assert R.Genuine(relay, relay.logs[k]);
      assert states[n + 1].relay.logs[k] == relay.logs[k];
    }
  }

  /** A commit hands the relay an event that it was never given before. */
  lemma NewEventIsNew(cfg: L.Config, s: State, mutation: L.Action, t: State, id: Id)
    requires Inv(cfg, s) && L.Next(cfg, s.life, mutation, t.life) && id in s.relay.committed
    ensures NewEvent(s.life, t.life).Some? ==> NewEvent(s.life, t.life).value.eventId != id
  {
    P.StepKeepsSafe(cfg, s.life, t.life, mutation);
    CommittedStayApart(cfg, s, mutation.t, t, id);
  }

  lemma CommittedStayApart(cfg: L.Config, s: State, tx: L.TxId, t: State, id: Id)
    requires Linked(s.life.history, s.relay.committed) && id in s.relay.committed && P.EventsApart(t.life)
    requires P.Local(s.life, t.life, tx) && P.RowStep(cfg, s.life, t.life, tx)
    ensures NewEvent(s.life, t.life).Some? ==> NewEvent(s.life, t.life).value.eventId != id
  {
    var i :| CommittedAt(s.life.history, i, id);
    if NewEvent(s.life, t.life).Some? { assert t.life.history[i] == s.life.history[i]; }
  }

  /** The row is delivered, or has been pruned after delivery. */
  predicate NotPending(s: R.State, id: Id) { id in s.committed && !R.PendingAt(s, id) }

  lemma NotPendingStays(s: R.State, a: R.Action, id: Id)
    requires R.Enabled(s, a) && NotPending(s, id) && (a.Insert? ==> a.event.eventId != id)
    ensures NotPending(R.Apply(s, a), id)
    ensures id in R.Apply(s, a).outbox ==>
              id in s.outbox && R.Apply(s, a).outbox[id].delivery == s.outbox[id].delivery
  {
  }

  lemma StepKeepsNotPending(cfg: L.Config, s: State, a: Action, t: State, id: Id)
    requires Inv(cfg, s) && Next(cfg, s, a, t) && NotPending(s.relay, id)
    ensures NotPending(t.relay, id)
    ensures id in t.relay.outbox ==> id in s.relay.outbox && t.relay.outbox[id].delivery == s.relay.outbox[id].delivery
  {
    match a
    case Deliver(delivery) => NotPendingStays(s.relay, delivery, id);
    case Mutate(mutation, now) => NewEventIsNew(cfg, s, mutation, t, id);
  }

  lemma DeliveredIsNotPending(s: R.State, id: Id)
    requires R.OutboxGenuine(s) && id in s.outbox && s.outbox[id].delivery.Delivered?
    ensures NotPending(s, id)
  {
    assert R.Genuine(s, s.outbox[id].event);
  }

  /** Once DELIVERED, an event is never pending again. */
  lemma {:induction false} DeliveredNeverReverts(cfg: L.Config, states: seq<State>, actions: seq<Action>, n: nat,
                                                 m: nat, id: Id)
    requires IsRun(cfg, states, actions) && n <= m < |states|
    requires id in states[n].relay.outbox && states[n].relay.outbox[id].delivery.Delivered?
    ensures NotPending(states[m].relay, id)
    ensures id in states[m].relay.outbox ==> states[m].relay.outbox[id].delivery == states[n].relay.outbox[id].delivery
    decreases m
  {
    if n < m {
      DeliveredNeverReverts(cfg, states, actions, n, m - 1, id);
      RunKeepsInv(cfg, states, actions, m - 1);
      StepKeepsNotPending(cfg, states[m - 1], actions[m - 1], states[m], id);
    } else {
      RunKeepsInv(cfg, states, actions, n);
      DeliveredIsNotPending(states[n].relay, id);
    }
  }

  /** The log holds each event of the trail once, and every event it holds of this row is in the trail. */
  ghost predicate LogsMatchTrail(logs: seq<A.AuditEvent>, trail: seq<L.Entry>, id: Id) {
    && (forall i :: 0 <= i < |trail| ==> trail[i].event in logs && R.Copies(logs, trail[i].event.eventId) == 1)
    && (forall k :: 0 <= k < |logs| && logs[k].entityId == id ==>
         exists i :: 0 <= i < |trail| && trail[i].event == logs[k])
  }

  lemma DrainedStateMatches(cfg: L.Config, s: State, id: Id)
    requires T.TrailsTell(cfg, s.life) && R.Inv(s.relay) && Linked(s.life.history, s.relay.committed)
    requires forall e :: !R.PendingAt(s.relay, e)
    ensures LogsMatchTrail(s.relay.logs, T.Trail(s.life.history, id), id)
  {
    var h, logs := s.life.history, s.relay.logs;
    var trail := T.Trail(h, id);
    forall i | 0 <= i < |trail| ensures trail[i].event in logs && R.Copies(logs, trail[i].event.eventId) == 1 {
      var j := TrailIsFromHistory(h, id, i);
      CommittedEventKept(s.relay, h[j].event);
    }
    forall k | 0 <= k < |logs| && logs[k].entityId == id
      ensures exists i :: 0 <= i < |trail| && trail[i].event == logs[k]
    {
      var j := LogComesFromHistory(s, k);
      var i := EntryIsInItsTrail(cfg, s.life, j);
      assert trail[i].event == logs[k];
    }
  }

  /**
   * When nothing is pending, audit_logs alone tells every row: it holds each event of the row's
   * trail once and no other event of that row, and the last one's after-snapshot is the row.
   */
  lemma DrainedLogsTellRow(cfg: L.Config, states: seq<State>, actions: seq<Action>, n: nat, id: Id)
    requires IsRun(cfg, states, actions) && n < |states| && id in states[n].life.rows
    requires forall e :: !R.PendingAt(states[n].relay, e)
    ensures var trail := T.Trail(states[n].life.history, id);
            && trail != []
            && LogsMatchTrail(states[n].relay.logs, trail, id)
            && trail[|trail| - 1].event.after == Some(A.Snapshot(cfg.codec, D.FromRow(states[n].life.rows[id])))
  {
    RunKeepsInv(cfg, states, actions, n);
    LastEntryIsRow(cfg, states[n].life, id);
    DrainedStateMatches(cfg, states[n], id);
  }

  lemma {:induction false} TrailIsFromHistory(h: seq<L.Entry>, id: Id, i: nat) returns (j: nat)
    requires i < |T.Trail(h, id)|
    ensures j < |h| && h[j] == T.Trail(h, id)[i]
  {
    var front := h[..|h| - 1];
    if i < |T.Trail(front, id)| {
      j := TrailIsFromHistory(front, id, i);
    } else {
      j := |h| - 1;
    }
  }

  lemma {:induction false} HistoryIsInTrail(h: seq<L.Entry>, j: nat) returns (i: nat)
    requires j < |h|
    ensures i < |T.Trail(h, h[j].target)| && T.Trail(h, h[j].target)[i] == h[j]
  {
    var front := h[..|h| - 1];
    if j < |front| {
      assert front[j] == h[j];
      i := HistoryIsInTrail(front, j);
    } else {
      i := |T.Trail(front, h[j].target)|;
    }
  }

  /** An entry is found in the trail of the row its event names. */
  lemma EntryIsInItsTrail(cfg: L.Config, s: L.State, j: nat) returns (i: nat)
    requires T.TrailsTell(cfg, s) && j < |s.history|
    ensures var trail := T.Trail(s.history, s.history[j].event.entityId);
            i < |trail| && trail[i] == s.history[j]
  {
    var id := s.history[j].target;
    i := HistoryIsInTrail(s.history, j);
    assert T.TrailTells(cfg.codec, T.Trail(s.history, id), L.StoredRow(s, id));
    assert P.EntryOk(cfg.codec, T.Trail(s.history, id)[i]);
  }

  lemma LastEntryIsRow(cfg: L.Config, s: L.State, id: Id)
    requires T.TrailsTell(cfg, s) && id in s.rows
    ensures var trail := T.Trail(s.history, id);
            trail != [] && trail[|trail| - 1].event.after == Some(A.Snapshot(cfg.codec, D.FromRow(s.rows[id])))
  {
    var trail := T.Trail(s.history, id);
    assert T.TrailTells(cfg.codec, trail, L.StoredRow(s, id));
    assert P.EntryOk(cfg.codec, trail[|trail| - 1]);
  }
}
