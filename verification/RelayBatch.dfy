/**
 * `ProcessBatch` and `FetchPending` as one relay runs them, statement by statement, with every
 * fault they tolerate: internal/service/audit/relay.go and internal/repository/postgres/outbox.go.
 */
module RelayBatch {
  import opened Common
  import opened Audit
  import R = Relay

  const DEFAULT_BATCH: nat := 50
  const RETRY_DELAY: Time := 5_000_000_000

  function BatchSize(requested: int): (size: nat)
    ensures size > 0 && (requested > 0 ==> size == requested) && (requested <= 0 ==> size == 50)
  {
    if requested <= 0 then DEFAULT_BATCH else requested
  }

  const DAY: Time := 24 * 60 * 60 * 1_000_000_000
  const FALLBACK_RETENTION: Time := 30 * DAY

  function AvailableIds(outbox: map<Id, R.OutboxRow>, now: Time): set<Id> {
    set id | id in outbox && outbox[id].delivery.Pending? && outbox[id].availableAt <= now
  }

  function PendingIds(outbox: map<Id, R.OutboxRow>): set<Id> {
    set id | id in outbox && outbox[id].delivery.Pending?
  }

  function DeliveredIds(outbox: map<Id, R.OutboxRow>): set<Id> {
    set id | id in outbox && outbox[id].delivery.Delivered?
  }

  function Min(a: nat, b: nat): nat { if a <= b then a else b }

  function SetOf(ids: seq<Id>): set<Id> { set id | id in ids }

  /** ORDER BY available_at, occurred_at. */
  predicate NotAfter(a: R.OutboxRow, b: R.OutboxRow) {
    a.availableAt < b.availableAt || (a.availableAt == b.availableAt && a.event.occurredAt <= b.event.occurredAt)
  }

  /** The rows one fetch may choose: the first `limit` of the available ones in that order. */
  ghost predicate Chosen(outbox: map<Id, R.OutboxRow>, now: Time, limit: nat, ids: seq<Id>) {
    && R.Distinct(ids) && (forall i :: 0 <= i < |ids| ==> ids[i] in AvailableIds(outbox, now))
    && |ids| == Min(limit, |AvailableIds(outbox, now)|)
    && forall i, id {:trigger NotAfter(outbox[ids[i]], outbox[id])} ::
         0 <= i < |ids| && id in AvailableIds(outbox, now) && id !in ids ==> NotAfter(outbox[ids[i]], outbox[id])
  }

  method Earliest(outbox: map<Id, R.OutboxRow>, left: set<Id>) returns (first: Id)
    requires left != {} && left <= outbox.Keys
    ensures first in left && forall id :: id in left ==>
              || outbox[first].availableAt < outbox[id].availableAt
              || (outbox[first].availableAt == outbox[id].availableAt
                  && outbox[first].event.occurredAt <= outbox[id].event.occurredAt)
  {
    var todo := left;
    first :| first in todo;
    todo := todo - {first};
    while todo != {}
      invariant todo <= left && first in left
      invariant forall id :: id in left && id !in todo ==> NotAfter(outbox[first], outbox[id])
      decreases |todo|
    {
      var id :| id in todo;
      todo := todo - {id};
      if !NotAfter(outbox[first], outbox[id]) {
        first := id;
      }
    }
  }

  lemma DistinctCount(ids: seq<Id>)
    requires R.Distinct(ids)
    ensures |SetOf(ids)| == |ids|
  {
    if ids != [] {
      var front := ids[..|ids| - 1];
      DistinctCount(front);
      assert SetOf(ids) == SetOf(front) + {ids[|ids| - 1]};
    }
  }

  method SelectPending(outbox: map<Id, R.OutboxRow>, now: Time, limit: nat) returns (ids: seq<Id>)
    ensures Chosen(outbox, now, limit, ids)
  {
    ids := [];
    var all := AvailableIds(outbox, now);
    var left := all;
    while left != {} && |ids| < limit
      invariant R.Distinct(ids) && |ids| <= limit && left <= all
      invariant forall i :: 0 <= i < |ids| ==> ids[i] in all && ids[i] !in left
      invariant forall id :: id in all && id !in left ==> id in ids
      invariant |left| + |ids| == |all|
      invariant forall i, id :: 0 <= i < |ids| && id in left ==> NotAfter(outbox[ids[i]], outbox[id])
      decreases |left|
    {
      var first := Earliest(outbox, left);
      ids := ids + [first];
      left := left - {first};
    }
  }

  function Leased(outbox: map<Id, R.OutboxRow>, ids: seq<Id>, until: Time): map<Id, R.OutboxRow> {
    map id | id in outbox :: if id in ids then outbox[id].(availableAt := until) else outbox[id]
  }

  method EventsOf(outbox: map<Id, R.OutboxRow>, rows: seq<Id>) returns (events: seq<AuditEvent>)
    requires forall i :: 0 <= i < |rows| ==> rows[i] in outbox
    ensures |events| == |rows| && forall i :: 0 <= i < |rows| ==> events[i] == outbox[rows[i]].event
  {
    events := [];
    for i := 0 to |rows|
      invariant |events| == i && forall j :: 0 <= j < i ==> events[j] == outbox[rows[j]].event
    {
      events := events + [outbox[rows[i]].event];
    }
  }

  /** Rows that are pending in both tables are the same in both, and were there before. */
  ghost predicate Unmoved(before: map<Id, R.OutboxRow>, after: map<Id, R.OutboxRow>) {
    forall id :: id in PendingIds(after) ==> id in before && after[id] == before[id]
  }

  /** After `i` events: those in `done` are delivered, later ones and all other rows are as they were. */
  ghost predicate Progress(before: map<Id, R.OutboxRow>, now: map<Id, R.OutboxRow>, ids: seq<Id>, done: seq<Id>,
                           i: nat) {
    && R.Distinct(ids) && R.Distinct(done) && i <= |ids| && now.Keys == before.Keys
    && (forall k :: 0 <= k < |ids| ==> ids[k] in before && before[ids[k]].delivery.Pending?)
    && (forall k :: i <= k < |ids| ==> ids[k] !in done)
    && (forall k :: 0 <= k < |done| ==> done[k] in ids)
    && (forall id :: id in before && id !in ids[..i] ==> now[id] == before[id])
    && (forall k :: 0 <= k < i ==> (now[ids[k]].delivery.Delivered? <==> ids[k] in done))
  }

  lemma ProgressStep(before: map<Id, R.OutboxRow>, was: map<Id, R.OutboxRow>, now: map<Id, R.OutboxRow>,
                     ids: seq<Id>, done: seq<Id>, i: nat, row: R.OutboxRow)
    requires Progress(before, was, ids, done, i) && i < |ids| && now == was[ids[i] := row]
    ensures Progress(before, now, ids, if row.delivery.Delivered? then done + [ids[i]] else done, i + 1)
  {
    assert ids[..i + 1] == ids[..i] + [ids[i]];
  }

  lemma ProgressNext(before: map<Id, R.OutboxRow>, now: map<Id, R.OutboxRow>, ids: seq<Id>, done: seq<Id>, i: nat)
    requires Progress(before, now, ids, done, i) && i < |ids|
    ensures ids[i] in now && now[ids[i]].delivery.Pending?
  {
  }

  lemma NewlyDelivered(before: map<Id, R.OutboxRow>, now: map<Id, R.OutboxRow>, ids: seq<Id>, done: seq<Id>, i: nat)
    requires Progress(before, now, ids, done, i)
    ensures DeliveredIds(before) <= DeliveredIds(now) && DeliveredIds(now) - DeliveredIds(before) == SetOf(done)
  {
    forall id | id in before
      ensures now[id].delivery.Delivered? <==> before[id].delivery.Delivered? || id in done
      ensures id in done ==> before[id].delivery.Pending?
    {
      if id in ids[..i] {
        var k :| 0 <= k < i && ids[k] == id;
      }
    }
    assert forall id :: id in done ==> id in before;
  }

  lemma FewerIds(a: set<Id>, b: set<Id>)
    requires a <= b
    ensures |a| <= |b|
  {
    assert b == a + (b - a);
  }

  lemma ProgressStarts(first: map<Id, R.OutboxRow>, now: Time, limit: nat, ids: seq<Id>, until: Time)
    requires Chosen(first, now, limit, ids)
    ensures Progress(Leased(first, ids, until), Leased(first, ids, until), ids, [], 0)
  {
  }

  /** A batch whose every event was delivered leaves the other pending rows alone. */
  lemma DrainedUnmoved(first: map<Id, R.OutboxRow>, now: map<Id, R.OutboxRow>, ids: seq<Id>, done: seq<Id>, until: Time)
    requires Progress(Leased(first, ids, until), now, ids, done, |ids|) && |done| == |ids|
    ensures Unmoved(first, now) && forall id :: id in ids ==> id !in PendingIds(now)
  {
    DistinctCount(ids);
    DistinctCount(done);
    FullSubset(SetOf(done), SetOf(ids));
    forall id | id in ids ensures id !in PendingIds(now) {
      assert id in SetOf(ids);
    }
  }

  /** The rows delivered between two tables. */
  function NewlyIn(first: map<Id, R.OutboxRow>, after: map<Id, R.OutboxRow>): set<Id> {
    DeliveredIds(after) - DeliveredIds(first)
  }

  /**
   * What one batch does to the outbox: rows in `due`, at most `most`, become delivered and no delivery is
   * undone. The count is short of them by exactly those whose mark landed `unnoticed`.
   */
  ghost predicate BatchDone(first: map<Id, R.OutboxRow>, after: map<Id, R.OutboxRow>, due: set<Id>, most: nat,
                            count: nat, unnoticed: set<Id>)
  {
    && after.Keys == first.Keys && DeliveredIds(first) <= DeliveredIds(after)
    && NewlyIn(first, after) <= due && |NewlyIn(first, after)| <= most
    && count == |NewlyIn(first, after) - unnoticed|
  }

  /** A clean batch also touches no row that it leaves pending, and leaves no earlier row behind. */
  ghost predicate CleanBatch(first: map<Id, R.OutboxRow>, after: map<Id, R.OutboxRow>, due: set<Id>) {
    && Unmoved(first, after)
    && forall id, other ::
         id in NewlyIn(first, after) && other in due && other in PendingIds(after) && id in first && other in first
         ==> NotAfter(first[id], first[other])
  }

  lemma NothingDelivered(first: map<Id, R.OutboxRow>, after: map<Id, R.OutboxRow>, due: set<Id>, unnoticed: set<Id>)
    requires after.Keys == first.Keys && DeliveredIds(after) == DeliveredIds(first)
    ensures NewlyIn(first, after) == {} && forall most: nat :: BatchDone(first, after, due, most, 0, unnoticed)
  {
    assert NewlyIn(first, after) == {} && {} - unnoticed == {};
  }

  lemma BatchEnds(first: map<Id, R.OutboxRow>, after: map<Id, R.OutboxRow>, ids: seq<Id>, done: seq<Id>, i: nat,
                  now: Time, limit: nat, until: Time, unnoticed: set<Id>)
    requires Chosen(first, now, limit, ids) && Progress(Leased(first, ids, until), after, ids, done, i)
    ensures BatchDone(first, after, AvailableIds(first, now), |ids|, Noticed(done, unnoticed), unnoticed)
    ensures i == |ids| == |done| ==> CleanBatch(first, after, AvailableIds(first, now))
    ensures unnoticed == {} ==> Noticed(done, unnoticed) == |done|
  {
    NewlyAre(first, after, ids, done, i, until);
    DistinctCount(done);
    NoticedCounts(done, unnoticed);
    if unnoticed == {} { WithoutNone(SetOf(done)); }
    if i == |ids| == |done| { BatchIsClean(first, after, ids, done, now, limit, until); }
  }

  lemma NewlyAre(first: map<Id, R.OutboxRow>, after: map<Id, R.OutboxRow>, ids: seq<Id>, done: seq<Id>, i: nat,
                 until: Time)
    requires Progress(Leased(first, ids, until), after, ids, done, i)
    ensures NewlyIn(first, after) == SetOf(done) <= SetOf(ids) && |SetOf(done)| <= |ids|
    ensures after.Keys == first.Keys && DeliveredIds(first) <= DeliveredIds(after)
  {
    NewlyDelivered(Leased(first, ids, until), after, ids, done, i);
    assert DeliveredIds(Leased(first, ids, until)) == DeliveredIds(first);
    DistinctCount(ids);
    FewerIds(SetOf(done), SetOf(ids));
  }

  lemma BatchIsClean(first: map<Id, R.OutboxRow>, after: map<Id, R.OutboxRow>, ids: seq<Id>, done: seq<Id>,
                     now: Time, limit: nat, until: Time)
    requires Chosen(first, now, limit, ids) && |done| == |ids|
    requires Progress(Leased(first, ids, until), after, ids, done, |ids|) && NewlyIn(first, after) == SetOf(done)
    ensures CleanBatch(first, after, AvailableIds(first, now))
  {
    DrainedUnmoved(first, after, ids, done, until);
    forall id, other | id in NewlyIn(first, after) && other in AvailableIds(first, now) && other in PendingIds(after)
      ensures NotAfter(first[id], first[other])
    {
      assert id in ids && other !in ids;
      var k :| 0 <= k < |ids| && ids[k] == id;
      assert NotAfter(first[ids[k]], first[other]);
    }
  }

  // ------------------------------------------------------- several batches

  /** What the first `k` batches of size `b` deliver of `n` due rows. */
  function Share(k: nat, b: nat, n: nat): nat { Min(k * b, n) }

  lemma ShareGrows(k: nat, b: nat, n: nat)
    ensures Share(k, b, n) <= n && Share(k + 1, b, n) == Share(k, b, n) + Min(b, n - Share(k, b, n))
  {
    assert (k + 1) * b == k * b + b;
  }

  /**
   * After some clean batches `count` of the rows due at `start` have been delivered, and rows still pending
   * are as they were at first.
   */
  ghost predicate Served(first: map<Id, R.OutboxRow>, after: map<Id, R.OutboxRow>, start: Time, count: nat) {
    && after.Keys == first.Keys && DeliveredIds(first) <= DeliveredIds(after) && Unmoved(first, after)
    && |NewlyIn(first, after) * AvailableIds(first, start)| == count
  }

  /** Rows due at the start and not delivered yet are still there, and still due. */
  lemma LeftOver(first: map<Id, R.OutboxRow>, was: map<Id, R.OutboxRow>, start: Time, now: Time, count: nat)
    requires Served(first, was, start, count) && start <= now
    ensures var left := AvailableIds(first, start) - NewlyIn(first, was);
            && left <= AvailableIds(was, now) && |left| == |AvailableIds(first, start)| - count
            && forall id :: id in AvailableIds(was, now) && was[id].availableAt <= start ==> id in left
  {
    var due := AvailableIds(first, start);
    var left := due - NewlyIn(first, was);
    assert due == left + NewlyIn(first, was) * due && left !! NewlyIn(first, was) * due;
    forall id | id in left ensures id in AvailableIds(was, now) {
      assert id !in DeliveredIds(first) && id !in DeliveredIds(was) && id in PendingIds(was);
    }
    forall id | id in AvailableIds(was, now) && was[id].availableAt <= start ensures id in left {
      assert id in PendingIds(was) && id !in DeliveredIds(was);
    }
  }

  /**
   * A clean batch that leaves one of the rows due at the start behind has delivered only such rows: the
   * fetch takes the earliest first.
   */
  lemma EarliestGoFirst(was: map<Id, R.OutboxRow>, after: map<Id, R.OutboxRow>, left: set<Id>, start: Time, now: Time,
                        b: nat, count: nat)
    requires BatchDone(was, after, AvailableIds(was, now), count, count, {})
    requires count == Min(b, |AvailableIds(was, now)|)
    requires CleanBatch(was, after, AvailableIds(was, now)) && left <= AvailableIds(was, now)
    requires forall id :: id in AvailableIds(was, now) && was[id].availableAt <= start ==> id in left
    requires forall id :: id in left ==> was[id].availableAt <= start
    ensures |NewlyIn(was, after) * left| == Min(b, |left|)
  {
    var taken := NewlyIn(was, after);
    WithoutNone(taken);
    if left <= taken {
      assert taken * left == left;
      FewerIds(left, taken);
    } else {
      var other :| other in left && other !in taken;
      assert other in PendingIds(after);
      forall id | id in taken ensures id in left {
        assert NotAfter(was[id], was[other]);
      }
      assert taken * left == taken;
      FewerIds(taken + {other}, left);
      FewerIds(taken + {other}, AvailableIds(was, now));
    }
  }

  lemma NewlyAdds(a: map<Id, R.OutboxRow>, b: map<Id, R.OutboxRow>, c: map<Id, R.OutboxRow>, due: set<Id>)
    requires DeliveredIds(a) <= DeliveredIds(b) <= DeliveredIds(c)
    ensures |NewlyIn(a, c) * due| == |NewlyIn(a, b) * due| + |NewlyIn(b, c) * (due - NewlyIn(a, b))|
    ensures |NewlyIn(a, c)| == |NewlyIn(a, b)| + |NewlyIn(b, c)|
  {
    TwoSteps(DeliveredIds(a), DeliveredIds(b), DeliveredIds(c), due);
  }

  lemma TwoSteps(a: set<Id>, b: set<Id>, c: set<Id>, due: set<Id>)
    requires a <= b <= c
    ensures |c - a| == |b - a| + |c - b|
    ensures |(c - a) * due| == |(b - a) * due| + |(c - b) * (due - (b - a))|
  {
    assert c - a == (b - a) + (c - b);
    assert (c - a) * due == (b - a) * due + (c - b) * (due - (b - a));
  }

  lemma UnmovedStays(a: map<Id, R.OutboxRow>, b: map<Id, R.OutboxRow>, c: map<Id, R.OutboxRow>)
    requires Unmoved(a, b) && Unmoved(b, c)
    ensures Unmoved(a, c)
  {
    forall id | id in PendingIds(c) ensures id in a && c[id] == a[id] {
      assert id in PendingIds(b);
    }
  }

  lemma BatchServes(first: map<Id, R.OutboxRow>, was: map<Id, R.OutboxRow>, after: map<Id, R.OutboxRow>, start: Time,
                    now: Time, k: nat, b: nat, count: nat)
    requires Served(first, was, start, Share(k, b, |AvailableIds(first, start)|)) && start <= now
    requires BatchDone(was, after, AvailableIds(was, now), count, count, {})
    requires count == Min(b, |AvailableIds(was, now)|)
    requires CleanBatch(was, after, AvailableIds(was, now))
    ensures Served(first, after, start, Share(k + 1, b, |AvailableIds(first, start)|))
  {
    var due := AvailableIds(first, start);
    LeftOver(first, was, start, now, Share(k, b, |due|));
    forall id | id in due - NewlyIn(first, was) ensures was[id].availableAt <= start {
      assert id in PendingIds(was);
    }
    EarliestGoFirst(was, after, due - NewlyIn(first, was), start, now, b, count);
    NewlyAdds(first, was, after, due);
    UnmovedStays(first, was, after);
    ShareGrows(k, b, |due|);
  }

  lemma ServedAtFirst(outbox: map<Id, R.OutboxRow>, start: Time)
    ensures Served(outbox, outbox, start, 0)
  {
    assert NewlyIn(outbox, outbox) == {};
  }

  /** Once the batches add up to the rows due at the start, all of those are delivered. */
  lemma AllServed(first: map<Id, R.OutboxRow>, after: map<Id, R.OutboxRow>, start: Time)
    requires Served(first, after, start, |AvailableIds(first, start)|)
    ensures AvailableIds(first, start) <= DeliveredIds(after)
  {
    FullSubset(NewlyIn(first, after) * AvailableIds(first, start), AvailableIds(first, start));
  }

  function Sum(counts: seq<nat>): nat { if counts == [] then 0 else Sum(counts[..|counts| - 1]) + counts[|counts| - 1] }

  lemma SumGrows(counts: seq<nat>, count: nat)
    ensures Sum(counts + [count]) == Sum(counts) + count
  {
    assert (counts + [count])[..|counts|] == counts;
  }

  /** Rows that some batch's clock had reached. */
  ghost predicate CameDue(first: map<Id, R.OutboxRow>, id: Id, clocks: seq<Time>, k: nat) {
    exists i :: 0 <= i < |clocks| && i < k && id in AvailableIds(first, clocks[i])
  }

  lemma DeliveredCameDue(first: map<Id, R.OutboxRow>, was: map<Id, R.OutboxRow>, after: map<Id, R.OutboxRow>,
                         clocks: seq<Time>, k: nat)
    requires k < |clocks| && DeliveredIds(first) <= DeliveredIds(was) <= DeliveredIds(after) && Unmoved(first, was)
    requires NewlyIn(was, after) <= AvailableIds(was, clocks[k])
    requires forall id :: id in NewlyIn(first, was) ==> CameDue(first, id, clocks, k)
    ensures forall id :: id in NewlyIn(first, after) ==> CameDue(first, id, clocks, k + 1)
  {
    forall id | id in NewlyIn(first, after) ensures CameDue(first, id, clocks, k + 1) {
      if id in NewlyIn(first, was) {
        var i :| 0 <= i < |clocks| && i < k && id in AvailableIds(first, clocks[i]);
      } else {
        assert id in NewlyIn(was, after) && id in PendingIds(was);
        assert id in AvailableIds(first, clocks[k]);
      }
    }
  }

  /** When nothing else comes due meanwhile, the batches deliver exactly that share and no more. */
  lemma NothingElseDue(first: map<Id, R.OutboxRow>, after: map<Id, R.OutboxRow>, start: Time, clocks: seq<Time>,
                       count: nat)
    requires Served(first, after, start, count)
    requires forall i :: 0 <= i < |clocks| ==> AvailableIds(first, clocks[i]) == AvailableIds(first, start)
    requires forall id :: id in NewlyIn(first, after) ==> CameDue(first, id, clocks, |clocks|)
    ensures |NewlyIn(first, after)| == count
  {
    forall id | id in NewlyIn(first, after) ensures id in AvailableIds(first, start) {
      assert CameDue(first, id, clocks, |clocks|);
    }
    assert NewlyIn(first, after) * AvailableIds(first, start) == NewlyIn(first, after);
  }

  lemma FullSubset(a: set<Id>, b: set<Id>)
    requires a <= b && |a| == |b|
    ensures a == b
  {
    assert b == a + (b - a);
  }

  /** How many of the delivered rows were not marked unnoticed. */
  function Noticed(done: seq<Id>, unnoticed: set<Id>): nat {
    if done == [] then 0
    else Noticed(done[..|done| - 1], unnoticed) + if done[|done| - 1] in unnoticed then 0 else 1
  }

  lemma NoticedGrows(done: seq<Id>, id: Id, unnoticed: set<Id>)
    ensures Noticed(done + [id], unnoticed) == Noticed(done, unnoticed) + if id in unnoticed then 0 else 1
  {
    assert (done + [id])[..|done|] == done;
  }

  lemma {:induction false} NoticedCounts(done: seq<Id>, unnoticed: set<Id>)
    requires R.Distinct(done)
    ensures Noticed(done, unnoticed) == |SetOf(done) - unnoticed|
  {
    if done == [] {
      assert SetOf(done) == {};
    } else {
      var front, id := done[..|done| - 1], done[|done| - 1];
      NoticedCounts(front, unnoticed);
      assert SetOf(done) == SetOf(front) + {id} && id !in SetOf(front);
      if id in unnoticed {
        assert SetOf(done) - unnoticed == SetOf(front) - unnoticed;
      } else {
        assert SetOf(done) - unnoticed == (SetOf(front) - unnoticed) + {id};
      }
    }
  }

  lemma CountAdds(first: map<Id, R.OutboxRow>, was: map<Id, R.OutboxRow>, after: map<Id, R.OutboxRow>,
                  counts: seq<nat>, due: set<Id>, count: nat)
    requires DeliveredIds(first) <= DeliveredIds(was) && Sum(counts) == |NewlyIn(first, was)|
    requires BatchDone(was, after, due, count, count, {})
    ensures Sum(counts + [count]) == |NewlyIn(first, after)|
  {
    SumGrows(counts, count);
    NewlyAdds(first, was, after, {});
    WithoutNone(NewlyIn(was, after));
  }

  lemma WithoutNone(a: set<Id>)
    ensures a - {} == a
  {
  }

  predicate Fetched(events: seq<AuditEvent>, ids: seq<Id>) {
    |events| == |ids| && forall i :: 0 <= i < |ids| ==> events[i].eventId == ids[i]
  }

  /**
   * What may go wrong in one call: the fetch, cancellation before an event, and for single events the
   * projection, the mark and the record of a failure. Each statement named here reports an error; `true`
   * means that it took effect all the same.
   */
  datatype Faults = Faults(
    fetch: Option<bool>, cancelAt: Option<nat>, project: map<Id, bool>, mark: map<Id, bool>, record: map<Id, bool>)

  const NO_FAULTS := Faults(None, None, map[], map[], map[])

  predicate CancelledBefore(faults: Faults, i: nat) { faults.cancelAt.Some? && faults.cancelAt.value < i }

  predicate Lands(faults: map<Id, bool>, id: Id) { id in faults ==> faults[id] }

  /** What handling leaves of a pending row: delivered, put off, or as it was. */
  function Handled(row: R.OutboxRow, id: Id, now: Time, faults: Faults): R.OutboxRow {
    if id !in faults.project && Lands(faults.mark, id) then
      row.(delivery := R.Delivered(now), attempts := row.attempts + 1)
    else if id in faults.project && Lands(faults.record, id) then
      row.(attempts := row.attempts + 1, availableAt := now + 5_000_000_000)
    else row
  }

  /** What one batch whose fetch worked does, and says it did. */
  ghost predicate Reported(first: map<Id, R.OutboxRow>, after: map<Id, R.OutboxRow>, now: Time, limit: nat,
                           count: nat, failed: bool, faults: Faults)
  {
    var due := AvailableIds(first, now);
    && BatchDone(first, after, due, Min(limit, |due|), count, faults.mark.Keys)
    && failed == CancelledBefore(faults, Min(limit, |due|))
    && (faults == NO_FAULTS ==> count == Min(limit, |due|) && CleanBatch(first, after, due))
  }

  lemma BatchReported(first: map<Id, R.OutboxRow>, after: map<Id, R.OutboxRow>, ids: seq<Id>, done: seq<Id>, i: nat,
                      now: Time, limit: nat, until: Time, count: nat, failed: bool, faults: Faults)
    requires Chosen(first, now, limit, ids) && Progress(Leased(first, ids, until), after, ids, done, i)
    requires count == Noticed(done, faults.mark.Keys) && failed == CancelledBefore(faults, |ids|)
    requires faults == NO_FAULTS ==> i == |ids| == |done|
    ensures Reported(first, after, now, limit, count, failed, faults)
  {
    BatchEnds(first, after, ids, done, i, now, limit, until, faults.mark.Keys);
  }

  // ------------------------------------------------------ runs of the relay

  ghost predicate StepsTo(s: R.State, t: R.State) {
    exists a :: R.Enabled(s, a) && (a.Insert? ==> a.event.eventId !in s.committed) && t == R.Apply(s, a)
  }

  ghost predicate StepAt(trace: seq<R.State>, i: nat)
    requires 0 < i < |trace|
  {
    StepsTo(trace[i - 1], trace[i])
  }

  ghost predicate IsRun(trace: seq<R.State>) {
    && trace != [] && trace[0] == R.INITIAL
    && forall i :: 0 < i < |trace| ==> StepAt(trace, i)
  }

  lemma RunKeepsInv(trace: seq<R.State>)
    requires IsRun(trace)
    ensures R.Inv(trace[|trace| - 1])
  {
    if |trace| > 1 {
      var s, t := trace[|trace| - 2], trace[|trace| - 1];
      var front := trace[..|trace| - 1];
      forall i | 0 < i < |front| ensures StepAt(front, i) { assert StepAt(trace, i); }
      RunKeepsInv(front);
      assert StepAt(trace, |trace| - 1);
      var a :| R.Enabled(s, a) && (a.Insert? ==> a.event.eventId !in s.committed) && t == R.Apply(s, a);
      R.StepKeepsInv(s, a);
    }
  }

  predicate Keyed(outbox: map<Id, R.OutboxRow>) {
    forall id :: id in outbox ==> outbox[id].event.eventId == id
  }

  lemma OutboxIsKeyed(trace: seq<R.State>)
    requires IsRun(trace)
    ensures Keyed(trace[|trace| - 1].outbox)
  {
    RunKeepsInv(trace);
  }

  function Cleaned(outbox: map<Id, R.OutboxRow>, cutoff: Time): map<Id, R.OutboxRow> {
    map id | id in outbox && !(outbox[id].delivery.Delivered? && outbox[id].delivery.at < cutoff) :: outbox[id]
  }

  /** Exactly the rows delivered before the cutoff are gone; the others are as they were. */
  ghost predicate CleanedTo(before: map<Id, R.OutboxRow>, after: map<Id, R.OutboxRow>, cutoff: Time) {
    && after.Keys <= before.Keys && (forall id :: id in after ==> after[id] == before[id])
    && forall id :: id in before ==>
         (id !in after <==> before[id].delivery.Delivered? && before[id].delivery.at < cutoff)
  }

  lemma CleanedIsExact(outbox: map<Id, R.OutboxRow>, cutoff: Time)
    ensures CleanedTo(outbox, Cleaned(outbox, cutoff), cutoff)
  {
  }

  lemma CleanedAsMachine(s: R.State, cutoff: Time)
    ensures R.AfterCleanup(s, cutoff) == s.(outbox := Cleaned(s.outbox, cutoff))
  {
  }

  /** Whatever a cleanup would remove is in the log already. */
  lemma PrunableAreLogged(trace: seq<R.State>, cutoff: Time)
    requires IsRun(trace)
    ensures var s := trace[|trace| - 1];
            forall id :: id in s.outbox && id !in Cleaned(s.outbox, cutoff) ==> s.outbox[id].event in s.logs
  {
    RunKeepsInv(trace);
    var s := trace[|trace| - 1];
    forall id | id in s.outbox && id !in Cleaned(s.outbox, cutoff) ensures s.outbox[id].event in s.logs {
      assert R.Genuine(s, s.outbox[id].event) && !R.PendingAt(s, id);
      var k :| 0 <= k < |s.logs| && s.logs[k].eventId == id;
      assert R.Genuine(s, s.logs[k]);
    }
  }

  class RelayService {
    var outbox: map<Id, R.OutboxRow>
    var logs: seq<AuditEvent>
    /** The abstract relay's run so far; every statement below is one of its actions, done by worker 0. */
    ghost var trace: seq<R.State>

    ghost function Machine(): R.State
      requires trace != []
      reads this
    {
      trace[|trace| - 1]
    }

    ghost predicate Linked()
      reads this
    {
      IsRun(trace) && Machine().outbox == outbox && Machine().logs == logs
    }

    ghost predicate Valid()
      reads this
    {
      Linked() && !R.Busy(Machine(), 0)
    }

    /** In the middle of a batch: the events still to be handled, the first of them not yet touched. */
    ghost predicate Handling(queue: seq<AuditEvent>)
      reads this
    {
      Linked() && 0 in Machine().workers && Machine().workers[0] == R.Worker(queue, R.Fetched)
    }

    constructor ()
      ensures Valid() && outbox == map[] && logs == []
    {
      outbox := map[];
      logs := [];
      trace := [R.INITIAL];
    }

    /** A mutation's transaction stores its event. */
    method Insert(event: AuditEvent, now: Time)
      requires Valid() && event.eventId !in Machine().committed && event.eventId !in outbox
      modifies this
      ensures Valid() && logs == old(logs)
      ensures outbox == old(outbox)[event.eventId := R.OutboxRow(event, R.Pending, now, 0)]
    {
      Advance(R.Insert(event, now));
      outbox := outbox[event.eventId := R.OutboxRow(event, R.Pending, now, 0)];
    }

    /** One UPDATE leases the chosen rows; the rows it returns become events. */
    method FetchPending(limit: nat, now: Time, lease: Time) returns (events: seq<AuditEvent>, ghost ids: seq<Id>)
      requires Valid()
      modifies this
      ensures Handling(events) && logs == old(logs)
      ensures Fetched(events, ids) && Chosen(old(outbox), now, limit, ids)
      ensures outbox == Leased(old(outbox), ids, now + lease) && Progress(outbox, outbox, ids, [], 0)
    {
      var rows := SelectPending(outbox, now, limit);
      ids := rows;
      OutboxIsKeyed(trace);
      events := EventsOf(outbox, rows);
      assert Fetched(events, ids);
      Advance(R.Fetch(0, rows, now, lease));
      outbox := Leased(outbox, rows, now + lease);
      assert Machine().workers[0].queue == events;
      ProgressStarts(old(outbox), now, limit, ids, now + lease);
    }

    /** Project one event and mark it delivered, or record the failure. */
    method HandleEvent(event: AuditEvent, now: Time, faults: Faults, ghost rest: seq<AuditEvent>)
      returns (delivered: bool)
      requires Handling([event] + rest) && R.PendingAt(Machine(), event.eventId)
      modifies this
      ensures Handling(rest) && event.eventId in old(outbox)
      ensures logs == if Lands(faults.project, event.eventId) then R.Projection(old(logs), event) else old(logs)
      ensures outbox == old(outbox)[event.eventId := Handled(old(outbox)[event.eventId], event.eventId, now, faults)]
      ensures delivered <==> event.eventId !in faults.project && event.eventId !in faults.mark
    {
      var id := event.eventId;
      assert ([event] + rest)[1..] == rest;
      if Lands(faults.project, id) {
        Advance(R.Project(0));
        logs := R.Projection(logs, event);
      } else {
        Advance(R.ProjectFails(0));
      }
      if id in faults.project {
        if Lands(faults.record, id) {
          Advance(R.RecordFailure(0, now + RETRY_DELAY));
          outbox := R.UpdatePending(outbox, id,
            (row: R.OutboxRow) => row.(attempts := row.attempts + 1, availableAt := now + RETRY_DELAY));
        } else {
          Advance(R.Skip(0));
        }
        return false;
      }
      if Lands(faults.mark, id) {
        Advance(R.Mark(0, now));
        outbox := R.UpdatePending(outbox, id,
          (row: R.OutboxRow) => row.(delivery := R.Delivered(now), attempts := row.attempts + 1));
      } else {
        Advance(R.Skip(0));
      }
      delivered := id !in faults.mark;
    }

    /**
     * One batch; `clock(i)` is the time at which event i is handled. Whatever fails, and whether or not a
     * failing statement took effect, the count is the number of rows this call turned DELIVERED without an
     * error from the mark; without faults it is the whole batch, earliest rows first, and nothing else moves.
     */
    method ProcessBatch(requested: int, now: Time, lease: Time, clock: nat -> Time, faults: Faults)
      returns (count: nat, failed: bool)
      requires Valid()
      modifies this
      ensures Valid() && old(logs) <= logs
      ensures BatchDone(old(outbox), outbox, AvailableIds(old(outbox), now),
                        Min(BatchSize(requested), |AvailableIds(old(outbox), now)|), count, faults.mark.Keys)
      ensures faults.fetch.Some? ==> count == 0 && NewlyIn(old(outbox), outbox) == {}
      ensures faults.fetch == Some(false) ==> outbox == old(outbox)
      ensures failed == (faults.fetch.Some?
                         || CancelledBefore(faults, Min(BatchSize(requested), |AvailableIds(old(outbox), now)|)))
      ensures faults == NO_FAULTS ==>
                && count == Min(BatchSize(requested), |AvailableIds(old(outbox), now)|)
                && CleanBatch(old(outbox), outbox, AvailableIds(old(outbox), now))
    {
      if faults.fetch.Some? {
        if faults.fetch.value {
          LoseFetch(BatchSize(requested), now, lease);
        }
        NothingDelivered(old(outbox), outbox, AvailableIds(old(outbox), now), faults.mark.Keys);
        return 0, true;
      }
      count, failed := HandleBatch(BatchSize(requested), now, lease, clock, faults);
    }

    /** A batch whose fetch worked. */
    method HandleBatch(limit: nat, now: Time, lease: Time, clock: nat -> Time, faults: Faults)
      returns (count: nat, failed: bool)
      requires Valid()
      modifies this
      ensures Valid() && old(logs) <= logs
      ensures Reported(old(outbox), outbox, now, limit, count, failed, faults)
    {
      ghost var ids: seq<Id>;
      ghost var done: seq<Id>;
      ghost var reached: nat;
      var events: seq<AuditEvent>;
      events, ids := FetchPending(limit, now, lease);
      count, failed, done, reached := ProcessEvents(events, clock, faults, ids);
      BatchReported(old(outbox), outbox, ids, done, reached, now, limit, now + lease, count, failed, faults);
    }

    /** The fetch leased its rows but reported an error, so nobody handles them until the lease ends. */
    method LoseFetch(limit: nat, now: Time, lease: Time)
      requires Valid()
      modifies this
      ensures Valid() && logs == old(logs) && outbox.Keys == old(outbox).Keys
      ensures DeliveredIds(outbox) == DeliveredIds(old(outbox))
    {
      ghost var ids: seq<Id>;
      var events: seq<AuditEvent>;
      events, ids := FetchPending(limit, now, lease);
      Cancel(events);
    }

    /**
     * A worker's batches one after another, none of them failing. Take any instant that no clock precedes:
     * of the n rows due by then, k batches of size b deliver exactly min(k * b, n), whatever else comes due
     * meanwhile, and all of them once k * b reaches n. The counts add up to all rows delivered, each of
     * which some clock had reached.
     */
    method RunBatches(requested: int, lease: Time, clocks: seq<Time>, clock: nat -> Time, ghost start: Time)
      returns (counts: seq<nat>)
      requires Valid() && forall i :: 0 <= i < |clocks| ==> start <= clocks[i]
      modifies this
      ensures Valid() && |counts| == |clocks|
      ensures Served(old(outbox), outbox, start,
                     Share(|clocks|, BatchSize(requested), |AvailableIds(old(outbox), start)|))
      ensures |clocks| * BatchSize(requested) >= |AvailableIds(old(outbox), start)| ==>
                AvailableIds(old(outbox), start) <= DeliveredIds(outbox)
      ensures Sum(counts) == |NewlyIn(old(outbox), outbox)|
      ensures forall id :: id in NewlyIn(old(outbox), outbox) ==> CameDue(old(outbox), id, clocks, |clocks|)
    {
      counts := [];
      ghost var b, n := BatchSize(requested), |AvailableIds(outbox, start)|;
      ServedAtFirst(outbox, start);
      assert NewlyIn(outbox, outbox) == {};
      for i := 0 to |clocks|
        invariant Valid() && |counts| == i && Served(old(outbox), outbox, start, Share(i, b, n))
        invariant Sum(counts) == |NewlyIn(old(outbox), outbox)|
        invariant forall id :: id in NewlyIn(old(outbox), outbox) ==> CameDue(old(outbox), id, clocks, i)
      {
        ghost var was := outbox;
        var count, failed := ProcessBatch(requested, clocks[i], lease, clock, NO_FAULTS);
        BatchServes(old(outbox), was, outbox, start, clocks[i], i, b, count);
        CountAdds(old(outbox), was, outbox, counts, AvailableIds(was, clocks[i]), count);
        DeliveredCameDue(old(outbox), was, outbox, clocks, i);
        counts := counts + [count];
      }
      if |clocks| * b >= n { AllServed(old(outbox), outbox, start); }
    }

    /**
     * Delete the rows delivered longer ago than the retention time, 30 days if none is set. It removes exactly
     * those, reports how many, and every one of their events is in the log.
     */
    method CleanupDelivered(olderThan: Time, now: Time) returns (removed: nat)
      requires Valid()
      modifies this
      ensures Valid() && logs == old(logs)
      ensures CleanedTo(old(outbox), outbox, now - (if olderThan <= 0 then 30 * DAY else olderThan))
      ensures removed == |old(outbox).Keys - outbox.Keys|
      ensures forall id :: id in old(outbox) && id !in outbox ==> old(outbox)[id].event in logs
    {
      var retention := olderThan;
      if retention <= 0 {
        retention := FALLBACK_RETENTION;
      }
      var cutoff := now - retention;
      PrunableAreLogged(trace, cutoff);
      CleanedIsExact(outbox, cutoff);
      var before := outbox.Keys;
      RemoveDelivered(cutoff);
      removed := |before - outbox.Keys|;
    }

    /** The DELETE statement. */
    method RemoveDelivered(cutoff: Time)
      requires Valid()
      modifies this
      ensures Valid() && logs == old(logs) && outbox == Cleaned(old(outbox), cutoff)
    {
      CleanedAsMachine(Machine(), cutoff);
      Advance(R.Cleanup(cutoff));
      outbox := Cleaned(outbox, cutoff);
    }

    /** The loop over the fetched events. */
    method ProcessEvents(events: seq<AuditEvent>, clock: nat -> Time, faults: Faults, ghost ids: seq<Id>)
      returns (count: nat, failed: bool, ghost done: seq<Id>, ghost i: nat)
      requires Handling(events) && Fetched(events, ids) && Progress(outbox, outbox, ids, [], 0)
      modifies this
      ensures Valid() && old(logs) <= logs
      ensures Progress(old(outbox), outbox, ids, done, i) && count == Noticed(done, faults.mark.Keys)
      ensures failed == CancelledBefore(faults, |events|)
      ensures faults == NO_FAULTS ==> i == |ids| == |done|
    {
      count, failed, done, i := 0, false, [], 0;
      var reached := 0;
      while reached < |events|
        invariant i == reached <= |events| && Handling(events[reached..]) && old(logs) <= logs && !failed
        invariant Progress(old(outbox), outbox, ids, done, reached) && count == Noticed(done, faults.mark.Keys)
        invariant faults.cancelAt.Some? ==> faults.cancelAt.value >= reached
        invariant faults == NO_FAULTS ==> |done| == reached
      {
        if faults.cancelAt.Some? && faults.cancelAt.value == reached {
          Cancel(events[reached..]);
          failed := true;
          return;
        }
        var delivered: bool;
        delivered, done := HandleNext(events, reached, clock(reached), faults, old(outbox), ids, done);
        if delivered {
          count := count + 1;
        }
        reached, i := reached + 1, i + 1;
      }
    }

    /** The context was cancelled: the rest of the batch is left to its lease. */
    ghost method Cancel(queue: seq<AuditEvent>)
      requires Handling(queue)
      modifies this`trace
      ensures Valid()
    {
      Advance(R.Quit(0));
    }

    /** The loop's body. */
    method HandleNext(events: seq<AuditEvent>, i: nat, now: Time, faults: Faults,
                      ghost before: map<Id, R.OutboxRow>, ghost ids: seq<Id>, ghost done: seq<Id>)
      returns (delivered: bool, ghost next: seq<Id>)
      requires i < |events| == |ids| && events[i].eventId == ids[i]
      requires Handling(events[i..]) && Progress(before, outbox, ids, done, i)
      modifies this
      ensures Handling(events[i + 1..]) && Progress(before, outbox, ids, next, i + 1) && old(logs) <= logs
      ensures Noticed(next, faults.mark.Keys) == Noticed(done, faults.mark.Keys) + if delivered then 1 else 0
      ensures faults == NO_FAULTS ==> |next| == |done| + 1
    {
      assert events[i..] == [events[i]] + events[i + 1..];
      ProgressNext(before, outbox, ids, done, i);
      ghost var was := outbox;
      delivered := HandleEvent(events[i], now, faults, events[i + 1..]);
      ghost var row := Handled(was[ids[i]], ids[i], now, faults);
      ProgressStep(before, was, outbox, ids, done, i, row);
      next := if row.delivery.Delivered? then done + [ids[i]] else done;
      NoticedGrows(done, ids[i], faults.mark.Keys);
    }

    /** The abstract relay takes one step. */
    ghost method Advance(a: R.Action)
      requires IsRun(trace) && R.Enabled(Machine(), a) && (a.Insert? ==> a.event.eventId !in Machine().committed)
      modifies this`trace
      ensures IsRun(trace) && Machine() == R.Apply(old(Machine()), a)
    {
      var next := R.Apply(Machine(), a);
      assert StepsTo(Machine(), next);
      var grown := trace + [next];
      forall i | 0 < i < |grown| ensures StepAt(grown, i) { assert i < |trace| ==> StepAt(trace, i); }
      trace := grown;
    }
  }
}
