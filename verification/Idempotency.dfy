/**
 * The idempotency row, the classifier and the SQL guards:
 * internal/repository/postgres/idempotency.go and internal/domain/idempotency.go.
 */
module Idempotency {
  import opened Common

  type Hash = string
  /** A JSONB value. The column holds only well-formed JSON, so validity means being present. */
  type Body = string

  const SECOND: Time := 1_000_000_000

  datatype Scope = Scope(user: Id, endpoint: string, key: Id)

  datatype KeyState = InProgress | Completed

  datatype KeyRow = KeyRow(
    requestHash: Hash, state: KeyState, claimId: Id, leaseUntil: Time, expiresAt: Time,
    disbursementId: Option<Id>, responseStatus: Option<int>, responseBody: Option<Body>)

  datatype ClaimRequest = ClaimRequest(
    scope: Scope, fingerprint: Hash, claimId: Id, leaseUntil: Time, expiresAt: Time, now: Time)

  datatype Replay = Replay(status: int, body: Body, disbursementId: Id)

  datatype ClaimResult = Acquired(claimId: Id) | Replayed(replay: Replay) | Busy(retryAfter: Time) | Reused

  predicate ValidScope(scope: Scope) {
    scope.user != NIL && scope.endpoint != "" && scope.key != NIL
  }

  predicate ValidRequest(req: ClaimRequest) {
    && ValidScope(req.scope) && req.claimId != NIL
    && req.leaseUntil > req.now && req.expiresAt > req.leaseUntil
  }

  predicate ValidReplay(replay: Replay) {
    200 <= replay.status <= 299 && replay.disbursementId != NIL
  }

  /** The row that the insert and the reclaiming update both write. */
  function ClaimRow(req: ClaimRequest): KeyRow {
    KeyRow(req.fingerprint, InProgress, req.claimId, req.leaseUntil, req.expiresAt, None, None, None)
  }

  function CompleteRow(row: KeyRow, replay: Replay): KeyRow {
    row.(state := Completed, disbursementId := Some(replay.disbursementId),
         responseStatus := Some(replay.status), responseBody := Some(replay.body))
  }

  function StoredReplay(row: KeyRow): Option<Replay> {
    if row.disbursementId.Some? && row.responseStatus.Some? && row.responseBody.Some?
    then Some(Replay(row.responseStatus.value, row.responseBody.value, row.disbursementId.value))
    else None
  }

  function CeilToSecond(d: Time): Time
    requires d > 0
  {
    (d + SECOND - 1) / SECOND * SECOND
  }

  /** The Go classifier; `None` asks for a reclaim. */
  function Classify(row: KeyRow, req: ClaimRequest): Option<ClaimResult> {
    if row.expiresAt > req.now && row.requestHash != req.fingerprint then Some(Reused)
    else if row.state == Completed && row.expiresAt > req.now then
      match StoredReplay(row)
      case None => Some(Reused)
      case Some(replay) => Some(Replayed(replay))
    else if row.state == InProgress && row.expiresAt > req.now && row.leaseUntil > req.now then
      Some(Busy(CeilToSecond(row.leaseUntil - req.now)))
    else None
  }

  /** The WHERE clause of the reclaiming update. */
  predicate ReclaimGuard(row: KeyRow, req: ClaimRequest) {
    || row.expiresAt <= req.now
    || (row.state == InProgress && row.requestHash == req.fingerprint && row.leaseUntil <= req.now)
  }

  /** The WHERE clause that completion and release share. */
  predicate HeldBy(row: KeyRow, claimId: Id) {
    row.claimId == claimId && row.state == InProgress
  }

  /**
   * The intended atomic claim on one scope: the row it leaves and the answer it gives. A finished
   * window counts as no row at all.
   */
  function AtomicClaim(row: Option<KeyRow>, req: ClaimRequest): (KeyRow, ClaimResult) {
    if row.None? || row.value.expiresAt <= req.now then (ClaimRow(req), Acquired(req.claimId))
    else if row.value.requestHash != req.fingerprint then (row.value, Reused)
    else match row.value.state
      case Completed =>
        (row.value, match StoredReplay(row.value) case None => Reused case Some(replay) => Replayed(replay))
      case InProgress =>
        if row.value.leaseUntil <= req.now then (ClaimRow(req), Acquired(req.claimId))
        else (row.value, Busy(CeilToSecond(row.value.leaseUntil - req.now)))
  }

  /** The Go code asks for a reclaim exactly when the SQL predicate lets it through. */
  lemma ClassifierAgreesWithGuard(row: KeyRow, req: ClaimRequest)
    ensures Classify(row, req).None? <==> ReclaimGuard(row, req)
    ensures Classify(row, req) ==
            (if ReclaimGuard(row, req) then None else Some(AtomicClaim(Some(row), req).1))
    ensures AtomicClaim(Some(row), req).0 == if ReclaimGuard(row, req) then ClaimRow(req) else row
  {
  }

  /** A caller that waits as long as it is told finds the lease over, and waits under a second too long. */
  lemma RetryAfterOutlastsLease(row: KeyRow, req: ClaimRequest)
    requires Classify(row, req).Some? && Classify(row, req).value.Busy?
    ensures var wait := Classify(row, req).value.retryAfter;
            row.leaseUntil <= req.now + wait < row.leaseUntil + SECOND
  {
  }
}
