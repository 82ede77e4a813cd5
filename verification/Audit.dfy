/** Audit events and their snapshots: internal/domain/audit.go. */
module Audit {
  import opened Common
  import opened Redaction
  import opened Domain

  datatype Action = Created | ApprovedAction | RejectedAction | DeletedAction

  datatype AuditEvent = AuditEvent(
    eventId: Id, entityType: string, entityId: Id, action: Action, actorId: Id, requestId: Id,
    before: Option<Json>, after: Option<Json>, occurredAt: Time)

  /** JSON encoding of a record, and the normalisation of a key before it is tested. */
  datatype Codec = Codec(marshal: Disbursement -> Json, normalize: string -> string)

  function Snapshot(codec: Codec, value: Disbursement): Json {
    Redact(Sensitive(codec), codec.marshal(value))
  }

  function Sensitive(codec: Codec): string -> bool { key => IsSensitiveKey(codec.normalize, key) }

  /** Wherever a sensitive key can be reached, it reads as the marker. */
  ghost predicate Hides(codec: Codec, value: Json) {
    forall front, key :: Clear(Sensitive(codec), front) && IsSensitiveKey(codec.normalize, key) ==>
      Lookup(value, front + [Key(key)]).None? || Lookup(value, front + [Key(key)]) == Some(Text(MARKER))
  }

  /** A snapshot hides every sensitive value and shows all the rest of the record. */
  lemma SnapshotHidesOnlySensitiveValues(codec: Codec, value: Disbursement)
    ensures Hides(codec, Snapshot(codec, value))
    ensures Alike(Sensitive(codec), Snapshot(codec, value), codec.marshal(value))
  {
    var json := codec.marshal(value);
    forall front, key | Clear(Sensitive(codec), front) && IsSensitiveKey(codec.normalize, key)
      ensures var found := Lookup(Snapshot(codec, value), front + [Key(key)]);
              found.None? || found == Some(Text(MARKER))
    {
      SensitiveKeysReadAsMarker(Sensitive(codec), json, front, key, []);
    }
    forall path | Clear(Sensitive(codec), path) ensures ShapeAt(Snapshot(codec, value), path) == ShapeAt(json, path) {
      ClearPathsKeepShape(Sensitive(codec), json, path);
    }
  }

  /** An event is refused when an identifier is missing. */
  function NewAuditEvent(codec: Codec, eventId: Id, entityId: Id, action: Action, actorId: Id, requestId: Id,
                         before: Option<Disbursement>, after: Disbursement, occurredAt: Time): Option<AuditEvent>
  {
    if eventId == NIL || entityId == NIL || actorId == NIL || requestId == NIL then None
    else Some(AuditEvent(eventId, "disbursement", entityId, action, actorId, requestId,
                         if before.None? then None else Some(Snapshot(codec, before.value)),
                         Some(Snapshot(codec, after)), occurredAt))
  }
}
