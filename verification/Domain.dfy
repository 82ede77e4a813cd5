/** The disbursement record and its rules: internal/domain/disbursement.go and the table's checks. */
module Domain {
  import opened Common

  const MINIMUM_AMOUNT := 10_000
  const MAXIMUM_AMOUNT := 100_000_000_000
  const FEE_THRESHOLD := 5_000_000
  const LOWER_TIER_ADMIN_FEE := 2_500
  const UPPER_TIER_ADMIN_FEE := 5_000
  const MAXIMUM_RECIPIENT_RUNES := 150
  const MINIMUM_ACCOUNT_DIGITS := 6
  const MAXIMUM_ACCOUNT_DIGITS := 34
  const MINIMUM_BANK_CODE_LENGTH := 3
  const MAXIMUM_BANK_CODE_LENGTH := 10
  const MAXIMUM_NOTE_RUNES := 500

  /** `NoStatus` is the empty status of a zero record; no row has it. */
  datatype Status = Pending | Approved | Rejected | NoStatus

  datatype CreateInput = CreateInput(
    recipientName: string, accountNumber: string, bankCode: string, amount: int, note: string)

  /** The value the services work with; an absent decider is `NIL`, an absent note is empty. */
  datatype Disbursement = Disbursement(
    id: Id, recipientName: string, accountNumber: string, bankCode: string,
    amount: int, adminFee: int, status: Status, note: string, createdBy: Id,
    decidedBy: Id, decisionNote: string, decidedAt: Option<Time>, deletedAt: Option<Time>,
    createdAt: Time, updatedAt: Time)

  /** A row of the disbursements table, with its nullable columns. */
  datatype Row = Row(
    id: Id, recipientName: string, accountNumber: string, bankCode: string,
    amount: int, adminFee: int, status: Status, note: Option<string>, createdBy: Id,
    decidedBy: Option<Id>, decisionNote: Option<string>, decidedAt: Option<Time>,
    deletedAt: Option<Time>, createdAt: Time, updatedAt: Time)

  datatype Decision = Decision(status: Status, actorId: Id, note: string)

  // ------------------------------------------------------------ validation

  predicate AllDigits(s: string) { forall i :: 0 <= i < |s| ==> '0' <= s[i] <= '9' }

  predicate UpperOrDigit(c: char) { 'A' <= c <= 'Z' || '0' <= c <= '9' }

  predicate ValidAccountNumber(s: string) {
    6 <= |s| <= 34 && AllDigits(s)
  }

  predicate ValidBankCode(s: string) {
    3 <= |s| <= 10 && forall i :: 0 <= i < |s| ==> 'A' <= s[i] <= 'Z' || '0' <= s[i] <= '9'
  }

  predicate ValidAmount(amount: int) { 10_000 <= amount <= 100_000_000_000 }

  method CheckAccountNumber(value: string) returns (ok: bool)
    ensures ok <==> ValidAccountNumber(value)
  {
    if |value| < MINIMUM_ACCOUNT_DIGITS || |value| > MAXIMUM_ACCOUNT_DIGITS {
      return false;
    }
    for i := 0 to |value|
      invariant AllDigits(value[..i])
    {
      if value[i] < '0' || value[i] > '9' {
        return false;
      }
    }
    assert value[..|value|] == value;
    ok := true;
  }

  /** `fold` stands for upper-casing the trimmed text. */
  method CanonicalBankCode(fold: string -> string, value: string) returns (code: Option<string>)
    ensures code == if ValidBankCode(fold(value)) then Some(fold(value)) else None
  {
    var canonical := fold(value);
    if |canonical| < MINIMUM_BANK_CODE_LENGTH || |canonical| > MAXIMUM_BANK_CODE_LENGTH {
      return None;
    }
    for i := 0 to |canonical|
      invariant forall j :: 0 <= j < i ==> UpperOrDigit(canonical[j])
    {
      if !UpperOrDigit(canonical[i]) {
        return None;
      }
    }
    code := Some(canonical);
  }

  predicate ValidInput(fold: string -> string, input: CreateInput) {
    && 1 <= |input.recipientName| <= 150
    && ValidAccountNumber(input.accountNumber)
    && ValidBankCode(fold(input.bankCode))
    && ValidAmount(input.amount)
    && |input.note| <= 500
  }

  /** The fields reported as wrong, in the order they are checked. */
  method Validate(fold: string -> string, input: CreateInput) returns (details: seq<string>)
    ensures details == [] <==> ValidInput(fold, input)
    ensures "recipient_name" in details <==> !(1 <= |input.recipientName| <= 150)
    ensures "account_number" in details <==> !ValidAccountNumber(input.accountNumber)
    ensures "bank_code" in details <==> !ValidBankCode(fold(input.bankCode))
    ensures "amount" in details <==> !ValidAmount(input.amount)
    ensures "note" in details <==> |input.note| > 500
  {
    details := [];
    if |input.recipientName| == 0 {
      details := details + ["recipient_name"];
    } else if |input.recipientName| > MAXIMUM_RECIPIENT_RUNES {
      details := details + ["recipient_name"];
    }
    var accountOk := CheckAccountNumber(input.accountNumber);
    if !accountOk {
      details := details + ["account_number"];
    }
    var code := CanonicalBankCode(fold, input.bankCode);
    if code.None? {
      details := details + ["bank_code"];
    }
    if input.amount < MINIMUM_AMOUNT || input.amount > MAXIMUM_AMOUNT {
      details := details + ["amount"];
    }
    if |input.note| > MAXIMUM_NOTE_RUNES {
      details := details + ["note"];
    }
  }

  predicate ValidDecision(decision: Decision) {
    && decision.actorId != NIL
    && (decision.status == Approved || decision.status == Rejected)
    && |decision.note| <= 500
  }

  // --------------------------------------------------------------- the row

  function AdminFee(amount: int): int {
    if amount < FEE_THRESHOLD then LOWER_TIER_ADMIN_FEE else UPPER_TIER_ADMIN_FEE
  }

  /** The record `Create` builds before it claims the idempotency key. */
  function NewDisbursement(fold: string -> string, input: CreateInput, id: Id, actor: Id, now: Time): Disbursement {
    Disbursement(id, input.recipientName, input.accountNumber, fold(input.bankCode),
                 input.amount, AdminFee(input.amount), Pending, input.note, actor,
                 NIL, "", None, None, now, now)
  }

  function NullIfEmpty(s: string): Option<string> { if s == "" then None else Some(s) }

  function NullIfNil(id: Id): Option<Id> { if id == NIL then None else Some(id) }

  /** The column values `Insert` binds. */
  function ToRow(d: Disbursement): Row {
    Row(d.id, d.recipientName, d.accountNumber, d.bankCode, d.amount, d.adminFee, d.status,
        NullIfEmpty(d.note), d.createdBy, NullIfNil(d.decidedBy), NullIfEmpty(d.decisionNote),
        d.decidedAt, d.deletedAt, d.createdAt, d.updatedAt)
  }

  function OrElse<T>(o: Option<T>, default: T): T { if o.Some? then o.value else default }

  /** The value read back from a row. */
  function FromRow(r: Row): Disbursement {
    Disbursement(r.id, r.recipientName, r.accountNumber, r.bankCode, r.amount, r.adminFee, r.status,
                 OrElse(r.note, ""), r.createdBy, OrElse(r.decidedBy, NIL), OrElse(r.decisionNote, ""),
                 r.decidedAt, r.deletedAt, r.createdAt, r.updatedAt)
  }

  /** Storing and reading back loses nothing. */
  lemma RowRoundTrip(d: Disbursement)
    ensures FromRow(ToRow(d)) == d
  {
  }

  /** The guard of both conditional updates. */
  predicate Open(r: Row) { r.status == Pending && r.deletedAt.None? }

  function Decided(r: Row, decision: Decision, now: Time): Row {
    r.(status := decision.status, decidedBy := Some(decision.actorId),
       decisionNote := NullIfEmpty(decision.note), decidedAt := Some(now), updatedAt := now)
  }

  function Deleted(r: Row, now: Time): Row {
    r.(deletedAt := Some(now), updatedAt := now)
  }

  /** The CHECK constraints and column widths of the disbursements table. */
  predicate SchemaOk(r: Row) {
    && |r.recipientName| <= 150
    && 6 <= |r.accountNumber| <= 34 && AllDigits(r.accountNumber)
    && 3 <= |r.bankCode| <= 10
    && (forall i :: 0 <= i < |r.bankCode| ==> 'A' <= r.bankCode[i] <= 'Z' || '0' <= r.bankCode[i] <= '9')
    && 10000 <= r.amount <= 100000000000
    && ((r.amount < 5000000 && r.adminFee == 2500) || (r.amount >= 5000000 && r.adminFee == 5000))
    && (r.note.Some? ==> |r.note.value| <= 500)
    && (r.decisionNote.Some? ==> |r.decisionNote.value| <= 500)
    && (|| (r.status == Pending && r.decidedBy.None? && r.decidedAt.None?)
        || ((r.status == Approved || r.status == Rejected) && r.decidedBy.Some? && r.decidedAt.Some?))
    && (r.deletedAt.None? || r.status == Pending)
  }

  lemma ValidInputMeetsSchema(fold: string -> string, input: CreateInput, id: Id, actor: Id, now: Time)
    requires ValidInput(fold, input)
    ensures SchemaOk(ToRow(NewDisbursement(fold, input, id, actor, now)))
    ensures Open(ToRow(NewDisbursement(fold, input, id, actor, now)))
  {
  }
}
