/**
 * The WHERE clause that `List` builds, and what it means:
 * internal/repository/postgres/disbursement.go and internal/domain/disbursement.go.
 * Trimming and ILIKE are functions of the text.
 */
module Query {
  import opened Common
  import opened Domain

  const DAY: Time := 86_400_000_000_000

  // ------------------------------------------------------------ date ranges

  datatype DateRange = DateRange(fromInclusive: Time, toExclusive: Time)

  /** The number of the UTC day an instant falls on, counted from the epoch. */
  function UtcDay(t: Time): int { t / 86_400_000_000_000 }

  function StartOfUtcDay(t: Time): Time { t - t % DAY }

  predicate InRange(range: DateRange, t: Time) { range.fromInclusive <= t < range.toExclusive }

  function NewUtcDateRange(first: Time, last: Time): Option<DateRange> {
    var fromUtc, toUtc := StartOfUtcDay(first), StartOfUtcDay(last);
    if fromUtc > toUtc then None else Some(DateRange(fromUtc, toUtc + DAY))
  }

  /** It fails exactly for days out of order, and holds the instants of both days and those between. */
  lemma DateRangeIsInclusive(first: Time, last: Time, t: Time)
    ensures NewUtcDateRange(first, last).None? <==> UtcDay(first) > UtcDay(last)
    ensures var range := NewUtcDateRange(first, last);
            range.Some? ==> (InRange(range.value, t) <==> UtcDay(first) <= UtcDay(t) <= UtcDay(last))
  {
    assert first == UtcDay(first) * DAY + first % DAY;
    assert last == UtcDay(last) * DAY + last % DAY;
    assert t == UtcDay(t) * DAY + t % DAY;
  }

  // ---------------------------------------------------------------- filters

  datatype Text = Text(trim: string -> string, ilike: (string, string) -> bool)

  datatype Filter = Filter(
    page: int, limit: int, status: string, search: string, sortBy: string, sortOrder: string,
    dateRange: Option<DateRange>)

  function Label(s: Status): string {
    match s
    case Pending => "PENDING"
    case Approved => "APPROVED"
    case Rejected => "REJECTED"
    case NoStatus => ""
  }

  predicate IsLabel(s: string) { s == "PENDING" || s == "APPROVED" || s == "REJECTED" }

  function Pattern(x: Text, search: string): string { "%" + x.trim(search) + "%" }

  predicate Finds(x: Text, row: Row, pattern: string) {
    x.ilike(row.recipientName, pattern) || x.ilike(row.accountNumber, pattern)
  }

  /** What a filter asks for. */
  predicate Matches(x: Text, filter: Filter, row: Row) {
    && row.deletedAt.None?
    && (filter.status != "" ==> Label(row.status) == filter.status)
    && (x.trim(filter.search) != "" ==> Finds(x, row, Pattern(x, filter.search)))
    && (filter.dateRange.Some? ==> InRange(filter.dateRange.value, row.createdAt))
  }

  /** The database refuses a status that is not a value of its enumeration. */
  predicate Answerable(filter: Filter) { filter.status != "" ==> IsLabel(filter.status) }

  // -------------------------------------------------------------- statements

  datatype Arg = StringArg(text: string) | TimeArg(time: Time) | IntArg(number: int)

  /** One conjunct; a number n is the placeholder $n. */
  datatype Condition =
    | NotDeleted
    | StatusEquals(n: int)
    | NameOrAccountLike(n: int, m: int)
    | CreatedFrom(n: int)
    | CreatedBefore(n: int)

  function Placeholders(c: Condition): set<int> {
    match c
    case NotDeleted => {}
    case StatusEquals(n) => {n}
    case NameOrAccountLike(n, m) => {n, m}
    case CreatedFrom(n) => {n}
    case CreatedBefore(n) => {n}
  }

  function AllPlaceholders(clause: seq<Condition>): set<int> {
    if clause == [] then {} else AllPlaceholders(clause[..|clause| - 1]) + Placeholders(clause[|clause| - 1])
  }

  function Upto(n: nat): (s: set<int>)
    ensures forall i :: i in s <==> 1 <= i <= n
  {
    if n == 0 then {} else Upto(n - 1) + {n}
  }

  predicate IsString(args: seq<Arg>, n: int) { 1 <= n <= |args| && args[n - 1].StringArg? }

  predicate IsTime(args: seq<Arg>, n: int) { 1 <= n <= |args| && args[n - 1].TimeArg? }

  /** Every argument is there, of the column's type, and a status is a value of the enumeration. */
  predicate Typed(c: Condition, args: seq<Arg>) {
    match c
    case NotDeleted => true
    case StatusEquals(n) => IsString(args, n) && IsLabel(args[n - 1].text)
    case NameOrAccountLike(n, m) => IsString(args, n) && IsString(args, m)
    case CreatedFrom(n) => IsTime(args, n)
    case CreatedBefore(n) => IsTime(args, n)
  }

  predicate Holds(x: Text, c: Condition, args: seq<Arg>, row: Row)
    requires Typed(c, args)
  {
    match c
    case NotDeleted => row.deletedAt.None?
    case StatusEquals(n) => Label(row.status) == args[n - 1].text
    case NameOrAccountLike(n, m) =>
      x.ilike(row.recipientName, args[n - 1].text) || x.ilike(row.accountNumber, args[m - 1].text)
    case CreatedFrom(n) => row.createdAt >= args[n - 1].time
    case CreatedBefore(n) => row.createdAt < args[n - 1].time
  }

  /** The truth of a conjunct for one row; `None` when the database refuses the arguments. */
  function Eval(x: Text, c: Condition, args: seq<Arg>, row: Row): Option<bool> {
    if Typed(c, args) then Some(Holds(x, c, args, row)) else None
  }

  function And(a: Option<bool>, b: Option<bool>): Option<bool> {
    if a.None? || b.None? then None else Some(a.value && b.value)
  }

  /** The conjunction of the clause. */
  function EvalAll(x: Text, clause: seq<Condition>, args: seq<Arg>, row: Row): Option<bool> {
    if clause == [] then Some(true)
    else And(EvalAll(x, clause[..|clause| - 1], args, row), Eval(x, clause[|clause| - 1], args, row))
  }

  /** Every placeholder belongs to one conjunct, and together they are $1 to $k for the k arguments. */
  ghost predicate WellBound(clause: seq<Condition>, args: seq<Arg>) {
    && AllPlaceholders(clause) == Upto(|args|)
    && forall i, j {:trigger Placeholders(clause[i]), Placeholders(clause[j])} :: 0 <= i < j < |clause| ==>
         Placeholders(clause[i]) !! Placeholders(clause[j])
  }

  // ---------------------------------------------------------------- lemmas

  lemma PlaceholdersOfMember(clause: seq<Condition>, i: nat)
    requires i < |clause|
    ensures Placeholders(clause[i]) <= AllPlaceholders(clause)
  {
    if i < |clause| - 1 { PlaceholdersOfMember(clause[..|clause| - 1], i); }
  }

  /** Arguments after those a clause uses do not change its meaning. */
  lemma {:induction false} LaterArgsAreIgnored(x: Text, clause: seq<Condition>, args: seq<Arg>, more: seq<Arg>,
                                               row: Row)
    requires AllPlaceholders(clause) <= Upto(|args|)
    ensures EvalAll(x, clause, args + more, row) == EvalAll(x, clause, args, row)
  {
    if clause != [] {
      var c := clause[|clause| - 1];
      assert forall n :: n in Placeholders(c) ==> n in Upto(|args|);
      LaterArgsAreIgnored(x, clause[..|clause| - 1], args, more, row);
    }
  }

  /** Adding a conjunct over the next placeholder and its argument. */
  lemma Extended(x: Text, clause: seq<Condition>, args: seq<Arg>, c: Condition, arg: Arg)
    requires WellBound(clause, args) && Placeholders(c) == {|args| + 1}
    ensures WellBound(clause + [c], args + [arg])
    ensures forall row :: EvalAll(x, clause + [c], args + [arg], row)
                       == And(EvalAll(x, clause, args, row), Eval(x, c, args + [arg], row))
  {
    assert (clause + [c])[..|clause|] == clause;
    assert Upto(|args| + 1) == Upto(|args|) + {|args| + 1};
    forall i | 0 <= i < |clause| ensures Placeholders(clause[i]) !! Placeholders(c) {
      PlaceholdersOfMember(clause, i);
    }
    forall row ensures EvalAll(x, clause, args + [arg], row) == EvalAll(x, clause, args, row) {
      LaterArgsAreIgnored(x, clause, args, [arg], row);
    }
  }

  /** What the first `stage` parts of a filter ask for: status, search term, start and end of the range. */
  predicate MatchesPart(x: Text, filter: Filter, stage: nat, row: Row) {
    && row.deletedAt.None?
    && (stage >= 1 && filter.status != "" ==> Label(row.status) == filter.status)
    && (stage >= 2 && x.trim(filter.search) != "" ==> Finds(x, row, Pattern(x, filter.search)))
    && (stage >= 3 && filter.dateRange.Some? ==> row.createdAt >= filter.dateRange.value.fromInclusive)
    && (stage >= 4 && filter.dateRange.Some? ==> row.createdAt < filter.dateRange.value.toExclusive)
  }

  /** Well bound, and on every row the clause means that much of the filter, or it fails. */
  ghost predicate Built(x: Text, built: (seq<Condition>, seq<Arg>), filter: Filter, stage: nat) {
    && WellBound(built.0, built.1)
    && forall row :: EvalAll(x, built.0, built.1, row)
                  == if stage >= 1 ==> Answerable(filter) then Some(MatchesPart(x, filter, stage, row)) else None
  }

  predicate Applies(x: Text, filter: Filter, stage: nat) {
    if stage == 1 then filter.status != ""
    else if stage == 2 then x.trim(filter.search) != "" else filter.dateRange.Some?
  }

  /** The conjunct a stage adds over the placeholder n, and its argument. */
  function StageCondition(stage: nat, n: int): Condition {
    if stage == 1 then StatusEquals(n) else if stage == 2 then NameOrAccountLike(n, n)
    else if stage == 3 then CreatedFrom(n) else CreatedBefore(n)
  }

  function StageArg(x: Text, filter: Filter, stage: nat): Arg
    requires Applies(x, filter, stage)
  {
    if stage == 1 then StringArg(filter.status) else if stage == 2 then StringArg(Pattern(x, filter.search))
    else if stage == 3 then TimeArg(filter.dateRange.value.fromInclusive)
    else TimeArg(filter.dateRange.value.toExclusive)
  }

  /** A stage's part of the clause, with its argument. */
  function Stage(x: Text, filter: Filter, stage: nat, built: (seq<Condition>, seq<Arg>)): (seq<Condition>, seq<Arg>) {
    if Applies(x, filter, stage)
    then (built.0 + [StageCondition(stage, |built.1| + 1)], built.1 + [StageArg(x, filter, stage)])
    else built
  }

  function Clause(x: Text, filter: Filter, stage: nat): (seq<Condition>, seq<Arg>) {
    if stage == 0 then ([NotDeleted], []) else Stage(x, filter, stage, Clause(x, filter, stage - 1))
  }

  lemma {:induction false} ClauseIsBuilt(x: Text, filter: Filter, stage: nat)
    requires stage <= 4
    ensures Built(x, Clause(x, filter, stage), filter, stage)
  {
    if stage == 0 {
      BuiltZero(x, filter);
    } else {
      ClauseIsBuilt(x, filter, stage - 1);
      BuiltNext(x, Clause(x, filter, stage - 1), filter, stage);
    }
  }

  lemma BuiltZero(x: Text, filter: Filter)
    ensures Built(x, ([NotDeleted], []), filter, 0)
  {
    assert [NotDeleted][..0] == [] && AllPlaceholders([]) == {};
  }

  lemma BuiltNext(x: Text, built: (seq<Condition>, seq<Arg>), filter: Filter, stage: nat)
    requires 0 < stage <= 4 && Built(x, built, filter, stage - 1)
    ensures Built(x, Stage(x, filter, stage, built), filter, stage)
  {
    if Applies(x, filter, stage) {
      Extended(x, built.0, built.1, StageCondition(stage, |built.1| + 1), StageArg(x, filter, stage));
    }
  }

  ghost predicate Means(x: Text, clause: seq<Condition>, args: seq<Arg>, filter: Filter) {
    forall row :: EvalAll(x, clause, args, row) == if Answerable(filter) then Some(Matches(x, filter, row)) else None
  }

  lemma BuiltAll(x: Text, clause: seq<Condition>, args: seq<Arg>, filter: Filter)
    requires Built(x, (clause, args), filter, 4)
    ensures WellBound(clause, args) && Means(x, clause, args, filter)
  {
    assert forall row :: MatchesPart(x, filter, 4, row) == Matches(x, filter, row);
  }

  /** Only the clause of an unanswerable filter fails; any other means exactly what the filter asks for. */
  method BuildWhere(x: Text, filter: Filter) returns (conditions: seq<Condition>, args: seq<Arg>, argIndex: nat)
    ensures WellBound(conditions, args) && argIndex == |args| + 1
    ensures Means(x, conditions, args, filter)
  {
    conditions, args, argIndex := [], [], 1;
    conditions := conditions + [NotDeleted];
    assert conditions == [NotDeleted];

    if filter.status != "" {
      conditions := conditions + [StatusEquals(argIndex)];
      args := args + [StringArg(filter.status)];
      argIndex := argIndex + 1;
    }
    assert (conditions, args) == Clause(x, filter, 1);

    if x.trim(filter.search) != "" {
      var searchTerm := "%" + x.trim(filter.search) + "%";
      conditions := conditions + [NameOrAccountLike(argIndex, argIndex)];
      args := args + [StringArg(searchTerm)];
      argIndex := argIndex + 1;
    }
    assert (conditions, args) == Clause(x, filter, 2);

    if filter.dateRange.Some? {
      conditions := conditions + [CreatedFrom(argIndex)];
      args := args + [TimeArg(filter.dateRange.value.fromInclusive)];
      argIndex := argIndex + 1;
      assert (conditions, args) == Clause(x, filter, 3);

      conditions := conditions + [CreatedBefore(argIndex)];
      args := args + [TimeArg(filter.dateRange.value.toExclusive)];
      argIndex := argIndex + 1;
    }
    assert (conditions, args) == Clause(x, filter, 4);
    ClauseIsBuilt(x, filter, 4);
    BuiltAll(x, conditions, args, filter);
  }

  /** With a range made from two days, a filter asks for the rows of those days, both included. */
  lemma AsksForInclusiveDays(x: Text, filter: Filter, first: Time, last: Time, row: Row)
    requires filter.dateRange.Some? && filter.dateRange == NewUtcDateRange(first, last)
    ensures Matches(x, filter, row) <==>
              Matches(x, filter.(dateRange := None), row) && UtcDay(first) <= UtcDay(row.createdAt) <= UtcDay(last)
  {
    DateRangeIsInclusive(first, last, row.createdAt);
  }

  /** A filter by a status name asks for rows of that status and no other; an empty name for any. */
  lemma AsksForStatus(x: Text, filter: Filter, row: Row)
    ensures filter.status == "PENDING" && Matches(x, filter, row) ==> row.status == Pending
    ensures filter.status == "APPROVED" && Matches(x, filter, row) ==> row.status == Approved
    ensures filter.status == "REJECTED" && Matches(x, filter, row) ==> row.status == Rejected
    ensures Matches(x, filter, row) ==> Matches(x, filter.(status := ""), row)
    ensures Matches(x, filter.(status := ""), row) ==>
              && (row.status == Pending ==> Matches(x, filter.(status := "PENDING"), row))
              && (row.status == Approved ==> Matches(x, filter.(status := "APPROVED"), row))
              && (row.status == Rejected ==> Matches(x, filter.(status := "REJECTED"), row))
  {
  }
}
