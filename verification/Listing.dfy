/**
 * Executing the two statements of `List`, and the pages it reports:
 * internal/repository/postgres/disbursement.go, internal/service/disbursement/service.go
 * and internal/domain/disbursement.go. The table and the order of its rows are fixed.
 */
module Listing {
  import opened Common
  import opened Domain
  import opened Query

  const DEFAULT_PAGE := 1
  const DEFAULT_LIMIT := 20
  const MAXIMUM_LIMIT := 100

  // ------------------------------------------------------------- the database

  datatype Column = CreatedAt | Amount | RecipientName | StatusColumn

  /** The table's rows as ORDER BY column and direction (true is ascending) lists them; `collate` orders text. */
  datatype Table = Table(rows: (Column, bool) -> seq<Row>, collate: (string, string) -> bool)

  /** The order of the status enumeration. */
  function Rank(s: Status): nat {
    match s
    case Pending => 0
    case Approved => 1
    case Rejected => 2
    case NoStatus => 3
  }

  predicate NotAfter(table: Table, column: Column, a: Row, b: Row) {
    match column
    case CreatedAt => a.createdAt <= b.createdAt
    case Amount => a.amount <= b.amount
    case RecipientName => table.collate(a.recipientName, b.recipientName)
    case StatusColumn => Rank(a.status) <= Rank(b.status)
  }

  predicate OrderedBy(table: Table, column: Column, ascending: bool, rows: seq<Row>) {
    forall i, j :: 0 <= i < j < |rows| ==>
      if ascending then NotAfter(table, column, rows[i], rows[j]) else NotAfter(table, column, rows[j], rows[i])
  }

  datatype ListQuery = ListQuery(where: seq<Condition>, column: Column, ascending: bool, limitAt: int, offsetAt: int)

  predicate AllTyped(clause: seq<Condition>, args: seq<Arg>) {
    forall i :: 0 <= i < |clause| ==> Typed(clause[i], args)
  }

  function Select(x: Text, clause: seq<Condition>, args: seq<Arg>, rows: seq<Row>): seq<Row> {
    if rows == [] then []
    else (if EvalAll(x, clause, args, rows[0]) == Some(true) then [rows[0]] else [])
         + Select(x, clause, args, rows[1..])
  }

  /** LIMIT and OFFSET. */
  function Window<T>(s: seq<T>, offset: nat, limit: nat): seq<T> {
    if offset >= |s| then [] else if offset + limit >= |s| then s[offset..] else s[offset..offset + limit]
  }

  /** The statement's placeholders must be exactly its arguments, and these must have the right types. */
  function ExecuteCount(x: Text, clause: seq<Condition>, args: seq<Arg>, table: Table): Option<nat> {
    if AllPlaceholders(clause) == Upto(|args|) && AllTyped(clause, args)
    then Some(|Select(x, clause, args, table.rows(CreatedAt, true))|) else None
  }

  predicate IsCount(args: seq<Arg>, n: int) {
    1 <= n <= |args| && args[n - 1].IntArg? && args[n - 1].number >= 0
  }

  function ExecuteList(x: Text, q: ListQuery, args: seq<Arg>, table: Table): Option<seq<Row>> {
    if && AllPlaceholders(q.where) + {q.limitAt, q.offsetAt} == Upto(|args|) && AllTyped(q.where, args)
       && IsCount(args, q.limitAt) && IsCount(args, q.offsetAt)
    then Some(Window(Select(x, q.where, args, table.rows(q.column, q.ascending)),
                     args[q.offsetAt - 1].number, args[q.limitAt - 1].number))
    else None
  }

  /** One table: every ORDER BY lists the same rows, in its order. */
  ghost predicate OneTable(table: Table) {
    && (forall c, asc :: multiset(table.rows(c, asc)) == multiset(table.rows(CreatedAt, true)))
    && (forall c, asc :: OrderedBy(table, c, asc, table.rows(c, asc)))
  }

  // ----------------------------------------------------------- what is asked

  function Matching(x: Text, filter: Filter, rows: seq<Row>): seq<Row> {
    if rows == [] then []
    else (if Matches(x, filter, rows[0]) then [rows[0]] else []) + Matching(x, filter, rows[1..])
  }

  function Multiplicity(row: Row, rows: seq<Row>): nat { multiset(rows)[row] }

  /** The matching rows are the rows that match, each as often as the table has it. */
  lemma {:induction false} MatchingKeepsMatches(x: Text, filter: Filter, rows: seq<Row>, row: Row)
    ensures Multiplicity(row, Matching(x, filter, rows)) ==
            if Matches(x, filter, row) then Multiplicity(row, rows) else 0
  {
    if rows != [] {
      assert rows == [rows[0]] + rows[1..];
      MatchingKeepsMatches(x, filter, rows[1..], row);
    }
  }

  /** In every order there are as many of them. */
  lemma MatchingCount(x: Text, filter: Filter, rows: seq<Row>, others: seq<Row>)
    requires multiset(rows) == multiset(others)
    ensures multiset(Matching(x, filter, rows)) == multiset(Matching(x, filter, others))
    ensures |Matching(x, filter, rows)| == |Matching(x, filter, others)|
  {
    var a, b := Matching(x, filter, rows), Matching(x, filter, others);
    forall row ensures multiset(a)[row] == multiset(b)[row] {
      MatchingKeepsMatches(x, filter, rows, row);
      MatchingKeepsMatches(x, filter, others, row);
    }
    assert multiset(a) == multiset(b);
    assert |multiset(a)| == |a| && |multiset(b)| == |b|;
  }

  lemma {:induction false} SelectIsMatching(x: Text, clause: seq<Condition>, args: seq<Arg>, filter: Filter,
                                            rows: seq<Row>)
    requires Means(x, clause, args, filter) && Answerable(filter)
    ensures Select(x, clause, args, rows) == Matching(x, filter, rows)
  {
    if rows != [] { SelectIsMatching(x, clause, args, filter, rows[1..]); }
  }

  lemma {:induction false} EvalNeedsTypes(x: Text, clause: seq<Condition>, args: seq<Arg>, row: Row)
    ensures EvalAll(x, clause, args, row).Some? <==> AllTyped(clause, args)
  {
    if clause != [] {
      var front := clause[..|clause| - 1];
      EvalNeedsTypes(x, front, args, row);
      assert forall i :: 0 <= i < |front| ==> front[i] == clause[i];
    }
  }

  /** A clause that means the filter is refused exactly when the filter is unanswerable. */
  lemma MeaningIsTyped(x: Text, clause: seq<Condition>, args: seq<Arg>, filter: Filter)
    requires Means(x, clause, args, filter)
    ensures AllTyped(clause, args) <==> Answerable(filter)
  {
    var row := Row(NIL, "", "", "", 0, 0, Pending, None, NIL, None, None, None, None, 0, 0);
    EvalNeedsTypes(x, clause, args, row);
    assert EvalAll(x, clause, args, row).Some? <==> Answerable(filter);
  }

  /** Binding LIMIT and OFFSET after the clause's arguments leaves the clause as it was. */
  lemma MeaningSurvives(x: Text, clause: seq<Condition>, args: seq<Arg>, filter: Filter, more: seq<Arg>)
    requires Means(x, clause, args, filter) && WellBound(clause, args)
    ensures Means(x, clause, args + more, filter)
  {
    forall row ensures EvalAll(x, clause, args + more, row) == EvalAll(x, clause, args, row) {
      LaterArgsAreIgnored(x, clause, args, more, row);
    }
  }

  /** COUNT(*) gives the number of matching rows, in whatever order they are listed later. */
  lemma CountsMatches(x: Text, clause: seq<Condition>, args: seq<Arg>, filter: Filter, table: Table, c: Column,
                      asc: bool)
    requires Means(x, clause, args, filter) && WellBound(clause, args) && OneTable(table)
    ensures ExecuteCount(x, clause, args, table) ==
            if Answerable(filter) then Some(|Matching(x, filter, table.rows(c, asc))|) else None
  {
    MeaningIsTyped(x, clause, args, filter);
    if Answerable(filter) {
      SelectIsMatching(x, clause, args, filter, table.rows(CreatedAt, true));
      MatchingCount(x, filter, table.rows(CreatedAt, true), table.rows(c, asc));
    }
  }

  /** With LIMIT and OFFSET bound last, the list statement gives its part of the matching rows. */
  lemma ListsWindow(x: Text, clause: seq<Condition>, args: seq<Arg>, filter: Filter, table: Table, c: Column, asc: bool,
                    limit: nat, offset: nat)
    requires Means(x, clause, args, filter) && WellBound(clause, args) && Answerable(filter)
    ensures ExecuteList(x, ListQuery(clause, c, asc, |args| + 1, |args| + 2),
                        args + [IntArg(limit), IntArg(offset)], table)
         == Some(Window(Matching(x, filter, table.rows(c, asc)), offset, limit))
  {
    var bounds := [IntArg(limit), IntArg(offset)];
    MeaningSurvives(x, clause, args, filter, bounds);
    MeaningIsTyped(x, clause, args + bounds, filter);
    SelectIsMatching(x, clause, args + bounds, filter, table.rows(c, asc));
    assert Upto(|args| + 2) == Upto(|args|) + {|args| + 1, |args| + 2};
  }

  lemma MappingCommutes(rows: seq<Row>, offset: nat, limit: nat)
    ensures Disbursements(Window(rows, offset, limit)) == Window(Disbursements(rows), offset, limit)
  {
  }

  // ---------------------------------------------------------------- the store

  function SortColumn(sortBy: string): Column {
    if sortBy == "amount" then Amount
    else if sortBy == "recipient_name" then RecipientName
    else if sortBy == "status" then StatusColumn
    else CreatedAt
  }

  function StorePage(page: int): nat { if page < 1 then 1 else page }

  function StoreLimit(limit: int): nat { if limit < 1 || limit > 100 then 20 else limit }

  function Disbursements(rows: seq<Row>): seq<Disbursement> {
    seq(|rows|, i requires 0 <= i < |rows| => FromRow(rows[i])) }

  /** Everything a filter asks for, in the order it asks for. */
  function Answer(x: Text, lower: string -> string, table: Table, filter: Filter): seq<Disbursement> {
    Disbursements(Matching(x, filter, table.rows(SortColumn(filter.sortBy), lower(filter.sortOrder) == "asc")))
  }

  /** The page a filter asks for. */
  function PageOf(answer: seq<Disbursement>, page: nat, limit: nat): seq<Disbursement>
    requires page >= 1
  {
    Window(answer, (page - 1) * limit, limit)
  }

  // ---------------------------------------------------------------- the order

  /** Pending before approved before rejected. */
  predicate StatusNotAfter(a: Status, b: Status) {
    a == b || a == Pending || b == Rejected || a == NoStatus || b == NoStatus
  }

  /** What a filter's text asks the items to be ordered by. */
  predicate NotAfterBy(collate: (string, string) -> bool, sortBy: string, a: Disbursement, b: Disbursement) {
    if sortBy == "amount" then a.amount <= b.amount
    else if sortBy == "recipient_name" then collate(a.recipientName, b.recipientName)
    else if sortBy == "status" then StatusNotAfter(a.status, b.status)
    else a.createdAt <= b.createdAt
  }

  predicate InAskedOrder(collate: (string, string) -> bool, sortBy: string, ascending: bool, items: seq<Disbursement>) {
    forall i, j :: 0 <= i < j < |items| ==>
      if ascending then NotAfterBy(collate, sortBy, items[i], items[j])
      else NotAfterBy(collate, sortBy, items[j], items[i])
  }

  /** Every matching row stands somewhere in the listing, in the listing's order. */
  lemma {:induction false} MatchingIsOrdered(x: Text, filter: Filter, table: Table, column: Column, ascending: bool,
                                             rows: seq<Row>)
    requires OrderedBy(table, column, ascending, rows)
    ensures OrderedBy(table, column, ascending, Matching(x, filter, rows))
    ensures forall row :: row in Matching(x, filter, rows) ==> row in rows
  {
    if rows != [] {
      var rest := Matching(x, filter, rows[1..]);
      MatchingIsOrdered(x, filter, table, column, ascending, rows[1..]);
      forall k | 0 <= k < |rest|
        ensures if ascending then NotAfter(table, column, rows[0], rest[k])
                else NotAfter(table, column, rest[k], rows[0])
      {
        assert rest[k] in rest;
        var i :| 0 <= i < |rows[1..]| && rows[1..][i] == rest[k];
        assert rows[i + 1] == rest[k];
      }
    }
  }

  /** The whole answer is in the order the filter's text asks for, ascending exactly for "asc". */
  lemma AnswerIsOrdered(x: Text, lower: string -> string, table: Table, filter: Filter)
    requires OneTable(table)
    ensures InAskedOrder(table.collate, filter.sortBy, lower(filter.sortOrder) == "asc",
                         Answer(x, lower, table, filter))
  {
    var column, ascending := SortColumn(filter.sortBy), lower(filter.sortOrder) == "asc";
    MatchingIsOrdered(x, filter, table, column, ascending, table.rows(column, ascending));
  }

  lemma PageIsOrdered(collate: (string, string) -> bool, sortBy: string, ascending: bool, answer: seq<Disbursement>,
                      page: nat, limit: nat)
    requires page >= 1 && InAskedOrder(collate, sortBy, ascending, answer)
    ensures InAskedOrder(collate, sortBy, ascending, PageOf(answer, page, limit))
  {
    WindowIsOrdered(collate, sortBy, ascending, answer, (page - 1) * limit, limit);
  }

  lemma PageAsked(x: Text, lower: string -> string, table: Table, filter: Filter)
    requires OneTable(table)
    ensures InAskedOrder(table.collate, filter.sortBy, lower(filter.sortOrder) == "asc",
                         PageOf(Answer(x, lower, table, filter), StorePage(filter.page), StoreLimit(filter.limit)))
  {
    AnswerIsOrdered(x, lower, table, filter);
    PageIsOrdered(table.collate, filter.sortBy, lower(filter.sortOrder) == "asc", Answer(x, lower, table, filter),
                  StorePage(filter.page), StoreLimit(filter.limit));
  }

  lemma WindowIsOrdered(collate: (string, string) -> bool, sortBy: string, ascending: bool, answer: seq<Disbursement>,
                        offset: nat, limit: nat)
    requires InAskedOrder(collate, sortBy, ascending, answer)
    ensures InAskedOrder(collate, sortBy, ascending, Window(answer, offset, limit))
  {
    var w := Window(answer, offset, limit);
    assert forall i :: 0 <= i < |w| ==> w[i] == answer[offset + i];
  }

  lemma EmptyHasNoPages(page: nat, limit: nat)
    requires page >= 1
    ensures PageOf([], page, limit) == []
  {
  }

  method List(x: Text, lower: string -> string, table: Table, filter: Filter)
      returns (r: Option<(seq<Disbursement>, nat)>)
    requires OneTable(table)
    ensures r.Some? <==> Answerable(filter)
    ensures r.Some? ==> var answer := Answer(x, lower, table, filter);
              r.value == (PageOf(answer, StorePage(filter.page), StoreLimit(filter.limit)), |answer|)
    ensures r.Some? ==> InAskedOrder(table.collate, filter.sortBy, lower(filter.sortOrder) == "asc", r.value.0)
  {
    PageAsked(x, lower, table, filter);
    var conditions, args, argIndex := BuildWhere(x, filter);
    CountsMatches(x, conditions, args, filter, table, SortColumn(filter.sortBy), lower(filter.sortOrder) == "asc");
    var total := ExecuteCount(x, conditions, args, table);
    if total.None? {
      return None;
    }
    if total.value == 0 {
      EmptyHasNoPages(StorePage(filter.page), StoreLimit(filter.limit));
      return Some(([], 0));
    }
    var items := FetchPage(x, filter, table, conditions, args, argIndex,
                           SortColumn(filter.sortBy), lower(filter.sortOrder) == "asc");
    if items.None? {
      return None;
    }
    r := Some((items.value, total.value));
  }

  /** The second statement, with its bounds. */
  method FetchPage(x: Text, filter: Filter, table: Table, conditions: seq<Condition>, args: seq<Arg>, argIndex: nat,
                   column: Column, ascending: bool) returns (items: Option<seq<Disbursement>>)
    requires Means(x, conditions, args, filter) && WellBound(conditions, args) && argIndex == |args| + 1
    requires Answerable(filter)
    ensures items == Some(PageOf(Disbursements(Matching(x, filter, table.rows(column, ascending))),
                                 StorePage(filter.page), StoreLimit(filter.limit)))
  {
    var page, limit := filter.page, filter.limit;
    if page < 1 {
      page := DEFAULT_PAGE;
    }
    if limit < 1 || limit > MAXIMUM_LIMIT {
      limit := DEFAULT_LIMIT;
    }
    var offset := (page - 1) * limit;
    ListsWindow(x, conditions, args, filter, table, column, ascending, limit, offset);
    var rows := ExecuteList(x, ListQuery(conditions, column, ascending, argIndex, argIndex + 1),
                            args + [IntArg(limit), IntArg(offset)], table);
    if rows.None? {
      return None;
    }
    var result := MapRows(rows.value);
    MappingCommutes(Matching(x, filter, table.rows(column, ascending)), offset, limit);
    items := Some(result);
  }

  method MapRows(rows: seq<Row>) returns (result: seq<Disbursement>)
    ensures result == Disbursements(rows)
  {
    result := [];
    for i := 0 to |rows|
      invariant result == Disbursements(rows[..i])
    {
      result := result + [FromRow(rows[i])];
      assert rows[..i + 1] == rows[..i] + [rows[i]];
    }
    assert rows[..|rows|] == rows;
  }

  // --------------------------------------------------------------- pagination

  datatype Pagination = Pagination(page: int, limit: int, total: int, totalPages: int)

  /** The least number of pages that hold everything. */
  predicate LeastPages(pages: int, total: int, limit: int) {
    pages >= 0 && pages * limit >= total && (pages > 0 ==> (pages - 1) * limit < total)
  }

  method NewPagination(requestedPage: int, requestedLimit: int, total: int) returns (r: Option<Pagination>)
    ensures r.None? <==> requestedPage < 0 || requestedLimit < 0 || requestedLimit > 100 || total < 0
    ensures r.Some? ==> r.value.total == total && LeastPages(r.value.totalPages, total, r.value.limit)
    ensures r.Some? ==> r.value.page == StorePage(requestedPage) && r.value.limit == StoreLimit(requestedLimit)
  {
    var page, limit := requestedPage, requestedLimit;
    if page == 0 {
      page := DEFAULT_PAGE;
    }
    if limit == 0 {
      limit := DEFAULT_LIMIT;
    }
    if page < 1 || limit < 1 || limit > MAXIMUM_LIMIT || total < 0 {
      return None;
    }
    var totalPages := 0;
    if total > 0 {
      totalPages := (total + limit - 1) / limit;
    }
    r := Some(Pagination(page, limit, total, totalPages));
  }

  // --------------------------------------------------------------- the service

  datatype Listed = Failed | Invalid | Listed(items: seq<Disbursement>, pagination: Pagination)

  /** What the service answers: a page of the whole answer, with the page and limit that were used. */
  ghost predicate Answers(x: Text, lower: string -> string, table: Table, filter: Filter, r: Listed) {
    if !Answerable(filter) then r == Failed
    else if filter.page < 0 || filter.limit < 0 || filter.limit > 100 then r == Invalid
    else
      && r.Listed? && var answer := Answer(x, lower, table, filter);
      && r.pagination.page == StorePage(filter.page) && r.pagination.limit == StoreLimit(filter.limit)
      && r.pagination.total == |answer| && LeastPages(r.pagination.totalPages, |answer|, r.pagination.limit)
      && r.items == PageOf(answer, r.pagination.page, r.pagination.limit)
  }

  method ListDisbursements(x: Text, lower: string -> string, table: Table, filter: Filter) returns (r: Listed)
    requires OneTable(table)
    ensures Answers(x, lower, table, filter, r)
    ensures r.Listed? ==> InAskedOrder(table.collate, filter.sortBy, lower(filter.sortOrder) == "asc", r.items)
  {
    var found := List(x, lower, table, filter);
    if found.None? {
      return Failed;
    }
    var (items, total) := found.value;
    var pagination := NewPagination(filter.page, filter.limit, total);
    if pagination.None? {
      return Invalid;
    }
    r := Listed(items, pagination.value);
  }

  /** The first `k` pages, one after another. */
  function Walk(pages: nat -> Listed, k: nat): seq<Disbursement> {
    if k == 0 then [] else Walk(pages, k - 1) + (if pages(k).Listed? then pages(k).items else [])
  }

  /** Everything a walk through the pages sees: `pages(p)` is the service's answer for page p. */
  ghost predicate IsWalk(x: Text, lower: string -> string, table: Table, filter: Filter, pages: nat -> Listed) {
    forall p: nat :: p >= 1 ==> Answers(x, lower, table, filter.(page := p), pages(p))
  }

  // ------------------------------------------------- pages of any sequence

  lemma WindowsJoin(s: seq<Disbursement>, offset: nat, limit: nat)
    ensures Window(s, 0, offset) + Window(s, offset, limit) == Window(s, 0, offset + limit)
  {
  }

  function FirstPages(s: seq<Disbursement>, limit: nat, k: nat): seq<Disbursement> {
    if k == 0 then [] else FirstPages(s, limit, k - 1) + PageOf(s, k, limit)
  }

  lemma PageJoins(s: seq<Disbursement>, limit: nat, k: nat)
    requires k >= 1
    ensures Window(s, 0, (k - 1) * limit) + PageOf(s, k, limit) == Window(s, 0, k * limit)
  {
    var offset := (k - 1) * limit;
    assert offset + limit == k * limit;
    WindowsJoin(s, offset, limit);
  }

  lemma {:induction false} FirstPagesAreAPrefix(s: seq<Disbursement>, limit: nat, k: nat)
    ensures FirstPages(s, limit, k) == Window(s, 0, k * limit)
  {
    if k > 0 {
      FirstPagesAreAPrefix(s, limit, k - 1);
      PageJoins(s, limit, k);
    }
  }

  lemma LeastPagesHoldAll(s: seq<Disbursement>, limit: nat, last: nat)
    requires LeastPages(last, |s|, limit)
    ensures FirstPages(s, limit, last) == s
  {
    FirstPagesAreAPrefix(s, limit, last);
  }

  lemma ProductGrows(a: int, b: int, c: nat)
    requires a <= b
    ensures a * c <= b * c
  {
  }

  /** Full before the last page, not empty at it, empty after it. */
  lemma PageLengths(s: seq<Disbursement>, limit: nat, last: nat, p: nat)
    requires LeastPages(last, |s|, limit) && p >= 1
    ensures p < last ==> |PageOf(s, p, limit)| == limit
    ensures p == last ==> 1 <= |PageOf(s, p, limit)| <= limit
    ensures p > last ==> PageOf(s, p, limit) == []
  {
    assert (p - 1) * limit + limit == p * limit;
    if p < last {
      ProductGrows(p, last - 1, limit);
    } else if p > last {
      ProductGrows(last, p - 1, limit);
    }
  }

  // ------------------------------------------------------ a walk of the pages

  lemma {:induction false} MatchingIgnoresPage(x: Text, filter: Filter, p: int, rows: seq<Row>)
    ensures Matching(x, filter.(page := p), rows) == Matching(x, filter, rows)
  {
    if rows != [] { MatchingIgnoresPage(x, filter, p, rows[1..]); }
  }

  /** A filter that the service answers for every page from the first on. */
  predicate Walkable(filter: Filter) { Answerable(filter) && 0 <= filter.limit <= 100 }

  lemma PageOfWalk(x: Text, lower: string -> string, table: Table, filter: Filter, pages: nat -> Listed, p: nat)
    requires Walkable(filter) && IsWalk(x, lower, table, filter, pages) && p >= 1
    ensures pages(p).Listed? && var answer := Answer(x, lower, table, filter);
            && pages(p).pagination.page == p && pages(p).pagination.limit == StoreLimit(filter.limit)
            && pages(p).pagination.total == |answer|
            && LeastPages(pages(p).pagination.totalPages, |answer|, StoreLimit(filter.limit))
            && pages(p).items == PageOf(answer, p, StoreLimit(filter.limit))
  {
    MatchingIgnoresPage(x, filter, p, table.rows(SortColumn(filter.sortBy), lower(filter.sortOrder) == "asc"));
    assert Answers(x, lower, table, filter.(page := p), pages(p));
  }

  /** Whenever the service answers, the page is full before the last one, not empty at it and empty after it. */
  lemma PageSizes(x: Text, lower: string -> string, table: Table, filter: Filter, pages: nat -> Listed, p: nat)
    requires Walkable(filter) && IsWalk(x, lower, table, filter, pages) && p >= 1
    ensures pages(p).Listed? && pages(p).pagination.page == p
    ensures p < pages(p).pagination.totalPages ==> |pages(p).items| == pages(p).pagination.limit
    ensures p == pages(p).pagination.totalPages ==> 1 <= |pages(p).items| <= pages(p).pagination.limit
    ensures p > pages(p).pagination.totalPages ==> pages(p).items == []
  {
    PageOfWalk(x, lower, table, filter, pages, p);
    PageLengths(Answer(x, lower, table, filter), StoreLimit(filter.limit), pages(p).pagination.totalPages, p);
  }

  lemma ItemsOfWalk(x: Text, lower: string -> string, table: Table, filter: Filter, pages: nat -> Listed, p: nat)
    requires Walkable(filter) && IsWalk(x, lower, table, filter, pages) && p >= 1
    ensures pages(p).Listed? && pages(p).items == PageOf(Answer(x, lower, table, filter), p, StoreLimit(filter.limit))
  {
    PageOfWalk(x, lower, table, filter, pages, p);
  }

  predicate ShowsPage(pages: nat -> Listed, s: seq<Disbursement>, limit: nat, p: nat)
    requires p >= 1
  {
    pages(p).Listed? && pages(p).items == PageOf(s, p, limit)
  }

  lemma {:induction false} WalkIsFirstPages(pages: nat -> Listed, s: seq<Disbursement>, limit: nat, k: nat)
    requires forall p: nat :: 1 <= p <= k ==> ShowsPage(pages, s, limit, p)
    ensures Walk(pages, k) == FirstPages(s, limit, k)
  {
    if k > 0 {
      WalkIsFirstPages(pages, s, limit, k - 1);
      assert ShowsPage(pages, s, limit, k);
    }
  }

  /**
   * The pages up to the last one are the whole answer, whichever of them reports how many there are
   * (and the answer is, by `MatchingKeepsMatches`, every matching row as often as the table has it).
   */
  lemma PagesAreTheAnswer(x: Text, lower: string -> string, table: Table, filter: Filter, pages: nat -> Listed, p: nat)
    requires Walkable(filter) && IsWalk(x, lower, table, filter, pages) && p >= 1
    ensures pages(p).Listed? && pages(p).pagination.totalPages >= 0
    ensures Walk(pages, pages(p).pagination.totalPages) == Answer(x, lower, table, filter)
  {
    PageOfWalk(x, lower, table, filter, pages, p);
    var answer, limit, last := Answer(x, lower, table, filter), StoreLimit(filter.limit),
                               pages(p).pagination.totalPages;
    forall q: nat | 1 <= q <= last ensures ShowsPage(pages, answer, limit, q) {
      ItemsOfWalk(x, lower, table, filter, pages, q);
    }
    WalkIsFirstPages(pages, answer, limit, last);
    LeastPagesHoldAll(answer, limit, last);
  }
}
