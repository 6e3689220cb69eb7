/** ExpensesController: who the caller is, which expenses a listing shows,
    the spending summary, and the HTTP status each outcome of the expense
    service becomes. */
module ExpenseApi {
  import opened Common
  import opened Sequences
  import opened Models
  import opened Http
  import opened ExpenseStore
  import CategoryStore
  import ExpenseRules

  // ---------------------------------------------------------------- the caller

  datatype Claim = Claim(claimType: string, value: string)

  const SubClaim := "sub"
  const NameIdentifierClaim := "http://schemas.xmlsoap.org/ws/2005/05/identity/claims/nameidentifier"

  /** `claims[i]` is the first claim of type `t`, the one `FindFirst(t)` returns. */
  predicate IsFirstOfType(claims: seq<Claim>, i: int, t: string) {
    0 <= i < |claims| && claims[i].claimType == t && forall j :: 0 <= j < i ==> claims[j].claimType != t
  }

  function HasType(t: string): Claim -> bool {
    (c: Claim) => c.claimType == t
  }

  /** `FindFirst(t)?.Value`. */
  function FindFirst(claims: seq<Claim>, t: string): (r: Option<string>)
    ensures r.Some? <==> exists i :: IsFirstOfType(claims, i, t)
    ensures forall i :: IsFirstOfType(claims, i, t) ==> r == Some(claims[i].value)
  {
    match FirstIndex(claims, HasType(t))
    case Some(i) =>
      assert IsFirstOfType(claims, i, t) by {
        forall j | 0 <= j < i ensures claims[j].claimType != t {
          assert !HasType(t)(claims[j]);
        }
      }
      Some(claims[i].value)
    case None =>
      assert forall i :: 0 <= i < |claims| ==> !HasType(t)(claims[i]) by {
        forall i | 0 <= i < |claims| ensures !HasType(t)(claims[i]) {
          assert claims[i] in claims;
        }
      }
      None
  }

  /** `Guid.TryParse(s, out id) ? id : Guid.Empty`, with `parse` standing for
      the parser. */
  function ParseOrEmpty(parse: string -> Option<Guid>, s: string): Guid {
    match parse(s)
    case Some(id) => id
    case None => EmptyGuid
  }

  /** GetUserId: the first `sub` claim when its value is non-empty, else the
      first NameIdentifier claim; an unparseable or missing value is
      `Guid.Empty`. The result is never an id that no claim carries. */
  function GetUserId(claims: seq<Claim>, parse: string -> Option<Guid>): (r: Guid)
    ensures r == EmptyGuid || exists c :: c in claims && parse(c.value) == Some(r)
  {
    var sub := FindFirst(claims, SubClaim);
    var t := if sub.None? || sub.value == "" then NameIdentifierClaim else SubClaim;
    match FindFirst(claims, t)
    case None => EmptyGuid
    case Some(v) =>
      ParsedClaimIsCarried(claims, parse, t);
      ParseOrEmpty(parse, v)
  }

  lemma ParsedClaimIsCarried(claims: seq<Claim>, parse: string -> Option<Guid>, t: string)
    requires FindFirst(claims, t).Some?
    ensures var g := ParseOrEmpty(parse, FindFirst(claims, t).value);
            g == EmptyGuid || exists c :: c in claims && parse(c.value) == Some(g)
  {
    var i :| IsFirstOfType(claims, i, t);
    assert claims[i] in claims;
  }

  /** Which claim GetUserId reads: a non-empty first `sub` claim wins; an
      empty or missing one defers to the first NameIdentifier claim; with
      neither the caller has no id. */
  lemma {:induction false} GetUserIdPrefersSub(claims: seq<Claim>, parse: string -> Option<Guid>)
    ensures forall i :: IsFirstOfType(claims, i, SubClaim) && claims[i].value != "" ==>
              GetUserId(claims, parse) == ParseOrEmpty(parse, claims[i].value)
    ensures (forall i :: IsFirstOfType(claims, i, SubClaim) ==> claims[i].value == "") ==>
              forall j :: IsFirstOfType(claims, j, NameIdentifierClaim) ==>
                GetUserId(claims, parse) == ParseOrEmpty(parse, claims[j].value)
    ensures (forall i :: IsFirstOfType(claims, i, SubClaim) ==> claims[i].value == "")
            && (forall j :: !IsFirstOfType(claims, j, NameIdentifierClaim)) ==>
              GetUserId(claims, parse) == EmptyGuid
  {
  }

  // ---------------------------------------------------------------- GetExpenses

  function InCategory(categoryId: Guid): Expense -> bool {
    (e: Expense) => e.categoryId == categoryId
  }

  /** What a listing with the given query shows, as one filter. */
  function Listed(userId: Guid, startDate: Option<DateTime>, endDate: Option<DateTime>, categoryId: Option<Guid>): Expense -> bool {
    (e: Expense) =>
      IsVisibleTo(e, userId) && WithinBounds(e.date, startDate, endDate)
      && (categoryId.None? || e.categoryId == categoryId.value)
  }

  /** The service query GetExpenses runs: the range query when either bound
      is given (a missing bound becomes `DateTime.MinValue` or `MaxValue`),
      the plain listing otherwise. */
  function QueryExpenses(expenses: seq<Expense>, userId: Guid, startDate: Option<DateTime>, endDate: Option<DateTime>): (r: seq<Expense>)
    ensures multiset(r) == multiset(Filter(expenses, Listed(userId, startDate, endDate, None)))
    ensures SortedBy(r, NotEarlier)
  {
    if startDate.Some? || endDate.Some? then
      (var start := startDate.GetOr(MinValue);
       var end := endDate.GetOr(MaxValue);
       FilterSame(expenses, VisibleBetween(userId, start, end), Listed(userId, startDate, endDate, None));
       var r := GetExpensesByDateRange(expenses, userId, start, end);
       assert SortedBy(r, NotEarlier);
       r)
    else
      (FilterSame(expenses, VisibleTo(userId), Listed(userId, startDate, endDate, None));
       var r := GetExpensesByUser(expenses, userId);
       assert SortedBy(r, NotEarlier);
       r)
  }

  /** The list GetExpenses returns: the query's result, then the category
      filter, which keeps the order. */
  function ListExpenses(expenses: seq<Expense>, userId: Guid, startDate: Option<DateTime>, endDate: Option<DateTime>, categoryId: Option<Guid>): (r: seq<Expense>)
    ensures forall e :: e in r <==> e in expenses && Listed(userId, startDate, endDate, categoryId)(e)
    ensures multiset(r) == multiset(Filter(expenses, Listed(userId, startDate, endDate, categoryId)))
    ensures forall i, j :: 0 <= i < j < |r| ==> r[i].date >= r[j].date
  {
    var base := QueryExpenses(expenses, userId, startDate, endDate);
    var r := if categoryId.Some? then Filter(base, InCategory(categoryId.value)) else base;
    ListExpensesFilter(expenses, userId, startDate, endDate, categoryId);
    SameMultisetSameMembers(r, Filter(expenses, Listed(userId, startDate, endDate, categoryId)));
    r
  }

  lemma {:induction false} ListExpensesFilter(expenses: seq<Expense>, userId: Guid, startDate: Option<DateTime>, endDate: Option<DateTime>, categoryId: Option<Guid>)
    ensures var base := QueryExpenses(expenses, userId, startDate, endDate);
            var r := if categoryId.Some? then Filter(base, InCategory(categoryId.value)) else base;
            multiset(r) == multiset(Filter(expenses, Listed(userId, startDate, endDate, categoryId)))
            && SortedBy(r, NotEarlier)
  {
    var base := QueryExpenses(expenses, userId, startDate, endDate);
    var all := Listed(userId, startDate, endDate, None);
    var listed := Listed(userId, startDate, endDate, categoryId);
    if categoryId.Some? {
      var c := InCategory(categoryId.value);
      FilterKeepsSorted(base, c, NotEarlier);
      FilterPermutation(base, Filter(expenses, all), c);
      FilterFilter(expenses, all, c);
      FilterSame(expenses, Both(all, c), listed);
    } else {
      FilterSame(expenses, all, listed);
    }
  }

  /** GetExpenses: 401 for a caller without an id, otherwise 200 and the listing. */
  function GetExpensesReply(claims: seq<Claim>, parse: string -> Option<Guid>, expenses: seq<Expense>,
                            startDate: Option<DateTime>, endDate: Option<DateTime>, categoryId: Option<Guid>): (r: Reply<seq<Expense>>)
    ensures r.status == Status401Unauthorized <==> GetUserId(claims, parse) == EmptyGuid
    ensures r.Success? <==> r.status == Status200OK
    ensures r.Success? ==>
              forall e :: e in r.value ==> e.userId == GetUserId(claims, parse) && !e.isDeleted
    ensures r.Success? ==> r.value == ListExpenses(expenses, GetUserId(claims, parse), startDate, endDate, categoryId)
  {
    var userId := GetUserId(claims, parse);
    if userId == EmptyGuid then Failure(Status401Unauthorized, "User not authenticated.")
    else Success(Status200OK, ListExpenses(expenses, userId, startDate, endDate, categoryId))
  }

  /** GetExpense: the caller-id check is disabled here, so an empty id only
      finds expenses owned by `Guid.Empty`. */
  function GetExpenseReply(claims: seq<Claim>, parse: string -> Option<Guid>, expenses: seq<Expense>, id: Guid): (r: Reply<Expense>)
    ensures r.Success? <==>
              exists e :: e in expenses && e.expenseId == id && IsVisibleTo(e, GetUserId(claims, parse))
    ensures r.Success? ==> r.status == Status200OK && r.value in expenses && r.value.expenseId == id
                           && IsVisibleTo(r.value, GetUserId(claims, parse))
    ensures r.Failure? ==> r.status == Status404NotFound
  {
    match GetExpenseById(expenses, id, GetUserId(claims, parse))
    case Some(e) => Success(Status200OK, e)
    case None => Failure(Status404NotFound, "Expense not found or does not belong to user.")
  }

  // ---------------------------------------------------------------- GetSummary

  datatype CategorySummary = CategorySummary(categoryId: Guid, total: Money, count: nat)

  datatype Summary = Summary(totalSpending: Money, averageTransaction: real, byCategory: seq<CategorySummary>)

  /** The expenses a summary is made of: the caller's listing, then the
      bounds that are given. */
  function SummaryExpenses(expenses: seq<Expense>, userId: Guid, startDate: Option<DateTime>, endDate: Option<DateTime>): (r: seq<Expense>)
    ensures multiset(r) == multiset(Filter(expenses, CountedIn(userId, startDate, endDate)))
    ensures forall e :: e in r <==> e in expenses && CountedIn(userId, startDate, endDate)(e)
  {
    var listing := GetExpensesByUser(expenses, userId);
    var fromStart := if startDate.Some? then Filter(listing, DatedFrom(startDate.value)) else listing;
    var r := if endDate.Some? then Filter(fromStart, DatedUntil(endDate.value)) else fromStart;
    SummaryFilterIsTotalFilter(expenses, userId, startDate, endDate);
    SameMultisetSameMembers(r, Filter(expenses, CountedIn(userId, startDate, endDate)));
    r
  }

  lemma {:induction false} SummaryFilterIsTotalFilter(expenses: seq<Expense>, userId: Guid, startDate: Option<DateTime>, endDate: Option<DateTime>)
    ensures var listing := GetExpensesByUser(expenses, userId);
            var fromStart := if startDate.Some? then Filter(listing, DatedFrom(startDate.value)) else listing;
            var r := if endDate.Some? then Filter(fromStart, DatedUntil(endDate.value)) else fromStart;
            multiset(r) == multiset(Filter(expenses, CountedIn(userId, startDate, endDate)))
  {
    var listing := GetExpensesByUser(expenses, userId);
    var fromStart := if startDate.Some? then Filter(listing, DatedFrom(startDate.value)) else listing;
    var query := Filter(expenses, VisibleTo(userId));
    var query' := if startDate.Some? then Filter(query, DatedFrom(startDate.value)) else query;
    if startDate.Some? {
      FilterPermutation(listing, query, DatedFrom(startDate.value));
    }
    if endDate.Some? {
      FilterPermutation(fromStart, query', DatedUntil(endDate.value));
    }
    TotalSpendingFilter(expenses, userId, startDate, endDate);
  }

  /** `expenses.Average(e => e.Amount)`, or 0 for no expenses. */
  function Average(s: seq<Expense>): (r: real)
    ensures |s| == 0 ==> r == 0.0
    ensures |s| > 0 ==> r * (|s| as real) == Sum(s, Amount) as real
    ensures |s| > 0 ==> r == Sum(s, Amount) as real / |s| as real
  {
    if |s| == 0 then 0.0 else Sum(s, Amount) as real / |s| as real
  }

  function HasCategory(categoryId: Guid): CategorySummary -> bool {
    (g: CategorySummary) => g.categoryId == categoryId
  }

  /** One more expense of `amount` in group `g`. */
  function Bump(g: CategorySummary, amount: Money): CategorySummary {
    CategorySummary(g.categoryId, g.total + amount, g.count + 1)
  }

  /** Adds one expense to the groups: to its category's group, or as a new
      group at the end. */
  function Tally(groups: seq<CategorySummary>, e: Expense): (r: seq<CategorySummary>)
    ensures |r| == |groups| || r == groups + [CategorySummary(e.categoryId, e.amount, 1)]
  {
    match FirstIndex(groups, HasCategory(e.categoryId))
    case Some(i) => groups[i := Bump(groups[i], e.amount)]
    case None => groups + [CategorySummary(e.categoryId, e.amount, 1)]
  }

  /** `GroupBy(e => e.CategoryId)` with a total and a count per group; the
      groups appear in the order their keys first appear. */
  function GroupByCategory(s: seq<Expense>): (r: seq<CategorySummary>)
    ensures forall i, j :: 0 <= i < j < |r| ==> r[i].categoryId != r[j].categoryId
  {
    if s == [] then []
    else
      var groups := GroupByCategory(s[..|s| - 1]);
      var e := s[|s| - 1];
      var r := Tally(groups, e);
      assert FirstIndex(groups, HasCategory(e.categoryId)).None? ==>
               forall i :: 0 <= i < |groups| ==> groups[i].categoryId != e.categoryId by {
        if FirstIndex(groups, HasCategory(e.categoryId)).None? {
          forall i | 0 <= i < |groups| ensures groups[i].categoryId != e.categoryId {
            assert !HasCategory(e.categoryId)(groups[i]);
          }
        }
      }
      r
  }

  function Total(g: CategorySummary): int {
    g.total
  }

  function Count(g: CategorySummary): int {
    g.count
  }

  /** Group `g` holds exactly the expenses of `s` in its category: its total
      is their sum, its count their number, and it is not empty. */
  predicate EntryMatches(s: seq<Expense>, g: CategorySummary) {
    && g.total == Sum(Filter(s, InCategory(g.categoryId)), Amount)
    && g.count == |Filter(s, InCategory(g.categoryId))|
    && g.count >= 1
  }

  /** Every group matches its category, and every expense of `s` has a group. */
  predicate GroupsMatch(s: seq<Expense>, groups: seq<CategorySummary>) {
    && (forall i :: 0 <= i < |groups| ==> EntryMatches(s, groups[i]))
    && (forall e :: e in s ==> exists i :: 0 <= i < |groups| && groups[i].categoryId == e.categoryId)
  }

  predicate KeysDistinct(groups: seq<CategorySummary>) {
    forall i, j :: 0 <= i < j < |groups| ==> groups[i].categoryId != groups[j].categoryId
  }

  /** Appending `e` adds it to its own category and to no other. */
  lemma {:induction false} CategorySnoc(s: seq<Expense>, e: Expense, k: Guid)
    ensures var before := Filter(s, InCategory(k));
            var after := Filter(s + [e], InCategory(k));
            && Sum(after, Amount) == Sum(before, Amount) + (if e.categoryId == k then e.amount else 0)
            && |after| == |before| + (if e.categoryId == k then 1 else 0)
  {
    FilterAppend(s, [e], InCategory(k));
    assert [e][1..] == [];
    SumAppend(Filter(s, InCategory(k)), Filter([e], InCategory(k)), Amount);
  }

  lemma {:induction false} EntryUnchanged(s: seq<Expense>, e: Expense, g: CategorySummary)
    requires EntryMatches(s, g) && g.categoryId != e.categoryId
    ensures EntryMatches(s + [e], g)
  {
    CategorySnoc(s, e, g.categoryId);
  }

  lemma {:induction false} EntryBumped(s: seq<Expense>, e: Expense, g: CategorySummary)
    requires EntryMatches(s, g) && g.categoryId == e.categoryId
    ensures EntryMatches(s + [e], Bump(g, e.amount))
  {
    CategorySnoc(s, e, g.categoryId);
  }

  lemma {:induction false} EntryNew(s: seq<Expense>, e: Expense)
    requires forall x :: x in s ==> x.categoryId != e.categoryId
    ensures EntryMatches(s + [e], CategorySummary(e.categoryId, e.amount, 1))
  {
    CategorySnoc(s, e, e.categoryId);
    FilterNone(s, InCategory(e.categoryId));
  }

  /** Tallying into an existing group `j` bumps that group and keeps the others. */
  lemma {:induction false} TallyEntryFound(s: seq<Expense>, groups: seq<CategorySummary>, e: Expense, i: nat, j: nat)
    requires i < |groups| && j < |groups| && groups[j].categoryId == e.categoryId
    requires KeysDistinct(groups) && EntryMatches(s, groups[i])
    ensures EntryMatches(s + [e], groups[j := Bump(groups[j], e.amount)][i])
  {
    var g := groups[i];
    if i != j {
      if i < j {
        assert g.categoryId != groups[j].categoryId;
      } else {
        assert groups[j].categoryId != g.categoryId;
      }
      EntryUnchanged(s, e, g);
    } else {
      EntryBumped(s, e, g);
    }
  }

  /** Tallying an expense of a new category keeps the old groups and appends its own. */
  lemma {:induction false} TallyEntryAbsent(s: seq<Expense>, groups: seq<CategorySummary>, e: Expense, i: nat)
    requires forall k :: 0 <= k < |groups| ==> groups[k].categoryId != e.categoryId
    requires GroupsMatch(s, groups)
    requires i <= |groups|
    ensures EntryMatches(s + [e], (groups + [CategorySummary(e.categoryId, e.amount, 1)])[i])
  {
    if i < |groups| {
      EntryUnchanged(s, e, groups[i]);
    } else {
      forall x | x in s ensures x.categoryId != e.categoryId {
        var j :| 0 <= j < |groups| && groups[j].categoryId == x.categoryId;
      }
      EntryNew(s, e);
    }
  }

  lemma TallyFound(groups: seq<CategorySummary>, e: Expense, j: nat)
    requires FirstIndex(groups, HasCategory(e.categoryId)) == Some(j)
    ensures j < |groups| && groups[j].categoryId == e.categoryId
    ensures Tally(groups, e) == groups[j := Bump(groups[j], e.amount)]
  {
    var f := FirstIndex(groups, HasCategory(e.categoryId));
    assert f.Some? && f.value == j;
    assert HasCategory(e.categoryId)(groups[j]);
  }

  lemma TallyAbsent(groups: seq<CategorySummary>, e: Expense)
    requires FirstIndex(groups, HasCategory(e.categoryId)).None?
    ensures forall k :: 0 <= k < |groups| ==> groups[k].categoryId != e.categoryId
    ensures Tally(groups, e) == groups + [CategorySummary(e.categoryId, e.amount, 1)]
  {
    forall k | 0 <= k < |groups| ensures groups[k].categoryId != e.categoryId {
      assert !HasCategory(e.categoryId)(groups[k]);
    }
  }

  /** One group after tallying `e`. */
  lemma {:induction false} TallyEntry(s: seq<Expense>, groups: seq<CategorySummary>, e: Expense, i: nat)
    requires GroupsMatch(s, groups) && KeysDistinct(groups)
    requires i < |Tally(groups, e)|
    ensures EntryMatches(s + [e], Tally(groups, e)[i])
  {
    match FirstIndex(groups, HasCategory(e.categoryId))
    case Some(j) =>
      TallyFound(groups, e, j);
      TallyEntryFound(s, groups, e, i, j);
    case None =>
      TallyAbsent(groups, e);
      TallyEntryAbsent(s, groups, e, i);
  }

  /** After tallying `e`, every expense of `s + [e]` still has a group. */
  lemma {:induction false} TallyCovers(s: seq<Expense>, groups: seq<CategorySummary>, e: Expense)
    requires forall x :: x in s ==> exists i :: 0 <= i < |groups| && groups[i].categoryId == x.categoryId
    ensures var r := Tally(groups, e);
            forall x :: x in s + [e] ==> exists i :: 0 <= i < |r| && r[i].categoryId == x.categoryId
  {
    var r := Tally(groups, e);
    var bumped: nat;
    match FirstIndex(groups, HasCategory(e.categoryId)) {
      case Some(j) =>
        bumped := j;
      case None =>
        bumped := |groups|;
    }
    assert forall i :: 0 <= i < |groups| ==> r[i].categoryId == groups[i].categoryId;
    assert r[bumped].categoryId == e.categoryId;
    forall x | x in s + [e] ensures exists i :: 0 <= i < |r| && r[i].categoryId == x.categoryId {
      if x in s {
        var j :| 0 <= j < |groups| && groups[j].categoryId == x.categoryId;
        assert r[j].categoryId == x.categoryId;
      } else {
        assert r[bumped].categoryId == x.categoryId;
      }
    }
  }

  lemma {:induction false} TallyKeepsMatch(s: seq<Expense>, groups: seq<CategorySummary>, e: Expense)
    requires GroupsMatch(s, groups) && KeysDistinct(groups)
    ensures GroupsMatch(s + [e], Tally(groups, e))
  {
    var r := Tally(groups, e);
    forall i | 0 <= i < |r| ensures EntryMatches(s + [e], r[i]) {
      TallyEntry(s, groups, e, i);
    }
    TallyCovers(s, groups, e);
  }

  /** Every group holds exactly the expenses of its category: its total is
      their sum, its count their number; and every expense has a group. */
  lemma {:induction false} GroupsMatchCategories(s: seq<Expense>)
    ensures GroupsMatch(s, GroupByCategory(s))
  {
    if s != [] {
      var init := s[..|s| - 1];
      assert s == init + [s[|s| - 1]];
      GroupsMatchCategories(init);
      TallyKeepsMatch(init, GroupByCategory(init), s[|s| - 1]);
    }
  }

  /** The group totals add up to the total of the expenses, and the counts
      to their number. */
  lemma {:induction false} GroupsAddUp(s: seq<Expense>)
    ensures Sum(GroupByCategory(s), Total) == Sum(s, Amount)
    ensures Sum(GroupByCategory(s), Count) == |s|
  {
    if s != [] {
      var init := s[..|s| - 1];
      var e := s[|s| - 1];
      assert s == init + [e];
      GroupsAddUp(init);
      SumAppend(init, [e], Amount);
      var groups := GroupByCategory(init);
      var one := CategorySummary(e.categoryId, e.amount, 1);
      match FirstIndex(groups, HasCategory(e.categoryId))
      case Some(i) =>
        var g := Bump(groups[i], e.amount);
        SumUpdate(groups, i, g, Total);
        SumUpdate(groups, i, g, Count);
      case None =>
        SumAppend(groups, [one], Total);
        SumAppend(groups, [one], Count);
    }
  }

  /** GetSummary, without the caller-id check (it is disabled there). */
  function GetSummary(expenses: seq<Expense>, userId: Guid, startDate: Option<DateTime>, endDate: Option<DateTime>): (r: Summary)
    ensures r.totalSpending == GetTotalSpending(expenses, userId, startDate, endDate)
    ensures Sum(r.byCategory, Total) == r.totalSpending
    ensures Sum(r.byCategory, Count) == |Filter(expenses, CountedIn(userId, startDate, endDate))|
    ensures var n := |SummaryExpenses(expenses, userId, startDate, endDate)|;
            && n == |Filter(expenses, CountedIn(userId, startDate, endDate))|
            && (n == 0 ==> r.averageTransaction == 0.0)
            && (n > 0 ==> r.averageTransaction == r.totalSpending as real / n as real)
    ensures KeysDistinct(r.byCategory)
    ensures GroupsMatch(SummaryExpenses(expenses, userId, startDate, endDate), r.byCategory)
  {
    var s := SummaryExpenses(expenses, userId, startDate, endDate);
    SumPermutation(s, Filter(expenses, CountedIn(userId, startDate, endDate)), Amount);
    SameMultisetSameMembers(s, Filter(expenses, CountedIn(userId, startDate, endDate)));
    GroupsAddUp(s);
    GroupsMatchCategories(s);
    Summary(Sum(s, Amount), Average(s), GroupByCategory(s))
  }

  // ---------------------------------------------------------------- statuses

  /** The catch blocks of CreateExpense. */
  function CreateFailureStatus(ex: ExceptionKind): (r: int)
    ensures r == Status400BadRequest <==> IsArgumentException(ex)
    ensures r == Status500InternalServerError <==> !IsArgumentException(ex)
  {
    if IsArgumentException(ex) then Status400BadRequest else Status500InternalServerError
  }

  /** The catch blocks of UpdateExpense: a missing expense is reported as 401. */
  function UpdateFailureStatus(ex: ExceptionKind): (r: int)
    ensures r == Status400BadRequest <==> IsArgumentException(ex)
    ensures r == Status401Unauthorized <==> ex.KeyNotFoundException?
    ensures r == Status500InternalServerError <==> !IsArgumentException(ex) && !ex.KeyNotFoundException?
  {
    if IsArgumentException(ex) then Status400BadRequest
    else if ex.KeyNotFoundException? then Status401Unauthorized
    else Status500InternalServerError
  }

  /** The catch blocks of DeleteExpense: a missing expense is reported as 404. */
  function DeleteFailureStatus(ex: ExceptionKind): (r: int)
    ensures r == Status404NotFound <==> ex.KeyNotFoundException?
    ensures r == Status500InternalServerError <==> !ex.KeyNotFoundException?
  {
    if ex.KeyNotFoundException? then Status404NotFound else Status500InternalServerError
  }

  /** Compared with the global handler: delete and create agree with it on
      what they catch, update reports a missing expense as 401 where the
      handler would answer 404. */
  lemma StatusesAgainstHandler(ex: ExceptionKind)
    ensures ex.KeyNotFoundException? ==> DeleteFailureStatus(ex) == StatusFor(ex)
    ensures ex.KeyNotFoundException? ==> UpdateFailureStatus(ex) != StatusFor(ex)
    ensures IsArgumentException(ex) ==>
              CreateFailureStatus(ex) == StatusFor(ex) && UpdateFailureStatus(ex) == StatusFor(ex)
  {
  }

  /** The controller over the expense service. */
  class ExpensesController {
    const service: ExpenseService

    constructor (service: ExpenseService)
      ensures this.service == service
    {
      this.service := service;
    }

    /** CreateExpense: `ModelState`, then the amount and date checks, then the
        service; the caller-id check is disabled here. */
    method CreateExpense(claims: seq<Claim>, parse: string -> Option<Guid>, dto: CreateExpenseDto, newId: Guid, now: DateTime)
      returns (reply: Reply<Expense>)
      requires service.context.Valid()
      requires forall e :: e in service.context.expenses ==> e.expenseId != newId
      modifies service.context
      ensures service.context.Valid()
      ensures service.context.users == old(service.context.users)
      ensures service.context.categories == old(service.context.categories)
      ensures var userId := GetUserId(claims, parse);
              var accepted := ExpenseRules.CreateExpenseModelValid(dto, now)
                              && CategoryStore.GetCategoryById(old(service.context.categories), dto.categoryId, userId).Some?;
              && (accepted <==> reply.status == Status201Created)
              && (!accepted ==> reply.status == Status400BadRequest && service.context.expenses == old(service.context.expenses))
              && (accepted ==>
                    reply == Success(Status201Created, Expense(newId, userId, dto.categoryId, dto.amount, dto.description, dto.date, now, false))
                    && service.context.expenses == old(service.context.expenses) + [reply.value])
    {
      var userId := GetUserId(claims, parse);
      if !ExpenseRules.CreateExpenseModelValid(dto, now) {
        return Failure(Status400BadRequest, "One or more validation errors occurred.");
      }
      if dto.amount <= 0 {
        return Failure(Status400BadRequest, "Amount must be greater than zero.");
      }
      if dto.date > now {
        return Failure(Status400BadRequest, "Date cannot be in the future.");
      }
      var result := service.CreateExpense(userId, dto, newId, now);
      match result
      case Ok(expense) =>
        reply := Success(Status201Created, expense);
      case Thrown(ex) =>
        reply := Failure(CreateFailureStatus(ex), "Category does not exist or does not belong to the user.");
    }

    /** UpdateExpense: `ModelState`, then the caller id, then the service.
        `[ApiController]` answers 400 for an invalid model before the action
        runs, so the model check comes before the id check here, and the
        action's own `ModelState` test never fires. */
    method UpdateExpense(claims: seq<Claim>, parse: string -> Option<Guid>, id: Guid, dto: UpdateExpenseDto, now: DateTime)
      returns (reply: Reply<()>)
      requires service.context.Valid()
      modifies service.context
      ensures service.context.Valid()
      ensures service.context.users == old(service.context.users)
      ensures service.context.categories == old(service.context.categories)
      ensures var userId := GetUserId(claims, parse);
              var found := FindExpense(old(service.context.expenses), id, userId);
              var rejection := UpdateRejection(old(service.context.categories), dto, userId);
              && (!ExpenseRules.UpdateExpenseModelValid(dto, now) ==> reply.status == Status400BadRequest)
              && (ExpenseRules.UpdateExpenseModelValid(dto, now) && userId == EmptyGuid ==> reply.status == Status401Unauthorized)
              && (ExpenseRules.UpdateExpenseModelValid(dto, now) && userId != EmptyGuid ==>
                    && (found.None? ==> reply.status == Status401Unauthorized)
                    && (found.Some? && rejection.Some? ==> reply.status == Status400BadRequest)
                    && (found.Some? && rejection.None? ==>
                          reply.status == Status204NoContent
                          && service.context.expenses == old(service.context.expenses)[found.value :=
                               ApplyExpenseUpdate(old(service.context.expenses)[found.value], dto)]))
              && (reply.status != Status204NoContent ==> service.context.expenses == old(service.context.expenses))
    {
      if !ExpenseRules.UpdateExpenseModelValid(dto, now) {
        return Failure(Status400BadRequest, "One or more validation errors occurred.");
      }
      var userId := GetUserId(claims, parse);
      if userId == EmptyGuid {
        return Failure(Status401Unauthorized, "User not authenticated.");
      }
      var outcome := service.UpdateExpense(id, dto, userId);
      match outcome
      case Done =>
        reply := Success(Status204NoContent, ());
      case Failed(ex) =>
        reply := Failure(UpdateFailureStatus(ex), "Expense not found or does not belong to user.");
    }

    /** DeleteExpense: the caller id, then the service. */
    method DeleteExpense(claims: seq<Claim>, parse: string -> Option<Guid>, id: Guid)
      returns (reply: Reply<()>)
      requires service.context.Valid()
      modifies service.context
      ensures service.context.Valid()
      ensures service.context.users == old(service.context.users)
      ensures service.context.categories == old(service.context.categories)
      ensures var userId := GetUserId(claims, parse);
              var found := FindExpense(old(service.context.expenses), id, userId);
              && (userId == EmptyGuid ==> reply.status == Status401Unauthorized)
              && (userId != EmptyGuid && found.None? ==> reply.status == Status404NotFound)
              && (userId != EmptyGuid && found.Some? ==>
                    reply.status == Status204NoContent
                    && service.context.expenses == old(service.context.expenses)[found.value :=
                         old(service.context.expenses)[found.value].(isDeleted := true)])
              && (reply.status != Status204NoContent ==> service.context.expenses == old(service.context.expenses))
    {
      var userId := GetUserId(claims, parse);
      if userId == EmptyGuid {
        return Failure(Status401Unauthorized, "User not authenticated.");
      }
      var outcome := service.DeleteExpense(id, userId);
      match outcome
      case Done =>
        reply := Success(Status204NoContent, ());
      case Failed(ex) =>
        reply := Failure(DeleteFailureStatus(ex), "Expense not found or does not belong to user.");
    }
  }
}
