/** ExpenseService: per-user expenses with soft delete. Every query and every
    write is scoped by the owner and by `!IsDeleted`. The list, get and total
    queries are functions of the Expenses table; create, update and delete
    are methods that change it in place. */
module ExpenseStore {
  import opened Common
  import opened Sequences
  import opened Models
  import CategoryStore

  /** Owned by `userId` and not soft-deleted. */
  predicate IsVisibleTo(e: Expense, userId: Guid) {
    e.userId == userId && !e.isDeleted
  }

  function VisibleTo(userId: Guid): Expense -> bool {
    (e: Expense) => IsVisibleTo(e, userId)
  }

  function VisibleBetween(userId: Guid, start: DateTime, end: DateTime): Expense -> bool {
    (e: Expense) => IsVisibleTo(e, userId) && start <= e.date <= end
  }

  function DatedFrom(start: DateTime): Expense -> bool {
    (e: Expense) => start <= e.date
  }

  function DatedUntil(end: DateTime): Expense -> bool {
    (e: Expense) => e.date <= end
  }

  /** The date lies within the optional, inclusive bounds. */
  predicate WithinBounds(date: DateTime, start: Option<DateTime>, end: Option<DateTime>) {
    (start.None? || start.value <= date) && (end.None? || date <= end.value)
  }

  /** The reference filter of a total: the caller's live expenses within the bounds. */
  function CountedIn(userId: Guid, start: Option<DateTime>, end: Option<DateTime>): Expense -> bool {
    (e: Expense) => IsVisibleTo(e, userId) && WithinBounds(e.date, start, end)
  }

  function Amount(e: Expense): int {
    e.amount
  }

  /** `OrderByDescending(e => e.Date)`. */
  predicate NotEarlier(a: Expense, b: Expense) {
    a.date >= b.date
  }

  lemma DateOrderIsTotalPreorder()
    ensures TotalPreorder(NotEarlier)
  {
  }

  /** GetExpensesByUserAsync: exactly the caller's live expenses, latest first. */
  function GetExpensesByUser(expenses: seq<Expense>, userId: Guid): (r: seq<Expense>)
    ensures forall e :: e in r <==> e in expenses && IsVisibleTo(e, userId)
    ensures multiset(r) == multiset(Filter(expenses, VisibleTo(userId)))
    ensures forall i, j :: 0 <= i < j < |r| ==> r[i].date >= r[j].date
  {
    DateOrderIsTotalPreorder();
    var r := SortBy(Filter(expenses, VisibleTo(userId)), NotEarlier);
    assert SortedBy(r, NotEarlier);
    r
  }

  /** GetExpensesByDateRangeAsync: the caller's live expenses dated from
      `start` to `end`, both included, latest first. */
  function GetExpensesByDateRange(expenses: seq<Expense>, userId: Guid, start: DateTime, end: DateTime): (r: seq<Expense>)
    ensures forall e :: e in r <==> e in expenses && IsVisibleTo(e, userId) && start <= e.date <= end
    ensures multiset(r) == multiset(Filter(expenses, VisibleBetween(userId, start, end)))
    ensures forall i, j :: 0 <= i < j < |r| ==> r[i].date >= r[j].date
  {
    DateOrderIsTotalPreorder();
    var r := SortBy(Filter(expenses, VisibleBetween(userId, start, end)), NotEarlier);
    assert SortedBy(r, NotEarlier);
    r
  }

  function IsLiveWithId(expenseId: Guid, userId: Guid): Expense -> bool {
    (e: Expense) => e.expenseId == expenseId && IsVisibleTo(e, userId)
  }

  /** The position of the row `FirstOrDefaultAsync(e => e.ExpenseId == expenseId
      && e.UserId == userId && !e.IsDeleted)` finds. */
  function FindExpense(expenses: seq<Expense>, expenseId: Guid, userId: Guid): (r: Option<nat>)
    ensures r.Some? ==>
              r.value < |expenses| && expenses[r.value].expenseId == expenseId
              && IsVisibleTo(expenses[r.value], userId)
    ensures r.None? <==> forall e :: e in expenses ==> !(e.expenseId == expenseId && IsVisibleTo(e, userId))
  {
    var r := FirstIndex(expenses, IsLiveWithId(expenseId, userId));
    assert r.Some? ==> IsLiveWithId(expenseId, userId)(expenses[r.value]);
    r
  }

  /** GetExpenseByIdAsync: present exactly when key, owner and `!IsDeleted` all match. */
  function GetExpenseById(expenses: seq<Expense>, expenseId: Guid, userId: Guid): (r: Option<Expense>)
    ensures r.Some? <==> exists e :: e in expenses && e.expenseId == expenseId && IsVisibleTo(e, userId)
    ensures r.Some? ==>
              r.value in expenses && r.value.expenseId == expenseId
              && r.value.userId == userId && !r.value.isDeleted
  {
    match FindExpense(expenses, expenseId, userId)
    case Some(i) => Some(expenses[i])
    case None => None
  }

  /** Another user's key yields absence: in a table whose keys are unique,
      the row with key `expenseId` is found for its owner and for no one else. */
  lemma {:induction false} GetExpenseByIdIsOwnerScoped(expenses: seq<Expense>, k: nat, userId: Guid)
    requires ExpenseIdsUnique(expenses) && k < |expenses|
    requires userId != expenses[k].userId
    ensures GetExpenseById(expenses, expenses[k].expenseId, userId).None?
  {
    var id := expenses[k].expenseId;
    forall e | e in expenses ensures !(e.expenseId == id && IsVisibleTo(e, userId)) {
      var j :| 0 <= j < |expenses| && expenses[j] == e;
      if j != k {
        assert expenses[j].expenseId != id;
      }
    }
  }

  /** GetTotalSpendingAsync: the `Where` clauses are added one by one, the
      bounds only when they are given. */
  function GetTotalSpending(expenses: seq<Expense>, userId: Guid, startDate: Option<DateTime>, endDate: Option<DateTime>): (r: Money)
    ensures r == Sum(Filter(expenses, CountedIn(userId, startDate, endDate)), Amount)
  {
    var query := Filter(expenses, VisibleTo(userId));
    var query' := if startDate.Some? then Filter(query, DatedFrom(startDate.value)) else query;
    var query'' := if endDate.Some? then Filter(query', DatedUntil(endDate.value)) else query';
    TotalSpendingFilter(expenses, userId, startDate, endDate);
    Sum(query'', Amount)
  }

  lemma {:induction false} TotalSpendingFilter(expenses: seq<Expense>, userId: Guid, startDate: Option<DateTime>, endDate: Option<DateTime>)
    ensures var query := Filter(expenses, VisibleTo(userId));
            var query' := if startDate.Some? then Filter(query, DatedFrom(startDate.value)) else query;
            var query'' := if endDate.Some? then Filter(query', DatedUntil(endDate.value)) else query';
            query'' == Filter(expenses, CountedIn(userId, startDate, endDate))
  {
    var query := Filter(expenses, VisibleTo(userId));
    var p: Expense -> bool := VisibleTo(userId);
    if startDate.Some? {
      FilterFilter(expenses, p, DatedFrom(startDate.value));
      p := Both(p, DatedFrom(startDate.value));
    }
    if endDate.Some? {
      var query' := if startDate.Some? then Filter(query, DatedFrom(startDate.value)) else query;
      assert query' == Filter(expenses, p);
      FilterFilter(expenses, p, DatedUntil(endDate.value));
      p := Both(p, DatedUntil(endDate.value));
    }
    FilterSame(expenses, p, CountedIn(userId, startDate, endDate));
  }

  /** With no bounds the total is the sum of the caller's listing. */
  lemma TotalWithoutBoundsIsListingSum(expenses: seq<Expense>, userId: Guid)
    ensures GetTotalSpending(expenses, userId, None, None) == Sum(GetExpensesByUser(expenses, userId), Amount)
  {
    FilterSame(expenses, VisibleTo(userId), CountedIn(userId, None, None));
    SumPermutation(GetExpensesByUser(expenses, userId), Filter(expenses, VisibleTo(userId)), Amount);
  }

  /** The range listing with the widest bounds lists what the plain listing lists. */
  lemma FullRangeIsListing(expenses: seq<Expense>, userId: Guid)
    ensures multiset(GetExpensesByDateRange(expenses, userId, MinValue, MaxValue))
            == multiset(GetExpensesByUser(expenses, userId))
  {
    FilterSame(expenses, VisibleBetween(userId, MinValue, MaxValue), VisibleTo(userId));
  }

  /** With both bounds the total is the sum of the range listing. */
  lemma TotalWithBoundsIsRangeSum(expenses: seq<Expense>, userId: Guid, start: DateTime, end: DateTime)
    ensures GetTotalSpending(expenses, userId, Some(start), Some(end))
            == Sum(GetExpensesByDateRange(expenses, userId, start, end), Amount)
  {
    FilterSame(expenses, VisibleBetween(userId, start, end), CountedIn(userId, Some(start), Some(end)));
    SumPermutation(GetExpensesByDateRange(expenses, userId, start, end),
                   Filter(expenses, VisibleBetween(userId, start, end)), Amount);
  }

  /** Updating an expense twice with the same request is updating it once. */
  lemma ApplyExpenseUpdateIdempotent(e: Expense, dto: UpdateExpenseDto)
    ensures ApplyExpenseUpdate(ApplyExpenseUpdate(e, dto), dto) == ApplyExpenseUpdate(e, dto)
  {
  }

  /** The partial update of UpdateExpenseAsync: a supplied field replaces
      the stored one; `Some("")` does replace the description. */
  function ApplyExpenseUpdate(e: Expense, dto: UpdateExpenseDto): (r: Expense)
    ensures r.expenseId == e.expenseId && r.userId == e.userId
    ensures r.createdDate == e.createdDate && r.isDeleted == e.isDeleted
    ensures dto.categoryId.None? ==> r.categoryId == e.categoryId
    ensures dto.categoryId.Some? ==> r.categoryId == dto.categoryId.value
    ensures dto.amount.None? ==> r.amount == e.amount
    ensures dto.amount.Some? ==> r.amount == dto.amount.value
    ensures dto.description.None? ==> r.description == e.description
    ensures dto.description.Some? ==> r.description == dto.description
    ensures dto.date.None? ==> r.date == e.date
    ensures dto.date.Some? ==> r.date == dto.date.value
  {
    var e1 := if dto.categoryId.Some? then e.(categoryId := dto.categoryId.value) else e;
    var e2 := if dto.amount.Some? then e1.(amount := dto.amount.value) else e1;
    var e3 := if dto.description.Some? then e2.(description := dto.description) else e2;
    if dto.date.Some? then e3.(date := dto.date.value) else e3
  }

  /** The checks of UpdateExpenseAsync after the row was found, in source order. */
  function UpdateRejection(categories: seq<Category>, dto: UpdateExpenseDto, userId: Guid): (r: Option<ExceptionKind>)
    ensures r.Some? <==>
              (dto.amount.Some? && dto.amount.value <= 0)
              || (dto.categoryId.Some? && CategoryStore.GetCategoryById(categories, dto.categoryId.value, userId).None?)
    ensures r.Some? ==> r.value == ArgumentException
  {
    if dto.amount.Some? && dto.amount.value <= 0 then Some(ArgumentException)
    else if dto.categoryId.Some? && CategoryStore.GetCategoryById(categories, dto.categoryId.value, userId).None? then
      Some(ArgumentException)
    else None
  }

  lemma {:induction false} ReplaceKeepsIdsUnique(es: seq<Expense>, k: nat, e: Expense)
    requires ExpenseIdsUnique(es) && k < |es| && e.expenseId == es[k].expenseId
    ensures ExpenseIdsUnique(es[k := e])
  {
  }

  lemma {:induction false} ReplaceKeepsRefsOwned(es: seq<Expense>, cs: seq<Category>, k: nat, e: Expense)
    requires CategoryRefsOwned(es, cs) && k < |es| && OwnsCategory(cs, e.userId, e.categoryId)
    ensures CategoryRefsOwned(es[k := e], cs)
  {
    forall x | x in es[k := e] ensures OwnsCategory(cs, x.userId, x.categoryId) {
      var j :| 0 <= j < |es[k := e]| && es[k := e][j] == x;
      if j != k {
        assert x == es[j] && es[j] in es;
      }
    }
  }

  class ExpenseService {
    const context: AppDb

    constructor (context: AppDb)
      ensures this.context == context
    {
      this.context := context;
    }

    /** CreateExpenseAsync; `newId` and `now` stand for `Guid.NewGuid()` and
        `DateTime.UtcNow`. */
    method CreateExpense(userId: Guid, dto: CreateExpenseDto, newId: Guid, now: DateTime) returns (r: Result<Expense>)
      requires context.Valid()
      requires forall e :: e in context.expenses ==> e.expenseId != newId
      modifies context
      ensures context.Valid()
      ensures context.users == old(context.users) && context.categories == old(context.categories)
      ensures r.Ok? <==> dto.amount > 0 && CategoryStore.GetCategoryById(context.categories, dto.categoryId, userId).Some?
      ensures r.Thrown? ==> r.exception == ArgumentException && context.expenses == old(context.expenses)
      ensures r.Ok? ==>
                && r.value == Expense(newId, userId, dto.categoryId, dto.amount, dto.description, dto.date, now, false)
                && context.expenses == old(context.expenses) + [r.value]
    {
      if dto.amount <= 0 {
        return Thrown(ArgumentException);
      }
      var category := CategoryStore.GetCategoryById(context.categories, dto.categoryId, userId);
      if category.None? {
        return Thrown(ArgumentException);
      }
      var expense := Expense(newId, userId, dto.categoryId, dto.amount, dto.description, dto.date, now, false);
      assert category.value in context.categories;
      context.expenses := context.expenses + [expense];
      r := Ok(expense);
    }

    /** UpdateExpenseAsync: every check precedes the first assignment, so a
        failed update changes nothing. */
    method UpdateExpense(expenseId: Guid, dto: UpdateExpenseDto, userId: Guid) returns (r: Outcome)
      requires context.Valid()
      modifies context
      ensures context.Valid()
      ensures context.users == old(context.users) && context.categories == old(context.categories)
      ensures var found := FindExpense(old(context.expenses), expenseId, userId);
        && (found.None? ==> r == Failed(KeyNotFoundException))
        && (found.Some? && UpdateRejection(context.categories, dto, userId).Some? ==>
              r == Failed(UpdateRejection(context.categories, dto, userId).value))
        && (r.Failed? ==> context.expenses == old(context.expenses))
        && (r.Done? <==> found.Some? && UpdateRejection(context.categories, dto, userId).None?)
        && (r.Done? ==>
              context.expenses ==
              old(context.expenses)[found.value := ApplyExpenseUpdate(old(context.expenses)[found.value], dto)])
    {
      var found := FindExpense(context.expenses, expenseId, userId);
      if found.None? {
        return Failed(KeyNotFoundException);
      }
      var k := found.value;
      if dto.amount.Some? && dto.amount.value <= 0 {
        return Failed(ArgumentException);
      }
      var expense := context.expenses[k];
      if dto.categoryId.Some? {
        var category := CategoryStore.GetCategoryById(context.categories, dto.categoryId.value, userId);
        if category.None? {
          return Failed(ArgumentException);
        }
        assert category.value in context.categories;
        expense := expense.(categoryId := dto.categoryId.value);
      }
      if dto.amount.Some? {
        expense := expense.(amount := dto.amount.value);
      }
      if dto.description.Some? {
        expense := expense.(description := dto.description);
      }
      if dto.date.Some? {
        expense := expense.(date := dto.date.value);
      }
      assert expense == ApplyExpenseUpdate(context.expenses[k], dto);
      assert OwnsCategory(context.categories, expense.userId, expense.categoryId) by {
        if dto.categoryId.None? {
          assert context.expenses[k] in context.expenses;
        }
      }
      ReplaceKeepsIdsUnique(context.expenses, k, expense);
      ReplaceKeepsRefsOwned(context.expenses, context.categories, k, expense);
      context.expenses := context.expenses[k := expense];
      r := Done;
    }

    /** DeleteExpenseAsync: sets the flag of the caller's live row; a
        missing, foreign or already deleted row is an error, not a no-op. */
    method DeleteExpense(expenseId: Guid, userId: Guid) returns (r: Outcome)
      requires context.Valid()
      modifies context
      ensures context.Valid()
      ensures context.users == old(context.users) && context.categories == old(context.categories)
      ensures var found := FindExpense(old(context.expenses), expenseId, userId);
        && (found.None? <==> r == Failed(KeyNotFoundException))
        && (found.None? ==> context.expenses == old(context.expenses))
        && (found.Some? ==>
              r == Done && context.expenses ==
              old(context.expenses)[found.value := old(context.expenses)[found.value].(isDeleted := true)])
    {
      var found := FindExpense(context.expenses, expenseId, userId);
      if found.None? {
        return Failed(KeyNotFoundException);
      }
      var k := found.value;
      var deleted := context.expenses[k].(isDeleted := true);
      assert OwnsCategory(context.categories, deleted.userId, deleted.categoryId) by {
        assert context.expenses[k] in context.expenses;
      }
      ReplaceKeepsIdsUnique(context.expenses, k, deleted);
      ReplaceKeepsRefsOwned(context.expenses, context.categories, k, deleted);
      context.expenses := context.expenses[k := deleted];
      r := Done;
    }
  }

  /** Deleting twice fails the second time: after a delete the row is no
      longer found. */
  lemma {:induction false} DeletedIsNotFoundAgain(expenses: seq<Expense>, expenseId: Guid, userId: Guid)
    requires ExpenseIdsUnique(expenses)
    requires FindExpense(expenses, expenseId, userId).Some?
    ensures var k := FindExpense(expenses, expenseId, userId).value;
            FindExpense(expenses[k := expenses[k].(isDeleted := true)], expenseId, userId).None?
  {
    var k := FindExpense(expenses, expenseId, userId).value;
    var after := expenses[k := expenses[k].(isDeleted := true)];
    forall e | e in after ensures !(e.expenseId == expenseId && IsVisibleTo(e, userId)) {
      var j :| 0 <= j < |after| && after[j] == e;
      if j != k {
        assert expenses[j].expenseId != expenses[k].expenseId;
      }
    }
  }
}
