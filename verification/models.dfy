/** The persisted records (User, Category, Expense), the request DTOs the
    services take, and the in-memory database that stands for the EF Core
    context, with the invariants the services keep on it. */
module Models {
  import opened Common

  /** A row of the Expenses table; the navigation properties become the
      `userId` and `categoryId` keys. */
  datatype Expense = Expense(
    expenseId: Guid,
    userId: Guid,
    categoryId: Guid,
    amount: Money,
    description: Option<string>,
    date: DateTime,
    createdDate: DateTime,
    isDeleted: bool)

  /** A row of the Categories table. */
  datatype Category = Category(
    categoryId: Guid,
    userId: Guid,
    name: string,
    color: string,
    createdDate: DateTime,
    isDeleted: bool)

  /** A row of the Users table. */
  datatype User = User(
    userId: Guid,
    email: string,
    passwordHash: string,
    createdDate: DateTime,
    lastLoginDate: Option<DateTime>,
    isActive: bool)

  datatype CreateExpenseDto = CreateExpenseDto(
    categoryId: Guid, amount: Money, description: Option<string>, date: DateTime)

  /** Every field is optional: `None` leaves the stored value as it is. */
  datatype UpdateExpenseDto = UpdateExpenseDto(
    categoryId: Option<Guid>, amount: Option<Money>, description: Option<string>, date: Option<DateTime>)

  datatype CreateCategoryDto = CreateCategoryDto(name: string, color: string)

  datatype UpdateCategoryDto = UpdateCategoryDto(name: Option<string>, color: Option<string>)

  // ---------------------------------------------------------------- table invariants

  /** Primary keys. */
  predicate ExpenseIdsUnique(es: seq<Expense>) {
    forall i, j :: 0 <= i < j < |es| ==> es[i].expenseId != es[j].expenseId
  }

  predicate CategoryIdsUnique(cs: seq<Category>) {
    forall i, j :: 0 <= i < j < |cs| ==> cs[i].categoryId != cs[j].categoryId
  }

  predicate UserIdsUnique(us: seq<User>) {
    forall i, j :: 0 <= i < j < |us| ==> us[i].userId != us[j].userId
  }

  /** No user has two live categories whose names differ only in case. */
  predicate LiveNamesDistinct(cs: seq<Category>) {
    forall i, j :: 0 <= i < j < |cs| && cs[i].userId == cs[j].userId && !cs[i].isDeleted && !cs[j].isDeleted
      ==> ToLower(cs[i].name) != ToLower(cs[j].name)
  }

  /** No two users have e-mail addresses that differ only in case. */
  predicate EmailsDistinct(us: seq<User>) {
    forall i, j :: 0 <= i < j < |us| ==> ToLower(us[i].email) != ToLower(us[j].email)
  }

  /** `userId` owns a category with key `categoryId`, live or soft-deleted. */
  predicate OwnsCategory(cs: seq<Category>, userId: Guid, categoryId: Guid) {
    exists c :: c in cs && c.categoryId == categoryId && c.userId == userId
  }

  /** Every expense refers to a category row of its own owner (which may
      have been soft-deleted since). */
  predicate CategoryRefsOwned(es: seq<Expense>, cs: seq<Category>) {
    forall e :: e in es ==> OwnsCategory(cs, e.userId, e.categoryId)
  }

  /** A category table that keeps, position by position, the keys and owners
      of `cs` (it may add rows at the end) keeps every expense's reference owned. */
  lemma {:induction false} KeysKeptKeepOwnership(es: seq<Expense>, cs: seq<Category>, cs': seq<Category>)
    requires CategoryRefsOwned(es, cs)
    requires |cs| <= |cs'|
    requires forall i :: 0 <= i < |cs| ==> cs'[i].categoryId == cs[i].categoryId && cs'[i].userId == cs[i].userId
    ensures CategoryRefsOwned(es, cs')
  {
    forall e | e in es ensures OwnsCategory(cs', e.userId, e.categoryId) {
      var c :| c in cs && c.categoryId == e.categoryId && c.userId == e.userId;
      var i :| 0 <= i < |cs| && cs[i] == c;
      assert cs'[i] in cs';
    }
  }

  /** The tables of the database context. */
  class AppDb {
    var users: seq<User>
    var categories: seq<Category>
    var expenses: seq<Expense>

    ghost predicate Valid()
      reads this
    {
      && UserIdsUnique(users)
      && EmailsDistinct(users)
      && CategoryIdsUnique(categories)
      && LiveNamesDistinct(categories)
      && ExpenseIdsUnique(expenses)
      && CategoryRefsOwned(expenses, categories)
    }

    constructor ()
      ensures Valid()
      ensures users == [] && categories == [] && expenses == []
    {
      users, categories, expenses := [], [], [];
    }
  }
}
