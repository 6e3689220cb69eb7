/** CategoryService: per-user categories with case-insensitively unique live
    names and soft delete. The queries are functions of the Categories table;
    create, update and delete are methods that change it in place. */
module CategoryStore {
  import opened Common
  import opened Sequences
  import opened Models

  /** Owned by `userId` and not soft-deleted: the filter of every query. */
  predicate IsLiveOf(c: Category, userId: Guid) {
    c.userId == userId && !c.isDeleted
  }

  function LiveOf(userId: Guid): Category -> bool {
    (c: Category) => IsLiveOf(c, userId)
  }

  function IsLiveWithId(categoryId: Guid, userId: Guid): Category -> bool {
    (c: Category) => c.categoryId == categoryId && IsLiveOf(c, userId)
  }

  /** `OrderBy(c => c.Name)`, ordinal. */
  predicate NameLe(a: Category, b: Category) {
    LexLe(a.name, b.name)
  }

  lemma NameOrderIsTotalPreorder()
    ensures TotalPreorder(NameLe)
  {
    forall a, b ensures NameLe(a, b) || NameLe(b, a) {
      LexLeTotal(a.name, b.name);
    }
    forall a, b, c | NameLe(a, b) && NameLe(b, c) ensures NameLe(a, c) {
      LexLeTransitive(a.name, b.name, c.name);
    }
  }

  /** GetCategoriesByUserAsync: the caller's live categories, by name. */
  function GetCategoriesByUser(categories: seq<Category>, userId: Guid): (r: seq<Category>)
    ensures forall c :: c in r <==> c in categories && IsLiveOf(c, userId)
    ensures multiset(r) == multiset(Filter(categories, LiveOf(userId)))
    ensures forall i, j :: 0 <= i < j < |r| ==> LexLe(r[i].name, r[j].name)
  {
    NameOrderIsTotalPreorder();
    var r := SortBy(Filter(categories, LiveOf(userId)), NameLe);
    assert SortedBy(r, NameLe);
    r
  }

  /** The position of the row `FirstOrDefaultAsync(c => c.CategoryId == categoryId
      && c.UserId == userId && !c.IsDeleted)` finds. */
  function FindCategory(categories: seq<Category>, categoryId: Guid, userId: Guid): (r: Option<nat>)
    ensures r.Some? ==>
              r.value < |categories| && categories[r.value].categoryId == categoryId
              && IsLiveOf(categories[r.value], userId)
    ensures r.None? <==> forall c :: c in categories ==> !(c.categoryId == categoryId && IsLiveOf(c, userId))
  {
    var r := FirstIndex(categories, IsLiveWithId(categoryId, userId));
    assert r.Some? ==> IsLiveWithId(categoryId, userId)(categories[r.value]);
    r
  }

  /** GetCategoryByIdAsync: present exactly when the caller owns a live
      category with that key. */
  function GetCategoryById(categories: seq<Category>, categoryId: Guid, userId: Guid): (r: Option<Category>)
    ensures r.Some? <==> exists c :: c in categories && c.categoryId == categoryId && IsLiveOf(c, userId)
    ensures r.Some? ==>
              r.value in categories && r.value.categoryId == categoryId
              && r.value.userId == userId && !r.value.isDeleted
  {
    match FindCategory(categories, categoryId, userId)
    case Some(i) => Some(categories[i])
    case None => None
  }

  /** The `AnyAsync` uniqueness probe: the caller already has a live
      category whose lower-cased name is that of `name`. */
  predicate NameTaken(categories: seq<Category>, userId: Guid, name: string) {
    exists c :: c in categories && IsLiveOf(c, userId) && ToLower(c.name) == ToLower(name)
  }

  /** The rename test of UpdateCategoryAsync: a new name that differs from
      the current one other than in case, and that another live category
      of the caller already has. */
  predicate RenameCollides(categories: seq<Category>, current: Category, userId: Guid, name: Option<string>) {
    name.Some? && ToLower(name.value) != ToLower(current.name) && NameTaken(categories, userId, name.value)
  }

  /** The partial update: a supplied field replaces the stored one. */
  function ApplyCategoryUpdate(c: Category, dto: UpdateCategoryDto): (r: Category)
    ensures r.categoryId == c.categoryId && r.userId == c.userId
    ensures r.createdDate == c.createdDate && r.isDeleted == c.isDeleted
    ensures dto.name.None? ==> r.name == c.name
    ensures dto.name.Some? ==> r.name == dto.name.value
    ensures dto.color.None? ==> r.color == c.color
    ensures dto.color.Some? ==> r.color == dto.color.value
  {
    var named := if dto.name.Some? then c.(name := dto.name.value) else c;
    if dto.color.Some? then named.(color := dto.color.value) else named
  }

  lemma ApplyCategoryUpdateIdempotent(c: Category, dto: UpdateCategoryDto)
    ensures ApplyCategoryUpdate(ApplyCategoryUpdate(c, dto), dto) == ApplyCategoryUpdate(c, dto)
  {
  }

  /** Adding a live category whose name is not taken keeps live names distinct. */
  lemma {:induction false} AddKeepsNamesDistinct(cs: seq<Category>, c: Category)
    requires LiveNamesDistinct(cs)
    requires !NameTaken(cs, c.userId, c.name)
    ensures LiveNamesDistinct(cs + [c])
  {
    var cs' := cs + [c];
    forall i, j | 0 <= i < j < |cs'| && cs'[i].userId == cs'[j].userId && !cs'[i].isDeleted && !cs'[j].isDeleted
      ensures ToLower(cs'[i].name) != ToLower(cs'[j].name)
    {
      if j == |cs| {
        assert cs'[i] in cs;
      }
    }
  }

  /** Replacing row `k` by one with the same owner and delete flag keeps live
      names distinct when its lower-cased name is unchanged or not taken. */
  lemma {:induction false} RenameKeepsNamesDistinct(cs: seq<Category>, k: nat, c: Category)
    requires LiveNamesDistinct(cs)
    requires k < |cs| && c.userId == cs[k].userId && c.isDeleted == cs[k].isDeleted
    requires ToLower(c.name) == ToLower(cs[k].name) || !NameTaken(cs, c.userId, c.name)
    ensures LiveNamesDistinct(cs[k := c])
  {
    var cs' := cs[k := c];
    forall i, j | 0 <= i < j < |cs'| && cs'[i].userId == cs'[j].userId && !cs'[i].isDeleted && !cs'[j].isDeleted
      ensures ToLower(cs'[i].name) != ToLower(cs'[j].name)
    {
      if i == k {
        assert cs[j] in cs;
      } else if j == k {
        assert cs[i] in cs;
      }
    }
  }

  /** Soft-deleting row `k` keeps live names distinct. */
  lemma {:induction false} SoftDeleteKeepsNamesDistinct(cs: seq<Category>, k: nat)
    requires LiveNamesDistinct(cs) && k < |cs|
    ensures LiveNamesDistinct(cs[k := cs[k].(isDeleted := true)])
  {
    var cs' := cs[k := cs[k].(isDeleted := true)];
    forall i, j | 0 <= i < j < |cs'| && cs'[i].userId == cs'[j].userId && !cs'[i].isDeleted && !cs'[j].isDeleted
      ensures ToLower(cs'[i].name) != ToLower(cs'[j].name)
    {
      assert i != k && j != k;
    }
  }

  class CategoryService {
    const context: AppDb

    constructor (context: AppDb)
      ensures this.context == context
    {
      this.context := context;
    }

    /** CreateCategoryAsync; `newId` and `now` stand for `Guid.NewGuid()` and
        `DateTime.UtcNow`. */
    method CreateCategory(userId: Guid, dto: CreateCategoryDto, newId: Guid, now: DateTime) returns (r: Result<Category>)
      requires context.Valid()
      requires forall c :: c in context.categories ==> c.categoryId != newId
      modifies context
      ensures context.Valid()
      ensures context.users == old(context.users) && context.expenses == old(context.expenses)
      ensures NameTaken(old(context.categories), userId, dto.name) ==>
        r == Thrown(ArgumentException) && context.categories == old(context.categories)
      ensures !NameTaken(old(context.categories), userId, dto.name) ==>
        && r == Ok(Category(newId, userId, dto.name, dto.color, now, false))
        && context.categories == old(context.categories) + [r.value]
    {
      if NameTaken(context.categories, userId, dto.name) {
        return Thrown(ArgumentException);
      }
      var category := Category(newId, userId, dto.name, dto.color, now, false);
      AddKeepsNamesDistinct(context.categories, category);
      KeysKeptKeepOwnership(context.expenses, context.categories, context.categories + [category]);
      context.categories := context.categories + [category];
      r := Ok(category);
    }

    /** UpdateCategoryAsync: every check precedes the first assignment, so a
        failed update changes nothing. */
    method UpdateCategory(categoryId: Guid, dto: UpdateCategoryDto, userId: Guid) returns (r: Outcome)
      requires context.Valid()
      modifies context
      ensures context.Valid()
      ensures context.users == old(context.users) && context.expenses == old(context.expenses)
      ensures var found := FindCategory(old(context.categories), categoryId, userId);
        && (found.None? ==> r == Failed(KeyNotFoundException))
        && (found.Some? && RenameCollides(old(context.categories), old(context.categories)[found.value], userId, dto.name) ==>
              r == Failed(ArgumentException))
        && (r.Failed? ==> context.categories == old(context.categories))
        && (r.Done? ==>
              found.Some? && context.categories ==
              old(context.categories)[found.value := ApplyCategoryUpdate(old(context.categories)[found.value], dto)])
      ensures r.Done? <==> var found := FindCategory(old(context.categories), categoryId, userId);
        found.Some? && !RenameCollides(old(context.categories), old(context.categories)[found.value], userId, dto.name)
    {
      var found := FindCategory(context.categories, categoryId, userId);
      if found.None? {
        return Failed(KeyNotFoundException);
      }
      var k := found.value;
      var category := context.categories[k];
      if dto.name.Some? {
        if ToLower(dto.name.value) != ToLower(category.name) {
          if NameTaken(context.categories, userId, dto.name.value) {
            return Failed(ArgumentException);
          }
        }
        category := category.(name := dto.name.value);
      }
      if dto.color.Some? {
        category := category.(color := dto.color.value);
      }
      RenameKeepsNamesDistinct(context.categories, k, category);
      KeysKeptKeepOwnership(context.expenses, context.categories, context.categories[k := category]);
      context.categories := context.categories[k := category];
      r := Done;
    }

    /** DeleteCategoryAsync: a soft delete of the category alone; the
        expenses that refer to it keep doing so. */
    method DeleteCategory(categoryId: Guid, userId: Guid) returns (r: Outcome)
      requires context.Valid()
      modifies context
      ensures context.Valid()
      ensures context.users == old(context.users) && context.expenses == old(context.expenses)
      ensures var found := FindCategory(old(context.categories), categoryId, userId);
        && (found.None? <==> r == Failed(KeyNotFoundException))
        && (found.None? ==> context.categories == old(context.categories))
        && (found.Some? ==>
              r == Done && context.categories ==
              old(context.categories)[found.value := old(context.categories)[found.value].(isDeleted := true)])
    {
      var found := FindCategory(context.categories, categoryId, userId);
      if found.None? {
        return Failed(KeyNotFoundException);
      }
      var k := found.value;
      var deleted := context.categories[k].(isDeleted := true);
      SoftDeleteKeepsNamesDistinct(context.categories, k);
      KeysKeptKeepOwnership(context.expenses, context.categories, context.categories[k := deleted]);
      context.categories := context.categories[k := deleted];
      r := Done;
    }
  }
}
