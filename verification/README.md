# Expense Tracker — a verified model of its core

Expense Tracker is a personal finance application made of two parts:

- An ASP.NET Core Web API. Users register and sign in with an e-mail address and a password, and receive a JWT.
- A React client that lists, filters and charts the expenses.

On the server, the core consists of:

- ExpenseService and CategoryService: per-user queries, creation, partial update and soft deletion over the Users, Categories and Expenses tables.
- The FluentValidation validators and data annotations that decide `ModelState`.
- ExpensesController: who the caller is, listings and a spending summary, and the HTTP status for each outcome.
- AuthController: registration, login and JWT contents.
- The GlobalExceptionHandler: maps an escaped exception to a ProblemDetails reply.

On the client, the core consists of:

- ReportsChart: the top-ten category bar chart, the daily line chart and the headline statistics.
- ExpenseList: paging ten rows at a time.

The model is organised as follows:

| module | file | models |
|---|---|---|
| `Common` | `common.dfy` | option and result types, the exception kinds, `Guid` and `DateTime`, ASCII case folding and trimming, ordinal string order |
| `Sequences` | `sequences.dfy` | the LINQ and array building blocks: `Where` (`Filter`), `Sum`, an insertion sort, distinctness |
| `Models` | `models.dfy` | the entities and DTOs, the table invariants (primary keys, case-insensitive unique names and addresses, expenses pointing at a category of their owner), and the `AppDb` class whose three tables the services and controllers update in place |
| `CategoryStore`, `ExpenseStore` | `category_store.dfy`, `expense_store.dfy` | queries as functions, and the services as classes whose methods change `AppDb` |
| `CategoryRules`, `ExpenseRules` | `category_rules.dfy`, `expense_rules.dfy` | the validators: the list of failed rule messages |
| `Http` | `http.dfy` | replies and the exception handler |
| `ExpenseApi` | `expense_api.dfy` | ExpensesController |
| `AuthApi` | `auth_api.dfy` | AuthController |
| `Reports` | `reports.dfy` | the chart data of ReportsChart, with its accumulation loops as methods |
| `Paging` | `paging.dfy` | ExpenseList's page state as a class |

Values from outside the core are parameters of the operations that use them:

- `Guid.NewGuid()` and `DateTime.UtcNow` are passed in as `newId` and `now`.
- The BCrypt hash and `BCrypt.Verify` are passed in as `passwordHash` and `verify`.
- `Guid.ToString` and `Guid.TryParse` are passed in as `format` and `parse`.

Money is modelled as whole cents, so the database's `decimal(10,2)` is exact. A `DateTime` is its tick count, between 0 and `DateTime.MaxValue.Ticks`. A `Guid` is a natural number, and 0 stands for `Guid.Empty`.

Where the code and its design notes disagree, the model follows the code:

- Registration refuses an address that any user, active or not, already has up to case. Login only looks among active users.
- `UpdateExpense` answers 401, not 404, when the expense is missing. It does this both through the `false` branch and through the `KeyNotFoundException` catch.
- `GetExpense`, `CreateExpense` and `GetSummary` have the caller-id check commented out. Each of these actions carries `[Authorize]` (ExpenseController.cs lines 72, 141 and 96), and Program.cs registers JwtBearer authentication and authorization (lines 109-112 and 164-165). So an unauthenticated request is answered with 401 by the framework before the action runs; the model starts once a token has been accepted. Only an authenticated caller whose token has no parseable `sub` or NameIdentifier value reaches these actions with `Guid.Empty` as its id.
- ExpensesController carries `[ApiController]` (ExpenseController.cs line 16), and `AddControllers` in Program.cs leaves its automatic model check on. An invalid `UpdateExpenseDto` is therefore answered with 400 before `UpdateExpense` reads the caller id. The action's own `ModelState` test never fires.
- The chart's "days" statistic is the number of distinct calendar days, even though it sits in the `count` field.

## Model

| member | source | states |
|---|---|---|
| `CategoryStore.NameOrderIsTotalPreorder` | Backend/ExpenseAPI/Services/CategoryService.cs:25 | ordering categories by name is a total preorder, so the sort is well defined |
| `CategoryStore.GetCategoriesByUser` | Backend/ExpenseAPI/Services/CategoryService.cs:21-27 | exactly the caller's non-deleted categories, the same multiset as the filter, in ascending name order |
| `CategoryStore.FindCategory` | Backend/ExpenseAPI/Services/CategoryService.cs:61-65 | the position of a live category with this key owned by the caller, and None exactly when there is none |
| `CategoryStore.GetCategoryById` | Backend/ExpenseAPI/Services/CategoryService.cs:29-33 | Some exactly when a live category with this key belongs to the caller, and then it is that category |
| `CategoryStore.ApplyCategoryUpdate` | Backend/ExpenseAPI/Services/CategoryService.cs:67-81 | key, owner, creation date and deleted flag never change; an absent field leaves the stored value, and a supplied name or colour replaces it |
| `CategoryStore.ApplyCategoryUpdateIdempotent` | Backend/ExpenseAPI/Services/CategoryService.cs:67-81 | applying the same update twice equals applying it once |
| `CategoryStore.AddKeepsNamesDistinct` | Backend/ExpenseAPI/Services/CategoryService.cs:38-52 | adding a category whose name the owner does not use, up to case, keeps live names distinct per user |
| `CategoryStore.RenameKeepsNamesDistinct` | Backend/ExpenseAPI/Services/CategoryService.cs:67-78 | a rename that passes the collision check keeps live names distinct per user |
| `CategoryStore.SoftDeleteKeepsNamesDistinct` | Backend/ExpenseAPI/Services/CategoryService.cs:97 | soft deletion keeps live names distinct per user |
| `CategoryStore.CategoryService.CreateCategory` | Backend/ExpenseAPI/Services/CategoryService.cs:35-57 | a name taken up to case throws ArgumentException and changes nothing; otherwise the new row is appended and returned; the database invariants hold afterwards |
| `CategoryStore.CategoryService.UpdateCategory` | Backend/ExpenseAPI/Services/CategoryService.cs:59-85 | missing throws KeyNotFoundException; a rename onto another live name throws ArgumentException; on failure nothing changes; on success exactly that row is replaced by the updated one |
| `CategoryStore.CategoryService.DeleteCategory` | Backend/ExpenseAPI/Services/CategoryService.cs:87-107 | missing throws KeyNotFoundException and changes nothing; otherwise exactly that row is flagged deleted |
| `ExpenseStore.DateOrderIsTotalPreorder` | Backend/ExpenseAPI/Services/ExpenseService.cs:26 | latest-first date order is a total preorder |
| `ExpenseStore.GetExpensesByUser` | Backend/ExpenseAPI/Services/ExpenseService.cs:21-28 | exactly the caller's non-deleted expenses, the same multiset as the filter, latest first |
| `ExpenseStore.GetExpensesByDateRange` | Backend/ExpenseAPI/Services/ExpenseService.cs:30-37 | the same, restricted to dates within both bounds inclusive |
| `ExpenseStore.FindExpense` | Backend/ExpenseAPI/Services/ExpenseService.cs:76-80 | the position of the caller's live expense with this key, and None exactly when there is none |
| `ExpenseStore.GetExpenseById` | Backend/ExpenseAPI/Services/ExpenseService.cs:39-44 | Some exactly when the caller has a live expense with this key, and then it is that expense |
| `ExpenseStore.GetExpenseByIdIsOwnerScoped` | Backend/ExpenseAPI/Services/ExpenseService.cs:43 | in a table with unique keys, another user's expense is never found under its key |
| `ExpenseStore.GetTotalSpending` | Backend/ExpenseAPI/Services/ExpenseService.cs:122-134 | the sum of the amounts of the caller's live expenses within the optional bounds |
| `ExpenseStore.TotalSpendingFilter` | Backend/ExpenseAPI/Services/ExpenseService.cs:124-131 | narrowing the query step by step selects the same expenses as the single combined filter |
| `ExpenseStore.TotalWithoutBoundsIsListingSum` | Backend/ExpenseAPI/Services/ExpenseService.cs:122-134 | without bounds the total is the sum of the caller's listing |
| `ExpenseStore.FullRangeIsListing` | Backend/ExpenseAPI/Services/ExpenseService.cs:30-37 | the range from `DateTime.MinValue` to `DateTime.MaxValue` lists the same expenses as the unbounded listing |
| `ExpenseStore.TotalWithBoundsIsRangeSum` | Backend/ExpenseAPI/Services/ExpenseService.cs:122-134 | with both bounds the total is the sum of the date-range listing |
| `ExpenseStore.ApplyExpenseUpdate` | Backend/ExpenseAPI/Services/ExpenseService.cs:93-103 | key, owner, creation date and deleted flag never change; each absent field leaves the stored value, and each supplied field replaces it (a supplied empty description included) |
| `ExpenseStore.ApplyExpenseUpdateIdempotent` | Backend/ExpenseAPI/Services/ExpenseService.cs:93-103 | applying the same update twice equals applying it once |
| `ExpenseStore.UpdateRejection` | Backend/ExpenseAPI/Services/ExpenseService.cs:82-91 | an update is refused with ArgumentException exactly when a given amount is not positive or a given category is not a live category of the caller |
| `ExpenseStore.ReplaceKeepsIdsUnique` | Backend/ExpenseAPI/Services/ExpenseService.cs:93-103 | replacing a row by one with the same key keeps expense keys unique |
| `ExpenseStore.ReplaceKeepsRefsOwned` | Backend/ExpenseAPI/Services/ExpenseService.cs:85-94 | replacing a row by one that refers to a category of its owner keeps every reference owned |
| `ExpenseStore.ExpenseService.CreateExpense` | Backend/ExpenseAPI/Services/ExpenseService.cs:46-72 | succeeds exactly when the amount is positive and the category is a live category of the caller; it then appends and returns the row; otherwise it throws ArgumentException and changes nothing |
| `ExpenseStore.ExpenseService.UpdateExpense` | Backend/ExpenseAPI/Services/ExpenseService.cs:74-107 | missing throws KeyNotFoundException; a refused amount or category throws ArgumentException; on failure nothing changes; on success exactly that row is replaced by the updated one |
| `ExpenseStore.ExpenseService.DeleteExpense` | Backend/ExpenseAPI/Services/ExpenseService.cs:109-120 | missing throws KeyNotFoundException and changes nothing; otherwise exactly that row is flagged deleted |
| `ExpenseStore.DeletedIsNotFoundAgain` | Backend/ExpenseAPI/Services/ExpenseService.cs:111-117 | after a soft delete the same expense is not found again, so a second delete fails |
| `Models.KeysKeptKeepOwnership` | Backend/ExpenseAPI/Data/AppDbContext.cs:61-64 | a category table that keeps each row's key and owner keeps every expense's category reference valid |
| `Models.AppDb.constructor` | Backend/ExpenseAPI/Data/AppDbContext.cs:18-20 | an empty database satisfies the table invariants |
| `CategoryRules.IsHexColor` | Backend/ExpenseAPI/Validators/CategoryValidators.cs:16 | the intended colour pattern: `#` and one or two groups of three hex digits |
| `CategoryRules.HexColorLength` | Backend/ExpenseAPI/Validators/CategoryValidators.cs:16 | every accepted colour has length 4 or 7 and hex digits after the `#` |
| `CategoryRules.HexDigitsAreHexColor` | Backend/ExpenseAPI/Validators/CategoryValidators.cs:16 | conversely, `#` and three or six hex digits is accepted |
| `CategoryRules.TrailingNewlineAccepted` | Backend/ExpenseAPI/Validators/CategoryValidators.cs:16 | the pattern as .NET evaluates it accepts `"#abc\n"`, which is not a hex colour |
| `CategoryRules.HexColorNotBlank` | Backend/ExpenseAPI/Validators/CategoryValidators.cs:15-16 | a colour that matches is never blank |
| `CategoryRules.CreateCategoryErrors` | Backend/ExpenseAPI/Validators/CategoryValidators.cs:10-16 | each message is reported exactly when its rule fails; no message exactly when the name is not blank and at most 100 characters and the colour is a hex code |
| `CategoryRules.BlankColorFailsBothRules` | Backend/ExpenseAPI/Validators/CategoryValidators.cs:14-16 | a blank colour draws both colour messages |
| `CategoryRules.CreateAnnotationsSubsumed` | Backend/ExpenseAPI/Services/CreateCategoryDto.cs:6-13 | the DTO's annotations reject nothing the validator accepts |
| `CategoryRules.UpdateCategoryErrors` | Backend/ExpenseAPI/Validators/CategoryValidators.cs:24-30 | no message exactly when a given name has at most 100 characters and a given non-empty colour is a hex code |
| `CategoryRules.ValidUpdateColor` | Backend/ExpenseAPI/Validators/CategoryValidators.cs:28-30 | a valid update sets the colour to the empty string or to a 4- or 7-character code |
| `ExpenseRules.CreateExpenseErrors` | Backend/ExpenseAPI/Validators/ExpenseValidators.cs:10-13 | each message is reported exactly when its rule fails: empty category key, non-positive amount, date after now, description over 500 characters |
| `ExpenseRules.ValidCreateIsPositiveAndPast` | Backend/ExpenseAPI/Controllers/ExpenseController.cs:150-157 | once `ModelState` is valid, the controller's own amount and date checks can never fire |
| `ExpenseRules.UpdateExpenseErrors` | Backend/ExpenseAPI/Validators/ExpenseValidators.cs:21-31 | no message exactly when a given amount is positive, a given date is not in the future and the description fits |
| `ExpenseRules.EmptyUpdateIsValid` | Backend/ExpenseAPI/Validators/ExpenseValidators.cs:21-31 | an update with no field is valid |
| `Http.StatusFor` | Backend/ExpenseAPI/Middleware/GlobalExceptionHandler.cs:31-45 | ArgumentException or ValidationException gives 400, KeyNotFoundException 404, UnauthorizedAccessException 401, anything else 500, each in both directions |
| `Http.TitleFor` | Backend/ExpenseAPI/Middleware/GlobalExceptionHandler.cs:22-45 | each title goes with exactly one status |
| `Http.TryHandle` | Backend/ExpenseAPI/Middleware/GlobalExceptionHandler.cs:15-52 | always handles; the response status and the problem's status agree; the problem carries the message and path |
| `ExpenseApi.FindFirst` | Backend/ExpenseAPI/Controllers/ExpenseController.cs:242 | the value of the first claim of the type, and None exactly when there is none |
| `ExpenseApi.GetUserId` | Backend/ExpenseAPI/Controllers/ExpenseController.cs:240-247 | `Guid.Empty` or the parse of some claim's value; which claim wins (a non-empty `sub`, else NameIdentifier) is stated by `ExpenseApi.GetUserIdPrefersSub` |
| `ExpenseApi.ParsedClaimIsCarried` | Backend/ExpenseAPI/Controllers/ExpenseController.cs:246 | a parsed claim value comes from a claim the caller presented |
| `ExpenseApi.GetUserIdPrefersSub` | Backend/ExpenseAPI/Controllers/ExpenseController.cs:242-246 | a non-empty `sub` claim decides the id; only when it is missing or empty is the NameIdentifier claim read |
| `ExpenseApi.QueryExpenses` | Backend/ExpenseAPI/Controllers/ExpenseController.cs:44-53 | the same expenses as the caller's live expenses within the optional bounds, latest first |
| `ExpenseApi.ListExpenses` | Backend/ExpenseAPI/Controllers/ExpenseController.cs:43-59 | exactly the caller's live expenses within the bounds and the category, latest first |
| `ExpenseApi.ListExpensesFilter` | Backend/ExpenseAPI/Controllers/ExpenseController.cs:56-59 | filtering the service's result by category equals filtering once by all criteria |
| `ExpenseApi.GetExpensesReply` | Backend/ExpenseAPI/Controllers/ExpenseController.cs:32-68 | 401 exactly for a caller without an id; otherwise 200 with exactly the caller's filtered listing `ListExpenses`, which holds only the caller's live expenses |
| `ExpenseApi.GetExpenseReply` | Backend/ExpenseAPI/Controllers/ExpenseController.cs:73-92 | 200 exactly when the caller has a live expense with that key, and that expense, visible to the caller, is returned; otherwise 404 |
| `ExpenseApi.SummaryExpenses` | Backend/ExpenseAPI/Controllers/ExpenseController.cs:105-109 | exactly the caller's live expenses within the optional bounds |
| `ExpenseApi.SummaryFilterIsTotalFilter` | Backend/ExpenseAPI/Controllers/ExpenseController.cs:105-111 | the summary's expenses are those `GetTotalSpendingAsync` adds up |
| `ExpenseApi.Average` | Backend/ExpenseAPI/Controllers/ExpenseController.cs:112 | 0 for no expenses, otherwise the total divided by the count |
| `ExpenseApi.Tally` | Backend/ExpenseAPI/Controllers/ExpenseController.cs:113-121 | one expense either adds to an existing group or appends a new group |
| `ExpenseApi.GroupByCategory` | Backend/ExpenseAPI/Controllers/ExpenseController.cs:113-121 | the group keys are pairwise distinct |
| `ExpenseApi.TallyKeepsMatch` | Backend/ExpenseAPI/Controllers/ExpenseController.cs:113-121 | adding an expense keeps every group equal to the total and count of its category's expenses |
| `ExpenseApi.GroupsMatchCategories` | Backend/ExpenseAPI/Controllers/ExpenseController.cs:113-121 | each group's total and count are the sum and number of the expenses of its category, and every expense's category has a group |
| `ExpenseApi.GroupsAddUp` | Backend/ExpenseAPI/Controllers/ExpenseController.cs:111-121 | the group totals add up to the total spending, and the counts to the number of expenses |
| `ExpenseApi.GetSummary` | Backend/ExpenseAPI/Controllers/ExpenseController.cs:97-137 | the total equals the service's total spending; the groups are distinct, correct and add up to the total and count; the average times the count is the total |
| `ExpenseApi.CreateFailureStatus` | Backend/ExpenseAPI/Controllers/ExpenseController.cs:162-171 | ArgumentException gives 400 and anything else 500 |
| `ExpenseApi.UpdateFailureStatus` | Backend/ExpenseAPI/Controllers/ExpenseController.cs:194-208 | ArgumentException gives 400, KeyNotFoundException 401 and anything else 500 |
| `ExpenseApi.DeleteFailureStatus` | Backend/ExpenseAPI/Controllers/ExpenseController.cs:228-237 | KeyNotFoundException gives 404 and anything else 500 |
| `ExpenseApi.StatusesAgainstHandler` | Backend/ExpenseAPI/Controllers/ExpenseController.cs:194-232 | the controller agrees with the global handler except for a missing expense on update (401 against 404) |
| `ExpenseApi.ExpensesController.CreateExpense` | Backend/ExpenseAPI/Controllers/ExpenseController.cs:142-172 | 201 with the new row exactly when `ModelState` is valid and the category is a live category of the caller; otherwise 400 and nothing stored |
| `ExpenseApi.ExpensesController.UpdateExpense` | Backend/ExpenseAPI/Controllers/ExpenseController.cs:177-209 | 400 for an invalid model before anything else (the `[ApiController]` attribute at line 16 answers before the action runs); then 401 without an id or for a missing expense, 400 for a refused field, otherwise 204 and the row updated; nothing changes unless 204 |
| `ExpenseApi.ExpensesController.DeleteExpense` | Backend/ExpenseAPI/Controllers/ExpenseController.cs:214-238 | 401 without an id, 404 for a missing expense, otherwise 204 and the row flagged deleted; nothing changes unless 204 |
| `AuthApi.PasswordStrengthRules` | Backend/ExpenseAPI/Controllers/AuthController.cs:125-134 | a password is strong exactly when it has at least eight characters, an upper-case letter and a digit |
| `Common.Trim` | Backend/ExpenseAPI/Controllers/AuthController.cs:45 | the result neither starts nor ends with white space, and it is the infix of the input that has only white space before and after it |
| `AuthApi.NormalizeEmail` | Backend/ExpenseAPI/Controllers/AuthController.cs:45 | the result is trimmed, has no upper-case letter and is no longer than the input; character by character it is the lower-cased `Trim` of the input |
| `AuthApi.TrimCommutesWithToLower` | Backend/ExpenseAPI/Controllers/AuthController.cs:45-46 | trimming and lower-casing can be done in either order |
| `AuthApi.NormalizeEmailCanonical` | Backend/ExpenseAPI/Controllers/AuthController.cs:45 | normalisation is idempotent and ignores surrounding white space |
| `AuthApi.NormalizeEmailIsLoweredInfix` | Backend/ExpenseAPI/Controllers/AuthController.cs:45 | the normalised address is the lower-cased infix of the typed one that has only white space around it |
| `AuthApi.CaseVariantsNormalizeEqual` | Backend/ExpenseAPI/Controllers/AuthController.cs:45-46 | addresses that differ only in case normalise to the same address |
| `AuthApi.AddUserKeepsUsersValid` | Backend/ExpenseAPI/Controllers/AuthController.cs:46-59 | adding a user with a fresh key and an untaken normalised address keeps keys and addresses distinct |
| `AuthApi.GenerateJwtToken` | Backend/ExpenseAPI/Controllers/AuthController.cs:100-123 | a `sub` claim with the user's key and an `email` claim, the configured or default issuer and audience, and an expiry seven days on (ArgumentOutOfRangeException past `DateTime.MaxValue`) |
| `AuthApi.TokenIdentifiesUser` | Backend/ExpenseAPI/Controllers/AuthController.cs:108-112 | the controller's `GetUserId` reads the user's key back from the token, also when `sub` arrives mapped to NameIdentifier |
| `AuthApi.Login` | Backend/ExpenseAPI/Controllers/AuthController.cs:67-89 | 400 for an invalid model; 401 "Invalid credentials." when no active user has the address; for the first active user with the address, the same 401 when the password does not verify, and otherwise success exactly when its token can be issued, carrying that user's id, address and token, expiring `expiresIn` seconds after now |
| `AuthApi.SignIn` | Backend/ExpenseAPI/Controllers/AuthController.cs:77-89 | 401 "Invalid credentials." for a wrong password; the token error's status when the token cannot be issued; otherwise 200 with the user's id and address, the issued token, and `expiresIn` of seven days |
| `AuthApi.InactiveUserCannotSignIn` | Backend/ExpenseAPI/Controllers/AuthController.cs:73 | an address held only by inactive users never signs in |
| `AuthApi.AuthController.Register` | Backend/ExpenseAPI/Controllers/AuthController.cs:34-63 | 400 for an invalid model, mismatched or weak passwords, 409 for a taken address, otherwise 200 with the new key and the user appended with the normalised address; success exactly when all checks pass; nothing changes on failure |
| `AuthApi.OnlyAccountForAddress` | Backend/ExpenseAPI/Controllers/AuthController.cs:73 | with addresses distinct up to case, the lookup finds the one account with the address |
| `AuthApi.LoginFindsAccount` | Backend/ExpenseAPI/Controllers/AuthController.cs:72-83 | an account found by the lookup whose password verifies signs in |
| `AuthApi.RegisteredUserSignsIn` | Backend/ExpenseAPI/Controllers/AuthController.cs:67-89 | an active registered user signs in with any case variant of the address and the right password |
| `Reports.CategoryLabel` | expense-tracker-ui/src/components/ReportsChart.jsx:108 | a missing or empty name falls back to "Uncategorized", so a category key is never empty |
| `Reports.DayKey` | expense-tracker-ui/src/components/ReportsChart.jsx:101 | the day key is a prefix of the date with no `T`, ending at the first `T` or the end |
| `Reports.TotalUnderIsFilteredSum` | expense-tracker-ui/src/components/ReportsChart.jsx:106-110 | the running total under a key is the sum of the amounts of the expenses with that key |
| `Reports.KeysOfBound` | expense-tracker-ui/src/components/ReportsChart.jsx:101 | there are no more distinct keys than expenses |
| `Reports.BarsAt` | expense-tracker-ui/src/components/ReportsChart.jsx:112-115 | bar `i` pairs key `i` with its total |
| `Reports.BarsMembers` | expense-tracker-ui/src/components/ReportsChart.jsx:112-115 | a bar is in the series exactly when its key is listed and its amount is that key's total |
| `Reports.BarsDistinct` | expense-tracker-ui/src/components/ReportsChart.jsx:112-115 | distinct keys give distinct bars |
| `Reports.TallyDomain` | expense-tracker-ui/src/components/ReportsChart.jsx:106-110 | `Object.keys` of the accumulated map lists each key once, exactly the keys in the map |
| `Reports.InsertionOrderIsKeys` | expense-tracker-ui/src/components/ReportsChart.jsx:106-112 | the listed keys are exactly the keys of the expenses |
| `Reports.TallyIsTotal` | expense-tracker-ui/src/components/ReportsChart.jsx:106-110 | the map holds each key's total and nothing for other keys |
| `Reports.TallyAddsUp` | expense-tracker-ui/src/components/ReportsChart.jsx:106-115 | the bars over all keys add up to the total of all expenses |
| `Reports.Accumulate` | expense-tracker-ui/src/components/ReportsChart.jsx:106-110 | the loop builds the map and the key order of the `forEach` accumulation |
| `Reports.Accumulated` | expense-tracker-ui/src/components/ReportsChart.jsx:106-110 | the accumulated keys are distinct and complete, and each value is its key's total |
| `Reports.TopBars` | expense-tracker-ui/src/components/ReportsChart.jsx:115 | at most ten bars, taken from the input, in descending amount, none smaller than a bar left out; all of them when there are ten or fewer |
| `Reports.TopBarsProperties` | expense-tracker-ui/src/components/ReportsChart.jsx:115 | the sorted prefix dominates the rest, keeps distinctness, and is a permutation when it is everything |
| `Reports.LeftOutIsSmaller` | expense-tracker-ui/src/components/ReportsChart.jsx:115 | a bar is left out only when ten bars are shown, each at least as large |
| `Reports.TopCategoriesAreSeries` | expense-tracker-ui/src/components/ReportsChart.jsx:106-115 | the top-ten chart is a valid category series for the expenses |
| `Reports.CategorySeries` | expense-tracker-ui/src/components/ReportsChart.jsx:106-115 | the category chart: distinct categories, each with its total, descending, at most ten, and any category left out is no larger than every one shown |
| `Reports.KeyOrderIsTotalPreorder` | expense-tracker-ui/src/components/ReportsChart.jsx:130 | the default string order of `sort()` is a total preorder |
| `Reports.SortedDaysAreSeries` | expense-tracker-ui/src/components/ReportsChart.jsx:118-138 | the sorted day series is a valid daily series |
| `Reports.DailySeries` | expense-tracker-ui/src/components/ReportsChart.jsx:118-138 | the daily chart: one point per day with expenses, ascending by day key, each with that day's total, adding up to the overall total |
| `Reports.MaxAmount` | expense-tracker-ui/src/components/ReportsChart.jsx:103 | `Math.max(..., 0)`: at least 0, at least every amount, and either 0 or some amount |
| `Reports.Mean` | expense-tracker-ui/src/components/ReportsChart.jsx:102 | the average times the count is the total |
| `Reports.ChartStats` | expense-tracker-ui/src/components/ReportsChart.jsx:96-103 | zeros for no expenses; otherwise the total, the per-transaction average, the largest amount floored at 0 (at least 0 and every amount, and either 0 or an amount that occurs), and the number of distinct days |
| `Reports.SameDayCountsOnce` | expense-tracker-ui/src/components/ReportsChart.jsx:101 | two expenses on the same day count as one day |
| `Reports.ChartData` | expense-tracker-ui/src/components/ReportsChart.jsx:95-145 | the three results together; the day count equals the number of daily points, and the daily points add up to the total |
| `Paging.TotalPages` | expense-tracker-ui/src/components/ExpenseList.jsx:86 | the fewest pages of ten that hold the list, and 0 exactly for an empty list |
| `Paging.JsSlice` | expense-tracker-ui/src/components/ExpenseList.jsx:85 | within the bounds, the sub-sequence between them; crossed bounds give nothing |
| `Paging.PageItems` | expense-tracker-ui/src/components/ExpenseList.jsx:83-85 | at most ten rows: the rows at positions `(page-1)*10` up to `page*10`, or nothing past the end |
| `Paging.PagesCoverList` | expense-tracker-ui/src/components/ExpenseList.jsx:83-86 | the first `k` pages read in order are the first `10k` rows |
| `Paging.AllPagesAreTheList` | expense-tracker-ui/src/components/ExpenseList.jsx:83-86 | all pages read in order give back the whole list |
| `Paging.LabelMatchesPage` | expense-tracker-ui/src/components/ExpenseList.jsx:262 | on an existing page, "Showing a to b of n" names exactly the positions of the rows shown |
| `Paging.ExpenseList.constructor` | expense-tracker-ui/src/components/ExpenseList.jsx:5-12 | an empty list on page 1 |
| `Paging.ExpenseList.CurrentExpenses` | expense-tracker-ui/src/components/ExpenseList.jsx:85 | at most ten rows, all from the list, and at least one when the list is not empty |
| `Paging.ExpenseList.FetchExpenses` | expense-tracker-ui/src/components/ExpenseList.jsx:29-42 | a successful fetch replaces the list and returns to page 1; a failed one changes nothing |
| `Paging.ExpenseList.NextPage` | expense-tracker-ui/src/components/ExpenseList.jsx:88 | one page on, capped at the last page; the page stays valid on a non-empty list |
| `Paging.ExpenseList.PrevPage` | expense-tracker-ui/src/components/ExpenseList.jsx:89 | one page back, never before page 1; the page stays valid |

## Left out

- Logout (AuthController.cs lines 92-98) returns a fixed 200 message and stores nothing, so there is no behaviour to model.
- The JWT signature with `Jwt:Key`, its HMAC-SHA256 signing and the serialised token string are not modelled. The token is its claims, issuer, audience and expiry.
- BCrypt hashing and verification are parameters. The model assumes nothing about them.
- `Guid.NewGuid`, `DateTime.UtcNow`, `Guid.ToString` and `Guid.TryParse` are parameters.
- The creation methods require `newId` to be fresh in its table. A collision of `Guid.NewGuid` is not modelled.
- A single `now` stands for every `DateTime.UtcNow` read by the validators and the controller during one request.
- Entity Framework is not modelled: `Include` navigation loading, asynchrony, `SaveChangesAsync` failures and concurrent requests.
- The keys, foreign keys and unique e-mail index of AppDbContext.cs appear as invariants that the operations keep. The database's own enforcement of them, and its cascade deletes, are not modelled; no operation of the core deletes a row physically.
- The JwtBearer token validation and the `[Authorize]` challenge that answers 401 before an ExpensesController action runs are not modelled. The controller operations take the claims of a token that has already been accepted.
- Logging is not modelled, and neither is CorrelationIdMiddleware.
- The `catch (Exception)` 500 replies cover exceptions that the modelled service calls never throw. They appear only as the 500 case of the status functions.
- Money is whole cents. The `decimal` range and the `[Range(0.01, double.MaxValue)]` upper bound are not modelled.
- ExpenseApi.Average and Reports.Mean: an exact rational average, not a rounded `decimal` or JavaScript floating-point quotient.
- Strings use ASCII case folding and white space. Culture-sensitive `ToLower`, Unicode white space and the full `[EmailAddress]` grammar are not modelled. `IsEmailAddress` keeps the attribute's test: exactly one `@`, neither first nor last, and no line break.
- Reports.CategorySeries: `Object.keys` lists integer-like keys (a category named "42") before other keys. A category named after an `Object.prototype` member, such as "constructor", starts from that member rather than from 0. The model keeps plain insertion order for every key and starts every total at 0.
- Reports.DailySeries: the `toLocaleDateString` display labels are not modelled. The points carry the `YYYY-MM-DD` key instead.
- ReportsChart's `fetchData` date-range computation (7, 30 or 90 days back, custom dates) is not modelled. Neither is the loading state.
- The category names in the chart come from `exp.category?.name`. The model takes the name or its absence as given on each expense.
- CategoryStore.GetCategoriesByUser: names are ordered by ordinal character order. The database collation that `OrderBy` runs under is often case-insensitive, and it is not modelled.
- ExpenseStore.GetExpensesByUser and ExpenseStore.GetExpensesByDateRange do not fix the order of expenses on the same date. The database does not fix it either. The same holds for equal category names, and for chart bars with equal amounts, which JavaScript's stable `sort` would leave in insertion order.
- Paging.ExpenseList.NextPage: on an empty list `Math.min(prev + 1, 0)` sets the page to 0. The model keeps that value. It proves validity only for a non-empty list, where the buttons are rendered (ExpenseList.jsx line 259).
- ExpenseList's delete, edit and filter handlers are not modelled. Neither are the category fetch and the rendering.
- The CategoryController is not part of this model.

## Findings

| source | as written | input that shows it | evidently intended | confidence | as-written member | corrected member |
|---|---|---|---|---|---|---|
| Backend/ExpenseAPI/Validators/CategoryValidators.cs:16 (and line 30) | the colour pattern ends in `$`, which in .NET also matches just before a final line feed | `"#abc\n"` passes both validators and is stored as a 5-character colour | only `#` and three or six hex digits | not executed | `CategoryRules.TrailingNewlineAccepted` (about `CategoryRules.MatchesColorPattern`) | `CategoryRules.IsHexColor` with `CategoryRules.HexColorLength` |
