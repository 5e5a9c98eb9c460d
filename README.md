# Budget Buddy server rules in Dafny

This project models the server side of Budget Buddy, a personal budgeting
application built on Express and MongoDB, and proves properties of that model.
Users register and verify their e-mail address, log in, and keep budgets:

- a budget is for one period (monthly, weekly, yearly or custom);
- it has a total limit and named categories whose allocations add up to the limit.

Users record income and expense transactions against those budgets. They ask
for a summary that books the period's spending category by category. A second,
simpler ledger of signed amounts has its own balance and per-name totals.

Each MongoDB collection is a sequence of records:

- `Budgets` and `Transactions` are fields of the `BudgetStore` and
  `TransactionStore` classes;
- `Users`, `EmailVerification` and `PasswordResets` are fields of
  `Accounts.AccountDb`;
- `transactions_simple` is a field of `SimpleStore`.

Route handlers that write to a collection are methods that reassign those
fields. The checks and computations around them are functions. Each method is
specified by a function over the old state: a decision ladder such as
`Budgets.BuildPatch`, `Password.ChangeCheck` or `Users.PatchCheck`, or a
reference definition such as `Summary.Final` or `SimpleLedger.Balance`. Lemmas
state what the source promises about those functions.

Modelling choices:

- The clock (`now`, in milliseconds since the epoch) is a parameter.
- The results of bcrypt (`hash`, `matches`) are parameters.
- The random token from `crypto.randomBytes` is a parameter. A `FreshToken`
  precondition says it is distinct from the tokens already stored.
- The outcome of `sendMail` is a parameter.
- Money is `real`.
- `Number(...)` gives a `Num`, which is finite or not.
- An ObjectId argument is an `IdArg`: absent, malformed, or a valid id.

Modules, one per source file plus shared helpers:

| module | models |
|---|---|
| `Common` | results and errors, `trim`/`toLowerCase`, ObjectId arguments, limit/offset pagination |
| `Sums`, `Sorting`, `Calendar` | keyed sums of amounts, a stable descending sort standing for the stores' sort (the database leaves the order of equal keys open; the model fixes one), UTC calendar days |
| `Budgets` | `server/src/routes/budgets.js` |
| `Transactions` | `server/src/routes/transactions.js` |
| `Summary` | `server/src/routes/summary.js` |
| `SimpleLedger` | `server/src/models/simpleTransaction.js` |
| `Accounts` | the user and token records shared by the account routes |
| `Login`, `Register`, `EmailVerification`, `Password`, `Users` | the routes of the same names |
| `MailText` | `toText` of `server/src/lib/sendgrid.js` |

Two behaviours of the source are modelled as written:

- Duplicate category names are accepted. The summary then books one expense
  under both lines (`Summary.DuplicateNamesCountTwice`).
- An update of the limit alone does not re-check the allocation sum
  (`Budgets.LimitOnlyUpdateBreaksSum`).

## Model

| member | source | states |
|---|---|---|
| Common.FirstGiven | server/src/routes/budgets.js:18 | the first identifier that was sent is used, whether it is valid or not; the result is absent only when none was sent |
| Common.ClampLimit | server/src/routes/budgets.js:95 | the page size lies in [1, max]; it is the default when none is asked, and the asked value when that is in range |
| Common.ClampOffset | server/src/routes/budgets.js:96 | the offset is never negative, and is the asked value when that is not negative |
| Common.Page | server/src/routes/budgets.js:98 | the page holds at most `limit` items, in order, from `offset`; it is full whenever enough items remain |
| Common.NextOffset | server/src/routes/budgets.js:100 | nextOffset is offset + limit exactly when the page is full |
| Common.PageCursor | server/src/routes/transactions.js:186-188 | a next offset is reported exactly when `offset + limit` items exist |
| Common.LowerTrimCommute | server/src/routes/login.js:17 | lower-casing then trimming equals trimming then lower-casing |
| Common.TrimIdempotent | server/src/routes/register.js:13-17 | trimming twice is trimming once |
| Common.TrimEmptyIffAllSpace | server/src/routes/register.js:19-21 | a field trims to "" exactly when it is all white space |
| Sorting.SortDesc | server/src/routes/budgets.js:98 | the result is sorted by descending rank and is a permutation of the input |
| Sorting.SortedUnique | server/src/routes/transactions.js:186 | two sorted permutations of one sequence are equal when ranks are distinct, so the order of a listing is fixed |
| Sums.Partition | server/src/routes/summary.js:109-116 | when every entry's key is one of distinct keys, the per-key sums add up to the total |
| Calendar.CivilRoundTrip | server/src/routes/summary.js:16-38 | converting a day to its civil date and back gives the same day |
| Calendar.YearOfDayUnique | server/src/routes/summary.js:31-35 | every day lies in exactly one year |
| Calendar.WindowFor | server/src/routes/summary.js:16-38 | explicit from and to give exactly [from, to); an unknown period gives [now - 30 days, now] |
| Calendar.MonthWindowProperties | server/src/routes/summary.js:19-23 | the monthly window runs from midnight UTC of the 1st of the current month to the 1st of the next month, and contains now |
| Calendar.WeekWindowProperties | server/src/routes/summary.js:24-30 | the weekly window starts on a Monday at midnight UTC, lasts 7 days and contains now |
| Calendar.YearWindowProperties | server/src/routes/summary.js:31-35 | the yearly window runs from 1 January of the current year to the next 1 January, and contains now |
| Budgets.ToPublic | server/src/routes/budgets.js:24-40 | the public view reports the stored limit as both `limit` and `total`, and keeps the id, owner, period and categories |
| Budgets.RequireUser | server/src/routes/budgets.js:16-23 | the user is the body's, else the query's, else the header's id; an absent or malformed one is an error |
| Budgets.ParseDateMaybe | server/src/routes/budgets.js:10-15 | a blank date is null, a valid one is kept, and anything else is an error |
| Budgets.NormalizeCategories | server/src/routes/budgets.js:41-54 | it fails on a missing or empty list, and otherwise with the message of the first bad entry; on success it returns the same categories in order, with trimmed names and finite, non-negative allocations |
| Budgets.TrimmedCategories | server/src/routes/budgets.js:47-52 | one category per sent entry, in order, each with the entry's trimmed name |
| Budgets.NormalizedIsTrimmed | server/src/routes/budgets.js:41-54 | a normalised list is exactly the sent entries with trimmed names and their allocations |
| Budgets.NormalizedWellFormed | server/src/routes/budgets.js:46-47 | normalised categories have non-blank trimmed names and non-negative allocations |
| Budgets.CheckAllocations | server/src/routes/budgets.js:55-59 | passes exactly when the allocations sum to the total within 0.005 |
| Budgets.SumAllocationsAppend | server/src/routes/budgets.js:56 | the allocation sum of two lists is the sum of their sums |
| Budgets.AllocationBelowTotal | server/src/routes/budgets.js:55-59 | in a list that passes the check, no allocation exceeds the total plus the tolerance |
| Budgets.IndexOwned | server/src/routes/budgets.js:85 | finds a budget with that id and that owner, and finds none exactly when no such budget exists |
| Budgets.PeriodBudgetUnique | server/src/routes/budgets.js:129-130 | under the store invariant, a user has at most one budget for each period |
| Budgets.ApplyPatch | server/src/routes/budgets.js:197-199 | an update never changes the id, owner or creation time, and stamps updatedAt |
| Budgets.ScalarError | server/src/routes/budgets.js:164-184 | the name, limit, period and date checks pass exactly when none of them fails |
| Budgets.ScalarPatch | server/src/routes/budgets.js:164-184 | the set object holds exactly the requested scalar fields; it is empty exactly when none was requested |
| Budgets.BuildPatch | server/src/routes/budgets.js:164-196 | the update's checks in source order: name, limit, period, period conflict with another budget, dates, categories against the new or stored limit, then "No fields to update"; bad categories give their own message and a sum off the limit gives 500; the patch is built exactly when every check passes, and sent categories are stored trimmed |
| Budgets.LimitOnlyUpdateBreaksSum | server/src/routes/budgets.js:169-173 | a limit-only update can leave allocations that no longer sum to the limit |
| Budgets.Matching | server/src/routes/budgets.js:91-94 | a listing holds exactly the caller's budgets that match the period and name filters |
| Budgets.BudgetStore.Create | server/src/routes/budgets.js:109-146 | validates the user, the period, the total and the categories, each failure with its own error; refuses a period the user already has with 409; succeeds exactly when every check passes and the dates parse, appending a budget whose limit is the total and whose categories are the trimmed ones summing to it; an error changes nothing |
| Budgets.BudgetStore.Update | server/src/routes/budgets.js:151-208 | an absent or malformed id is refused; a failed check gives its exact error (scalar checks, the first bad category, the 500 allocation-sum error, 400 "No fields to update") and a budget not owned by the caller gives 404, with nothing changed; for a budget the caller owns it succeeds exactly when the patch is accepted, replacing exactly that budget by the patched one, and one budget per period still holds |
| Budgets.BudgetStore.Delete | server/src/routes/budgets.js:211-230 | removes exactly the budget with that id and owner and succeeds whenever there is one; otherwise reports 404 and changes nothing |
| Budgets.BudgetStore.Get | server/src/routes/budgets.js:80-88 | when an id is given, returns a budget exactly when the caller owns one with that id, and then its public view |
| Budgets.BudgetStore.List | server/src/routes/budgets.js:90-102 | exactly the `skip(offset).limit(limit)` slice, as public views, of the caller's matching budgets sorted newest updatedAt first, with the limit clamped to 1..100 (default 20); the page is full whenever enough budgets follow the offset, and nextOffset is set exactly when the page is full |
| Budgets.ListingIsOwnedAndOrdered | server/src/routes/budgets.js:97-99 | every listed budget belongs to the caller and matches the filters, and the listing is ordered by updatedAt descending |
| Budgets.UpdatePreservesInvariant | server/src/routes/budgets.js:174-182 | replacing a budget keeps one budget per user and period when no other budget of the user has the new period |
| Budgets.AppendPreservesInvariant | server/src/routes/budgets.js:129-140 | appending a budget for a period the user does not have keeps the store invariant |
| Budgets.RemovePreservesInvariant | server/src/routes/budgets.js:223 | removing a budget keeps the store invariant |
| Transactions.GetUserId | server/src/routes/transactions.js:19-24 | the user is the body's, else the query's, else the header's id; an absent or malformed one gives 400 |
| Transactions.ParseAmount | server/src/routes/transactions.js:26-30 | accepts exactly the finite amounts above 0, and keeps their value |
| Transactions.ParseType | server/src/routes/transactions.js:32-36 | accepts exactly "income" and "expense" after lower-casing and trimming, and returns the normalised word |
| Transactions.ParseTypeStable | server/src/routes/transactions.js:32-36 | parsing an accepted type again gives it back unchanged |
| Transactions.ParseDate | server/src/routes/transactions.js:38-43 | an absent date is now, a valid one is kept, an invalid one gives 400 |
| Transactions.ThrownMessagesAreClientErrors | server/src/routes/transactions.js:142-146 | every validation message the handler throws maps to status 400 |
| Transactions.MatchCategoryName | server/src/routes/transactions.js:71-80 | finds a name exactly when some category equals the trimmed input, ignoring case; it returns the first such name in the budget's casing |
| Transactions.PickExpenseCategory | server/src/routes/transactions.js:83-94 | the match if there is one, else the first category named "other" in any case, else an error; any name it returns is a category of the budget |
| Transactions.ExpenseRejectedIff | server/src/routes/transactions.js:83-94 | an expense is rejected exactly when no category matches and none is named "other" |
| Transactions.IncomeCategory | server/src/routes/transactions.js:115-123 | a non-empty category that matches a budget category is replaced by the stored name; in every other case the category is kept as sent |
| Transactions.IncomeCategorySpelling | server/src/routes/transactions.js:115-123 | over well-formed categories, a category naming one in any case is stored as the first such category's spelling, and one naming none is kept |
| Transactions.FindBudget | server/src/routes/transactions.js:64-69 | finds a budget of that user and period, and finds none exactly when the user has none |
| Transactions.NewTransaction | server/src/routes/transactions.js:97-141 | the create checks in source order, with "No {period} budget found" when the user has no budget for the period; the stored record is owned by the caller and keeps the amount, type, date and period |
| Transactions.ExpenseCategoryInBudget | server/src/routes/transactions.js:116-118 | a stored expense's category is a category of the user's budget for that period |
| Transactions.BuildFilter | server/src/routes/transactions.js:155-180 | the filter is the caller's, with the parsed type and each optional category, period and date bound normalised as the route does; it fails exactly on a bad type or date |
| Transactions.Select | server/src/routes/transactions.js:155-180 | the selection holds exactly the transactions that pass the filter, dates in [from, to) |
| Transactions.TransactionStore.Create | server/src/routes/transactions.js:97-147 | appends exactly the record `NewTransaction` builds; an error changes nothing |
| Transactions.TransactionStore.List | server/src/routes/transactions.js:150-194 | a page, clamped to [1, 200] with default 50, of the selected transactions sorted by date then id, descending; nextOffset exactly when the page is full |
| Transactions.TransactionStore.Delete | server/src/routes/transactions.js:197-211 | removes exactly the transaction with that id and owner and succeeds whenever there is one; otherwise "Transaction not found" and nothing changes |
| Transactions.ListingDetermined | server/src/routes/transactions.js:186 | any sorted permutation of the selection is the listing |
| Transactions.PageIsSelected | server/src/routes/transactions.js:184-188 | every listed transaction is stored and passes the filter |
| Summary.SummaryUser | server/src/routes/summary.js:6-11 | the user is the query's, else the header's, else the body's id; otherwise "userId is required" |
| Summary.Latest | server/src/routes/summary.js:53 | finds the user's most recently updated budget for the period, and finds none exactly when the user has none |
| Summary.PickBudget | server/src/routes/summary.js:47-54 | a given budgetId picks the caller's budget with that id and a malformed one is an error; otherwise the caller's budget for the query's period with the latest updatedAt, and none exactly when the caller has none for it |
| Summary.Bound | server/src/routes/summary.js:17 | only a from or to that is a date bounds the window |
| Summary.ReportWindow | server/src/routes/summary.js:43-83 | a budget with both start and end dates sets the window, even over explicit from/to; otherwise the query's period decides |
| Summary.ReportCoversWindowOnly | server/src/routes/summary.js:86-89 | the report reads exactly the user's transactions dated in [start, end) |
| Summary.SumKinds | server/src/routes/summary.js:92-98 | income and expense are the sums of the amounts of each type, ignoring case |
| Summary.SeedLedger | server/src/routes/summary.js:100-107 | the ledger has one row per non-blank category key, the last category with that key winning, plus an "Other" row with allocation 0 when no key is "other" |
| Summary.Spend | server/src/routes/summary.js:109-116 | each expense is booked on its category's row or else on "Other"; the unknown count and amount are exactly the expenses whose key has no row |
| Summary.OtherAbsorbsUnknown | server/src/routes/summary.js:111-115 | the "Other" row receives its own expenses plus every unknown one |
| Summary.LedgerPartitionsExpense | server/src/routes/summary.js:100-116 | the spent values of the rows add up to the expense total |
| Summary.Line | server/src/routes/summary.js:123-140 | remaining is allocation minus spent; pctUsed is 100·spent/allocation, and null unless the allocation is positive; overspent means spent exceeds allocation |
| Summary.ListLines | server/src/routes/summary.js:118-133 | one output line per budget category in budget order, each read from the ledger by its untrimmed key |
| Summary.TotalSpentIsExpense | server/src/routes/summary.js:118-156 | for trimmed, distinct category names, the output's spent values add up to the expense total |
| Summary.DuplicateNamesCountTwice | server/src/routes/summary.js:118-133 | with two categories named "Food" and one 10.0 expense, the output's spent values add up to 20.0 |
| Summary.Summarize | server/src/routes/summary.js:86-156 | the report's totals, ledger, lines, unknowns and aggregate totals are the reference functions of the budget and the windowed transactions |
| Summary.Handle | server/src/routes/summary.js:40-196 | a missing user or a bad budgetId is an error; no budget gives the all-zero report with null period and budget; a budget without both dates and a from/to pair that is not two dates gives 400 "Invalid time value"; otherwise the budget's report over its window |
| SimpleLedger.ToItems | server/src/models/simpleTransaction.js:33-38 | each stored record becomes an item with the same id, name, amount and date |
| SimpleLedger.NameKey | server/src/models/simpleTransaction.js:51 | an empty name is grouped under "unknown", any other under itself |
| SimpleLedger.Summarize | server/src/models/simpleTransaction.js:44-54 | balance is the sum of all amounts; expensesByName has exactly the names of negative amounts, each mapped to the sum of their magnitudes |
| SimpleLedger.ByNameAddsUp | server/src/models/simpleTransaction.js:47-54 | the per-name expense totals add up to the magnitude of all negative amounts |
| SimpleLedger.BalanceIsInMinusOut | server/src/models/simpleTransaction.js:44-49 | the balance is the positive amounts minus the magnitudes of the negative ones |
| SimpleLedger.OnlyNegativesGrouped | server/src/models/simpleTransaction.js:50 | a name with no negative amount has no entry |
| SimpleLedger.SimpleStore.Create | server/src/models/simpleTransaction.js:4-22 | stores the user, name, amount and current date under a new id, and returns them |
| SimpleLedger.SimpleStore.List | server/src/models/simpleTransaction.js:24-39 | exactly the user's records, newest date first |
| SimpleLedger.SimpleStore.Summary | server/src/models/simpleTransaction.js:41-61 | its items are exactly the listing, and its balance and totals are those of the items |
| SimpleLedger.SimpleStore.Delete | server/src/models/simpleTransaction.js:62-71 | removes the record with that id and user if there is one, leaves the rest, and reports ok either way |
| SimpleLedger.ListedFromSorted | server/src/models/simpleTransaction.js:28-31 | a date-sorted permutation of the owned records has the same members, in date order |
| Login.ErrPayload | server/src/routes/login.js:7-9 | an error payload has id "0", empty names and the message |
| Login.OkPayload | server/src/routes/login.js:10-12 | a success payload has the user's id and names, "" for an absent name, and no error |
| Login.MissingFieldsRefused | server/src/routes/login.js:16-22 | "Missing login or password" exactly when the normalised login or the password is empty |
| Login.FailuresLookAlike | server/src/routes/login.js:30-32 | an unknown login, a missing hash and a wrong password all give the one "No Records Found" payload |
| Login.NeedVerificationOnlyAfterPassword | server/src/routes/login.js:34-42 | needVerification is reported only to a caller whose password matched, and exactly when isVerified is not `true` |
| Login.SuccessIff | server/src/routes/login.js:44 | login succeeds exactly when the password matches and isVerified is `true`, and then returns that user's payload |
| Login.TruthyIsNotTrue | server/src/routes/login.js:34 | a truthy value of isVerified other than `true` still needs verification |
| Accounts.FindByLogin | server/src/routes/login.js:25-28 | the first user with that login, or none exactly when no user has it |
| Accounts.FindLive | server/src/routes/emailVerification.js:60-62 | the first token with that value that is unused and has not expired, or none exactly when there is none |
| Accounts.NewToken | server/src/routes/emailVerification.js:26-30 | a new token is unused, expires one hour after issue, is live when issued and is dead one hour later |
| Accounts.NewTokenLiveIff | server/src/routes/password.js:68-70 | a new token is live exactly for its own value and before its expiry |
| Accounts.Consumed | server/src/routes/emailVerification.js:65 | a used token records when it was used, keeps everything else, and is never live again |
| Accounts.ConsumeAt | server/src/routes/password.js:105 | marks exactly one token used and leaves the others |
| Accounts.ApplySet | server/src/routes/users.js:88 | an update never changes a user's id or login |
| Accounts.Find | server/src/routes/users.js:53 | the first user matching an id or login filter, or none exactly when there is none |
| Accounts.UpdateOwner | server/src/routes/users.js:88 | an update changes only the first matching record and keeps the store invariant; the same filter still finds it |
| Accounts.ConsumeOnce | server/src/routes/emailVerification.js:64-65 | once a token is consumed no token with its value is live again, and lookups of other values do not change |
| Accounts.UsedValueIsDead | server/src/routes/password.js:99-101 | once a token with a value is used, that value finds no live token at any time |
| Accounts.AddTokenKeepsTokensOk | server/src/routes/password.js:68-70 | appending a token with a fresh value under the next id keeps token ids and values distinct |
| Accounts.AccountDb.constructor | server/src/routes/register.js:35-56 | an empty account store satisfies the store invariant |
| Register.Normalize | server/src/routes/register.js:13-17 | names are trimmed, the login is lower-cased then trimmed, and the password is kept as sent |
| Register.EmailShapedIff | server/src/routes/register.js:22 | a login matches `^[^@]+@[^@]+\.[^@]+$` exactly when it has exactly one "@", not first, and a "." after the "@" with at least one character on each side |
| Register.Validate | server/src/routes/register.js:19-27 | on success, the fields are the normalised request |
| Register.ValidateIff | server/src/routes/register.js:19-27 | the checks run missing, then e-mail shape, then length; each failure gives its own message, and the request passes exactly when all three hold |
| Register.MailFailureRecorded | server/src/routes/register.js:66-83 | mail is ok only when it was sent and the sender reported success; a missing sender and a thrown error are recorded with their messages |
| Register.NewUser | server/src/routes/register.js:35-43 | a new user has the normalised login and names, the hash, the creation time, and isVerified false |
| Register.Register | server/src/routes/register.js:11-103 | an invalid request or a login that exists changes nothing, the latter with 409 "Login already exists."; a valid request with a new login always succeeds, appending the user and one unused verification token and returning the id and names, with the mail outcome outside production |
| Register.Insert | server/src/routes/register.js:35-56 | appends the user and the token under consecutive new ids, keeping the store invariant |
| Register.RegisteredTokenLive | server/src/routes/register.js:46-56 | the token issued at registration is accepted until one hour after issue and not after |
| EmailVerification.ResendKeyAgrees | server/src/routes/emailVerification.js:11-12 | resend's key, trimmed then lower-cased, is the one the other account routes use |
| EmailVerification.VerifyKey | server/src/routes/emailVerification.js:54-55 | the token is the path's, else `?token=`, else `?Token=`, trimmed |
| EmailVerification.Resend | server/src/routes/emailVerification.js:9-49 | a blank login gives 400, an unknown one 404 and a verified user "Already verified", all without a token; an unverified user gets one new token expiring an hour later, and earlier tokens are untouched |
| EmailVerification.Verify | server/src/routes/emailVerification.js:52-71 | a blank token gives "Missing token"; no live token gives "Invalid or expired token" and changes nothing; otherwise its owner is marked verified, the token is used, and that token value is never accepted again |
| EmailVerification.TokenLifecycle | server/src/routes/emailVerification.js:26-65 | an issued token is accepted exactly until its expiry, and after one acceptance never again |
| Password.CheckToken | server/src/routes/password.js:12-22 | a missing token gives 400; the token is reported valid exactly when an unused, unexpired token has that value |
| Password.ChangeQuery | server/src/routes/password.js:36-40 | a header id wins and a malformed one is refused; else the trimmed, lower-cased login; else an error |
| Password.ChangeChecksFirst | server/src/routes/password.js:30-31 | missing passwords or a short new password are refused before any lookup, whatever the users are |
| Password.ChangeCheckIff | server/src/routes/password.js:27-46 | a change passes exactly when the fields are present and long enough, the user is found and the old password matches its hash |
| Password.HeaderWins | server/src/routes/password.js:36-40 | when a header id is sent, the body's login plays no part |
| Password.Change | server/src/routes/password.js:27-52 | on success only that user's hash changes; on any error nothing changes |
| Password.Request | server/src/routes/password.js:55-88 | the same message whether or not the account exists; a reset token expiring an hour later is added only when it does |
| Password.ResetCheckIff | server/src/routes/password.js:91-101 | the token and new-password checks come before any lookup; a reset passes exactly when they hold and a live token has that value |
| Password.Reset | server/src/routes/password.js:91-109 | on success the owner's hash is replaced and the token is used, so it is never accepted again; on error nothing changes |
| Password.RouteOrder | server/src/routes/password.js:112-116 | a token selects reset; else a login without oldPassword selects request; else change |
| Password.Post | server/src/routes/password.js:112-116 | the dispatcher gives, for the route it selects, the same answer, errors and new users, reset tokens and id counter as that route, and leaves the verification tokens alone |
| Users.PickIdentity | server/src/routes/users.js:17-31 | every identification error is a 400 |
| Users.PickIdentityOrder | server/src/routes/users.js:17-31 | header, then query id, then body id decide, valid or not; otherwise the trimmed, lower-cased login from the query, else the body; otherwise an error |
| Users.ToPublic | server/src/routes/users.js:33-46 | the public view keeps the identity, names and times, and makes isVerified a boolean that is true exactly when the stored value is truthy |
| Users.PublicHidesHash | server/src/routes/users.js:33-46 | the public view does not depend on the password hash |
| Users.Get | server/src/routes/users.js:49-59 | an identification error is returned as is; an unmatched user gives 404; otherwise the matched user's public view |
| Users.FirstPresent | server/src/routes/users.js:80-82 | the first refused key present in the body, or none exactly when none is present |
| Users.PatchCheckIff | server/src/routes/users.js:62-85 | a patch is accepted exactly when the identity is valid, some name is sent, every sent name is non-blank and no refused key is present; it sets the trimmed names and updatedAt |
| Users.SensitiveRefused | server/src/routes/users.js:80-82 | a body with password, passwordHash, isVerified or login is always refused |
| Users.BodyLoginPatchRefused | server/src/routes/users.js:62-82 | a patch that names its user by the body's login is always refused, since that body carries the refused key login |
| Users.PatchOnlyNames | server/src/routes/users.js:68-85 | a patched user differs only in its names and updatedAt, and the names it stores are trimmed and non-blank |
| Users.Patch | server/src/routes/users.js:62-96 | an error or an unmatched user changes nothing, the latter with 404; otherwise only the matched user's names and updatedAt change, and its new public view is returned |
| MailText.IndexOf | server/src/lib/sendgrid.js:18 | the first occurrence of a character, or none exactly when it does not occur |
| MailText.TagEndIff | server/src/lib/sendgrid.js:18 | a tag match found at the start of the string is exactly a `<`, one or more non-`>` characters, then `>` |
| MailText.StripLeavesNoTag | server/src/lib/sendgrid.js:18 | after the replacement no `<[^>]+>` match remains |
| MailText.StripFixesNoTag | server/src/lib/sendgrid.js:18 | a string without a match is left unchanged |
| MailText.StripIdempotent | server/src/lib/sendgrid.js:18 | stripping twice is stripping once |
| MailText.CollapseIsCollapsed | server/src/lib/sendgrid.js:19 | after collapsing, every white space character is a single plain space |
| MailText.CollapseFixesCollapsed | server/src/lib/sendgrid.js:19 | a collapsed string is its own collapse |
| MailText.ToTextShape | server/src/lib/sendgrid.js:17-21 | the text has no white space at its ends and only single spaces inside, and the default input gives "" |
| MailText.ToTextFixes | server/src/lib/sendgrid.js:17-21 | on a string already without tags, collapsed and trimmed, `toText` changes nothing |

## Left out

- I/O and the database driver are not modelled: HTTP request parsing, JSON responses, connections, index creation and router mounting. `server/src/lib/mongo.js` and `server/src/app.js` are not part of this model.
- The unique index on `Users.login` is modelled by the duplicate-login check before insertion, not as a database error.
- The TTL index on verification tokens, which deletes them in the background, is not modelled. Expiry is only the `expireAt > now` test.
- Reset tokens have no index at all: the TTL and unique indexes are created on a collection `PasswordReset` (server/src/lib/mongo.js:68-69), while the password routes use `PasswordResets`. Distinct reset token values rest on the randomness of the token alone, which is the `FreshToken` precondition.
- Concurrency is not modelled. Budget creation checks and then inserts; calls are modelled one at a time.
- bcrypt and `crypto.randomBytes` are foreign calls. They are the `hash` and `matches` parameters and the token parameter.
  - A fresh token value is assumed distinct from those stored, through the `FreshToken` precondition.
  - Collisions of random tokens are not modelled.
- SendGrid delivery is not modelled: `sendMail`, `ensureConfigured`, the HTML bodies of the mails, and the verify or reset links built into them. Only the outcome that registration records is modelled.
- Money is `real`, not a JavaScript double. Floating-point rounding errors are not modelled.
- Summary.Summarize: the report's values are not rounded. The source rounds each category's `spent` with `toFixed(2)` (server/src/routes/summary.js:127, 139) and computes `totals.spent`, `totals.remaining` and `totals.overspent` from those rounded values (server/src/routes/summary.js:146-152). The model computes the totals from the unrounded line values, so they can differ. For example, three categories spending 0.004 each under a limit of 0.01 are reported overspent here, but not by the source (0 + 0 + 0).
- Summary.Handle: returns the report of Summary.Summarize, so its totals are unrounded in the same way.
- `NaN` arising from JavaScript coercion (`Number('')`, `parseInt`) is abstracted: `Num` is finite or not, and a query number is present or not.
- Non-string body values coerced with `String(...)` are modelled as strings. An absent string is "", as the source's `x || ''` gives.
- Lower-casing maps only A to Z. Unicode case mapping and normalisation are not modelled.
- The ObjectId format is not modelled. An id argument is absent, malformed or valid.
- The `q` filter of the budget list is a substring match, ignoring case. It is not the regular expression the source builds.
- Date strings are not parsed. A date argument is blank, a valid instant, or invalid.
- The 500 responses from the catch blocks for unexpected database errors are not modelled.
- The throws of `new ObjectId(userId)` and `new ObjectId(id)` on an id that is not a valid ObjectId are not modelled. They occur in create, list, summary and delete of `server/src/models/simpleTransaction.js`, and the model takes valid ids there.
- SimpleLedger.Summarize: `expensesByName` is a map here. The source fills a plain object `{}`, so a name such as `constructor` or `toString` starts from an inherited function and `__proto__` is never stored. For those names neither this contract nor SimpleLedger.ByNameAddsUp describes the source.
- Budgets.CheckAllocations: the message leaves out the sum and the total that the source writes into it (server/src/routes/budgets.js:58), since the text of a JavaScript number is not modelled.
- Register.Validate: a password's length is counted in characters. The source counts UTF-16 code units, which differ for characters outside the Basic Multilingual Plane.
- Password.ChangeCheck: its length check counts characters, not UTF-16 code units.
- Password.ResetCheck: its length check counts characters, not UTF-16 code units.
- EmailVerification.Resend: the answer's `dev_verifyLink`, which carries the live token, is not modelled.
- Password.Request: the answer's `dev_resetLink`, which carries the token, is not modelled. On an unknown login it links a token that was never stored.
- Register.Register: outside production the answer's `dev_verifyLink`, which carries the live verification token, is not modelled.
- Register.Register: the two readings of the clock are two parameters, `createdAt` and `now`, with no relation assumed between them.
- Transaction GET by id and PUT are not modelled. The client calls them, but the server does not implement them.
- The PHP endpoints and the React client are not part of this model.
- `server/src/lib/util.js` duplicates helpers of `server/src/routes/budgets.js`. It is modelled only through those helpers.
- `server/src/routes/simpleTransaction.js` is the HTTP shell over `server/src/models/simpleTransaction.js`. Only the model file is modelled.
- Calendar: the civil date of a day is proved to convert back to that day, but the converse direction (civil date to day to civil date) is not proved.
