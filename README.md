# Smart-Budget in Dafny

Smart-Budget is a personal-finance application. It has two halves:

- An Express/Mongoose backend keeps users, categories, transactions, savings goals and documents. Every one of those records belongs to a user.
- A React frontend keeps its own ledger, budget goals, documents and template accounts in the browser's `localStorage`. It computes summaries, charts and insights from them.

This project models the logic of both halves and proves what each operation promises.

## Backend

- **The store.** `Db.Store` is a class holding one sequence per record shape and a counter that hands out ids. Two pairs of controllers share a collection but are given separate sequences (see Left out). `Store.Valid()` says that ids are unique within every table and below the counter, and that no two users share a username or an email. Every controller method requires and keeps it.
- **Controllers.** Each controller is a module. An operation that writes is a `method` that `modifies` the tables it touches. Its `ensures` states the new tables and the error that leaves them unchanged.
- **Queries and aggregations.** These are functions. Their contracts state ownership filtering, sort orders, and sums that add up.
- **Error results.** `Result.Err` carries a `Failure`. Its status is the first code the controller passes to `res.status`, when it passes one. A later `catch` block may reset the code on the wire, and the model does not claim the final HTTP status.
- **The acting user.** It is an `Id` parameter. `req.user`, `req.user.id` and `req.user._id` are the same value for this model.
- **Crypto.** bcrypt and jsonwebtoken are the uninterpreted functions of `UserModel.Crypto`.

## Frontend

- **Storage.** The browser's storage is `Browser.LocalStorage`, a class with a `map<string, Value>` field. Its `SetItem` and `RemoveItem` methods are the only writers.
- **Writing handlers.** A page handler that writes storage is a method. Its `ensures` gives the new map.
- **Computations.** Summaries and charts are functions. Where the page fills a dictionary in a `forEach` or `for` loop, the loop is a method proved equal to the function.
- **Units.** Amounts are integers in minor units. Ratios and percentages are exact `real`s. JavaScript's `Infinity` and `NaN` from a division by zero are the `JsNum` datatype.
- **Dates.** They are `(year, month, day)` triples. The clock is a parameter.

## Model

| member | source | states |
|---|---|---|
| UserModel.UsernameError | backend/model/User.js:6-13 | a username passes exactly when it has 3 to 30 characters; an empty one gets "Username is required" |
| UserModel.EmailError | backend/model/User.js:14-21 | an email passes exactly when it is non-empty (the pattern is not modelled) |
| UserModel.PasswordError | backend/model/User.js:22-27 | a password passes exactly when it has at least 6 characters |
| UserModel.FirstError | backend/model/User.js:4-27 | validation reports the first failing field in schema order, and passes only when every field passes |
| UserModel.ValidationError | backend/model/User.js:4-27 | a new user passes exactly when all three field rules hold; an empty username gets "Username is required" |
| UserModel.SettersNormalise | backend/model/User.js:10-19 | the username and email setters are idempotent, and a stored email is its own lower case |
| UserModel.LowerTrimmed | backend/model/User.js:18-19 | lower-casing keeps a trimmed string trimmed |
| UserModel.PreSave | backend/model/User.js:42-58 | the hook hashes the password exactly when it was modified; otherwise the stored value is kept |
| UserModel.ToJson | backend/model/User.js:31-36 | the JSON form has every field of the user except `password` |
| UserModel.ComparePassword | backend/model/User.js:61-69 | the result is `compare(candidate, hash)` when the hash was loaded; without it the comparison throws "Password comparison failed" |
| CategoryModel.NameOrDefault | backend/model/Category.js:11-15 | a missing name is stored as "Unacategorized"; a given one as given |
| CategoryModel.ValidationError | backend/model/Category.js:5-21 | a category passes exactly when its name is non-empty and its type is absent or exactly "income"/"expense" |
| CategoryModel.DefaultsValidate | backend/model/Category.js:14-19 | a category with neither name nor type passes: it gets the default name, and the type is optional because `required` is misspelled |
| CategoryModel.EnumIsCaseSensitive | backend/model/Category.js:20 | "Expense" fails the enum although it lower-cases to "expense" |
| IsAuth.Token | backend/middlewares/isAuth.js:7 | the token is the second space-separated segment of the header, when that segment exists and is non-empty |
| IsAuth.IsAuthenticated | backend/middlewares/isAuth.js:4-31 | every rejection is 401; the request passes exactly when there is a token, it verifies, and its user id is stored; `req.user` is then that id |
| IsAuth.SchemeAndToken | backend/middlewares/isAuth.js:7 | a header `<scheme> <token>` of two space-free words splits into exactly those words, whatever the scheme |
| IsAuth.TokenOfBearerHeader | backend/middlewares/isAuth.js:7 | such a header yields the token word |
| IsAuth.NoSpaceRejected | backend/middlewares/isAuth.js:9-12 | a header with no space has no second segment and is rejected with "Not authorized - No token" |
| Db.AppendAccountOk | backend/model/User.js:9-17 | adding a user with a new username and a new email keeps both unique |
| Db.ReplaceAccountOk | backend/model/User.js:9-17 | replacing a user with one whose username and email nobody else holds keeps both unique |
| Db.Store.AddUser | backend/controllers/usersCtrl.js:29-33 | the user is appended with the next id, and the store stays valid |
| Db.Store.constructor | backend/config/dbConnect.js:1-27 | the store starts valid, with every collection empty |
| UsersCtrl.NotTakenFresh | backend/controllers/usersCtrl.js:19-26 | a username and email that the `$or` lookup does not find are held by nobody |
| UsersCtrl.IndexOfUser | backend/controllers/usersCtrl.js:133-138 | `findById`: the index of the user with that id, or the length of the table exactly when there is none |
| UsersCtrl.Register | backend/controllers/usersCtrl.js:8-56 | a missing field fails with 400 and a taken username or email with 400 "User already exists" (the code the controller sets first; its catch block then resets the wire status to `error.status || 500`); a failure adds nothing; success, which also needs the schema rules, appends exactly one user with the normalised fields and the hashed password, and replies with a token and the user without its password |
| UsersCtrl.Login | backend/controllers/usersCtrl.js:59-107 | a missing field fails with 400; an unknown email and a wrong password both fail with the same 401 "Invalid credentials" (the codes the controller sets first, before its catch block resets the wire status); success needs a stored user with that email whose hash the password matches, and replies with that user's token |
| UsersCtrl.GetProfile | backend/controllers/usersCtrl.js:110-129 | fails with 404 exactly when no user has the id; otherwise gives that user without the password |
| UsersCtrl.OrOld | backend/controllers/usersCtrl.js:140-141 | an empty field keeps the old value; a given one is stored after its setter |
| UsersCtrl.UpdateProfile | backend/controllers/usersCtrl.js:132-153 | a missing user fails with 404; otherwise the new username and email are the given ones after their setters, or the old ones for an empty field; the update fails with the first schema error when one fails, with the duplicate-key error when another user has that username or email, and succeeds exactly when neither happens; a failure changes nothing; success changes only that user's username and email |
| UsersCtrl.ChangePasswordAsWritten | backend/controllers/usersCtrl.js:156-176 | the handler as written: a missing field fails with 400 |
| UsersCtrl.ChangePasswordNeverSucceeds | backend/controllers/usersCtrl.js:164-172 | as written, every request for an existing user with both fields ends in "Password comparison failed", because the hash is not loaded |
| UsersCtrl.ChangePassword | backend/controllers/usersCtrl.js:156-186 | with the hash loaded: a missing field fails with 400; an unknown user fails with 404 "User not found"; a wrong current password fails with 401; a right one with a new password under 6 characters fails with the schema's password error; the change succeeds exactly when both fields are given, the new password has at least 6 characters and the current one matches the stored hash; a failure keeps the stored password; success stores the hash of the new password for that user only |
| CategoryCtrl.Recategorize | backend/controllers/categoryCtrl.js:64-71 | `updateMany`: a transaction of the acting user filed under the old name gets the new name; every other field and every other transaction is kept |
| CategoryCtrl.RecategorizeMoves | backend/controllers/categoryCtrl.js:64-71 | afterwards no transaction of the acting user carries the old name, and other users' transactions are unchanged |
| CategoryCtrl.RecategorizeIdempotent | backend/controllers/categoryCtrl.js:64-71 | running the cascade twice is running it once |
| CategoryCtrl.RecategorizeOk | backend/controllers/categoryCtrl.js:64-71 | the cascade keeps every id, so the table stays valid |
| CategoryCtrl.LowerOfKind | backend/controllers/categoryCtrl.js:19-20 | a type the enum accepts is its own lower case |
| CategoryCtrl.Create | backend/controllers/categoryCtrl.js:9-38 | a missing name or type fails; a type that is not income/expense in any case fails; success needs the enum's exact spelling and no category of this user with the lower-cased name; it appends one category with the lower-cased name and the type as given; failures add nothing |
| CategoryCtrl.Lists | backend/controllers/categoryCtrl.js:41-46 | exactly the acting user's categories |
| CategoryCtrl.Update | backend/controllers/categoryCtrl.js:49-74 | succeeds exactly when a name is given, name and type pass the schema, and some category has that id, whoever owns it; a failure changes nothing; success gives that category the raw name and the type, and recategorises the acting user's transactions only when the name changed |
| CategoryCtrl.Delete | backend/controllers/categoryCtrl.js:77-92 | an owned category is removed and the acting user's transactions filed under it become "uncategorized"; otherwise only the "not found" message is returned and nothing changes |
| CategoryCtrl.DeleteTwice | backend/controllers/categoryCtrl.js:77-92 | deleting the same category a second time returns the "not found" message and changes nothing: the two calls leave exactly the state one call leaves |
| TransactionCtrl.OfUser | backend/controllers/transactionCtrl.js:26 | exactly the acting user's transactions |
| TransactionCtrl.KindTotalAbsent | backend/controllers/transactionCtrl.js:72-73 | a type that no transaction has totals 0, the `|| 0` of an empty aggregate |
| TransactionCtrl.KindTotalPermutation | backend/controllers/transactionCtrl.js:30-38 | a type's total does not depend on the order of the records |
| TransactionCtrl.CategorySpentPermutation | backend/controllers/transactionCtrl.js:57-65 | a category's total does not depend on the order of the records |
| TransactionCtrl.KindTotalSnoc | backend/controllers/transactionCtrl.js:30-38 | one more record adds its amount to its own type's total only |
| TransactionCtrl.ExpensePairsTotal | backend/controllers/transactionCtrl.js:57-65 | the expense amounts keyed by category add up to the expense total |
| TransactionCtrl.MonthOrderIsLexicographic | backend/controllers/transactionCtrl.js:53 | the sort key orders by year, then month |
| TransactionCtrl.CategoryTotals | backend/controllers/transactionCtrl.js:57-65 | one entry per distinct expense category, each the sum of that category, all adding up to the expense total |
| TransactionCtrl.MonthlyData | backend/controllers/transactionCtrl.js:41-54 | one entry per (year, month, type) present and no key twice, each the sum of its group, ordered by year, then month |
| TransactionCtrl.GetAll | backend/controllers/transactionCtrl.js:25-80 | the acting user's transactions and only those, newest first; income and expense totals; balance = income - expenses; category totals adding up to the expenses; the monthly groups |
| TransactionCtrl.Create | backend/controllers/transactionCtrl.js:6-22 | one record is appended, owned by the acting user, dated `now` when no date is given |
| TransactionCtrl.Apply | backend/controllers/transactionCtrl.js:87-91 | an update sets each of type, amount, category, description and date that the body gives and keeps each one it leaves out, and keeps the id and the owner |
| TransactionCtrl.ApplyIdempotent | backend/controllers/transactionCtrl.js:87-91 | the same update twice is the update once, and an empty body changes nothing |
| TransactionCtrl.FindOwned | backend/controllers/transactionCtrl.js:108-111 | the index of the record with this id and this owner, or the table's length exactly when there is none |
| TransactionCtrl.Update | backend/controllers/transactionCtrl.js:83-102 | fails with 404 exactly when the acting user owns no record with that id, and then changes nothing; otherwise only that record changes |
| TransactionCtrl.Delete | backend/controllers/transactionCtrl.js:105-122 | fails with 404 exactly when the acting user owns no record with that id, and then removes nothing; otherwise exactly that record is removed |
| GoalCtrl.Create | backend/controllers/goalCtrl.js:6-23 | one goal is appended, owned by the acting user, with current amount 0 and status "ongoing" |
| GoalCtrl.OfUser | backend/controllers/goalCtrl.js:27 | exactly the acting user's goals |
| GoalCtrl.CountPairsTotal | backend/controllers/goalCtrl.js:36 | counting 1 per goal adds up to the number of goals |
| GoalCtrl.Stats | backend/controllers/goalCtrl.js:31-54 | one bucket per status present, in first-seen order, with the count and the sums of targets and currents of that status; each status present has exactly one bucket and no other status has one; the counts add up to the number of goals and the target sums to the sum of all targets |
| GoalCtrl.GetAll | backend/controllers/goalCtrl.js:26-57 | the acting user's goals and only those, by deadline ascending, with their stats |
| GoalCtrl.Apply | backend/controllers/goalCtrl.js:64-68 | an update sets each of name, target, current amount, deadline, description and status that the body gives and keeps each one it leaves out, keeps id and owner, and recomputes nothing |
| GoalCtrl.UpdateKeepsStatus | backend/controllers/goalCtrl.js:64-68 | setting the current amount past the target leaves an ongoing goal ongoing |
| GoalCtrl.FindOwned | backend/controllers/goalCtrl.js:106-111 | the index of the goal with this id and this owner, or the table's length exactly when there is none |
| GoalCtrl.Update | backend/controllers/goalCtrl.js:60-79 | fails with 404 exactly when the acting user owns no goal with that id, and then changes nothing; otherwise only that goal changes |
| GoalCtrl.Delete | backend/controllers/goalCtrl.js:82-99 | fails with 404 exactly when the acting user owns no goal with that id, and then removes nothing; otherwise exactly that goal is removed |
| GoalCtrl.Advance | backend/controllers/goalCtrl.js:113-118 | the amount is added to the current amount; reaching the target sets "completed"; below it the status is kept; nothing else changes |
| GoalCtrl.AdvanceMonotone | backend/controllers/goalCtrl.js:113-118 | a non-negative amount never lowers the current amount; a completed goal stays completed; the step never sets "ongoing" |
| GoalCtrl.AdvanceMayOvershoot | backend/controllers/goalCtrl.js:113-118 | the current amount may pass the target: 150 of 100 is stored as 150 and completed |
| GoalCtrl.UpdateProgress | backend/controllers/goalCtrl.js:102-126 | fails with 404 exactly when the acting user owns no goal with that id, and then changes nothing; otherwise only that goal advances |
| FinanceCtrl.SumByType | backend/controllers/financeController.js:13-23 | the loop yields the income total and the expense total |
| FinanceCtrl.KindTotalsStep | backend/controllers/financeController.js:14-20 | one more record adds its amount to the income total or the expense total, by its type |
| FinanceCtrl.GetFinanceSummary | backend/controllers/financeController.js:5-32 | the acting user's income and expense totals, and net balance = income - expenses |
| FinanceCtrl.OtherTypesIgnored | backend/controllers/financeController.js:15-19 | a record of any other type leaves both totals unchanged |
| FinanceCtrl.GetCategoryExpenses | backend/controllers/financeController.js:35-47 | the acting user's per-category expense totals, largest first |
| FinanceCtrl.CategoryExpensesEntries | backend/controllers/financeController.js:38-42 | each entry is its category's total, and a category has an entry exactly when the user has an expense in it |
| FinanceCtrl.FirstIsLargest | backend/controllers/financeController.js:86-87 | the first entry after the descending sort is no smaller than any entry |
| FinanceCtrl.TopCategory | backend/controllers/financeController.js:78-92 | the category named by the recommendation has a maximal expense total |
| FinanceCtrl.SpendingKeys | backend/controllers/financeController.js:78-83 | the dictionary's keys are exactly the categories of the user's expenses |
| FinanceCtrl.SpendingStep | backend/controllers/financeController.js:79-83 | one more record adds its amount to its category's entry when it is an expense, and leaves the dictionary as it was otherwise |
| FinanceCtrl.CategorySpending | backend/controllers/financeController.js:78-83 | the loop builds the per-category expense dictionary |
| FinanceCtrl.HighestSpending | backend/controllers/financeController.js:85-93 | there is a highest category exactly when the user has an expense, and it has a maximal total |
| FinanceCtrl.GetFinancialInsights | backend/controllers/financeController.js:50-99 | `spendingTrends` is empty; there is at most one alert and at most one recommendation; the alert is there exactly when 10 x expenses > 9 x income; the recommendation is there exactly when some expense exists, and it names a top category |
| FinanceCtrl.RecentExpenses | backend/controllers/financeController.js:110-114 | exactly the user's expenses dated on or after the given day |
| FinanceCtrl.GetSpendingPatterns | backend/controllers/financeController.js:102-132 | the expenses since one month before `now`, summed per (category, day of month), ordered by day |
| FinanceCtrl.SpendingPatternEntries | backend/controllers/financeController.js:116-125 | each entry sums its (category, day) group, and a group has an entry exactly when some recent expense falls in it |
| DocumentCtrl.Upload | backend/controllers/documentCtrl.js:6-23 | one document is appended, owned by the acting user and dated `now` |
| DocumentCtrl.OfUser | backend/controllers/documentCtrl.js:27 | exactly the acting user's documents |
| DocumentCtrl.ByType | backend/controllers/documentCtrl.js:31-40 | per file type present, the number of documents and the sum of their sizes |
| DocumentCtrl.Stats | backend/controllers/documentCtrl.js:31-56 | `totalFiles` is the number of documents; `totalSize` is the sum of the per-type sizes and equals the size of all documents; the per-type counts add up to the number of documents; each file type present has exactly one bucket and no other type has one |
| DocumentCtrl.CountTotal | backend/controllers/documentCtrl.js:36 | counting 1 per document adds up to the number of documents |
| DocumentCtrl.GetAll | backend/controllers/documentCtrl.js:26-59 | the acting user's documents, newest upload first, and `totalFiles` is their count |
| DocumentCtrl.FindOwned | backend/controllers/documentCtrl.js:65-68 | the index of the document with this id and owner, or the table's length exactly when there is none |
| DocumentCtrl.GetOne | backend/controllers/documentCtrl.js:62-79 | fails with 404 exactly when the acting user owns no document with that id; otherwise gives that document |
| DocumentCtrl.Retitle | backend/controllers/documentCtrl.js:84-91 | an update sets only the title and the description the body gives |
| DocumentCtrl.Update | backend/controllers/documentCtrl.js:82-101 | fails with 404 exactly when the acting user owns no document with that id, and then changes nothing; otherwise only that document's title and description change |
| DocumentCtrl.Delete | backend/controllers/documentCtrl.js:104-124 | fails with 404 exactly when the acting user owns no document with that id, and then removes nothing; otherwise exactly that document is removed |
| GoalsCtrl.CreateGoal | backend/controllers/goalsCtrl.js:7-19 | one goal is appended, owned by the acting user, with current amount 0 |
| GoalsCtrl.GetGoals | backend/controllers/goalsCtrl.js:24-27 | exactly the acting user's goals |
| GoalsCtrl.IndexOfGoal | backend/controllers/goalsCtrl.js:33 | the index of the goal with this id, or the table's length exactly when there is none |
| GoalsCtrl.Apply | backend/controllers/goalsCtrl.js:46-50 | an update stores each of owner, name, target, deadline and current amount that the body gives, as given, keeps each one it leaves out, and keeps the id |
| GoalsCtrl.Check | backend/controllers/goalsCtrl.js:33-44 | passes exactly for an owned goal; a missing id gives 404, and another user's goal gives 401 |
| GoalsCtrl.UpdateGoal | backend/controllers/goalsCtrl.js:32-53 | fails as the check does, and then changes nothing; otherwise the owned goal takes the body's fields |
| GoalsCtrl.UpdateMayTransfer | backend/controllers/goalsCtrl.js:46-50 | the body may name another owner, and the goal then passes to that user |
| GoalsCtrl.DeleteGoal | backend/controllers/goalsCtrl.js:58-74 | fails as the check does, and then removes nothing; otherwise exactly the owned goal is removed |
| GoalController.AddGoal | backend/controllers/goalController.js:4-20 | one goal is appended, linked to the acting user through `userId` |
| GoalController.GetGoals | backend/controllers/goalController.js:23-30 | exactly the goals whose `userId` is the acting user |
| GoalController.DeleteGoal | backend/controllers/goalController.js:33-41 | fails with 404 "Goal not found or unauthorized" exactly when no goal has both the id and the acting user's `userId`, and then removes nothing; otherwise that goal is removed |
| DocumentsCtrl.UploadDocument | backend/controllers/documentsCtrl.js:9-25 | fails with 400 exactly when there is no file, and then creates nothing; otherwise one record is appended, copying the upload's name, file name, type, size and path, owned by the acting user |
| DocumentsCtrl.GetDocuments | backend/controllers/documentsCtrl.js:30-33 | exactly the acting user's records |
| DocumentsCtrl.Check | backend/controllers/documentsCtrl.js:39-50 | passes exactly for an owned record; a missing id gives 404, and another user's record gives 401 |
| DocumentsCtrl.DownloadDocument | backend/controllers/documentsCtrl.js:38-54 | fails as the check does; otherwise gives the stored path and the original name |
| DocumentsCtrl.DeleteDocument | backend/controllers/documentsCtrl.js:59-82 | fails as the check does, and then removes nothing; otherwise the record is removed whether or not the unlink failed |
| DocumentController.AddDocument | backend/controllers/documentController.js:4-17 | one link is appended with the title, the URL and whatever user id the request carried |
| DocumentController.GetDocuments | backend/controllers/documentController.js:20-27 | exactly the links whose user is the request's user |
| DocumentController.DeleteDocument | backend/controllers/documentController.js:30-40 | fails with 404 exactly when no link has the id, and then removes nothing; otherwise the link is removed whoever owns it |
| Browser.LedgerKey | frontend/src/components/Transactions/Transactions.jsx:54 | `transactions_<id>` is 13 characters longer than the id |
| Browser.LedgerKeyInjective | frontend/src/components/Transactions/Transactions.jsx:54 | different users have different ledger keys |
| Browser.LocalStorage.SetItem | frontend/src/components/Transactions/Transactions.jsx:162 | the key now holds the value, and every other key is unchanged |
| Browser.LocalStorage.RemoveItem | frontend/src/components/Shared/DashboardLayout.jsx:15 | the key is gone, and every other key is unchanged |
| Ledger.FirstMatchFound | frontend/src/components/Transactions/Transactions.jsx:84-86 | `find` succeeds exactly when some listed name lower-cases to the typed text, and then gives such a name |
| Ledger.CanonicalMatches | frontend/src/components/Transactions/Transactions.jsx:83-86 | a category that matches a listed name once trimmed and lower-cased is shown under a listed spelling; one that matches none is shown as typed |
| Ledger.ListedAreTrimmed | frontend/src/components/Transactions/Transactions.jsx:19-22 | no listed category has surrounding white space |
| Ledger.SpellingsMerge | frontend/src/components/Transactions/Transactions.jsx:83-86 | two spellings that agree once trimmed and lower-cased are shown the same way |
| Ledger.PaddedCategoryListed | frontend/src/components/Transactions/Transactions.jsx:83-86 | " fOOd " is shown as "Food" |
| Ledger.CanonicalIdempotent | frontend/src/components/Transactions/Transactions.jsx:83-86 | showing a shown category again changes nothing |
| Ledger.SummaryStep | frontend/src/components/Transactions/Transactions.jsx:81-94 | one more record adds its amount to the income total if it is an income, and otherwise to the expense total and to its shown category |
| Ledger.CalculateSummary | frontend/src/components/Transactions/Transactions.jsx:76-99 | the loop yields the income total, the total of all other amounts, and the per-category expense dictionary |
| Ledger.CategoriesAddUp | frontend/src/components/Transactions/Transactions.jsx:90-92 | the category dictionary adds up to the expense total |
| Ledger.CategoryEntries | frontend/src/components/Transactions/Transactions.jsx:90-92 | a category has an entry exactly when some expense is shown under it, and the entry is the sum of those expenses |
| Ledger.TotalsShareOut | frontend/src/components/Transactions/Transactions.jsx:88-93 | income plus expenses is the sum of all amounts |
| Ledger.SummaryPermutation | frontend/src/components/Transactions/Transactions.jsx:63-68 | reordering the records changes neither total, nor the set of categories in the expense dictionary, nor any category's expense total |
| Ledger.PrepareChartData | frontend/src/components/Transactions/Transactions.jsx:193-211 | the loop sums every record, of either kind, under its shown category |
| Ledger.ChartAddsUp | frontend/src/components/Transactions/Transactions.jsx:193-211 | the chart's slices add up to income plus expenses |
| Ledger.Load | frontend/src/components/Transactions/Transactions.jsx:46-74 | without a signed-in user, nothing; otherwise the stored records, newest first |
| Ledger.Replace | frontend/src/components/Transactions/Transactions.jsx:153-155 | editing keeps the list's length; each record with the edited id becomes the new record and every other stays in place |
| Ledger.Saved | frontend/src/components/Transactions/Transactions.jsx:151-160 | with no record being edited the new record is appended; when editing, the list keeps its length, each record with the edited id becomes the new record and the others stay in place; nothing else enters the list |
| Ledger.Submit | frontend/src/components/Transactions/Transactions.jsx:124-177 | without a user, "Please log in to add transactions" and storage unchanged; otherwise the record gets the edited id or `now`, replaces the edited records or is appended, and the list is stored under the user's key |
| Ledger.Delete | frontend/src/components/Transactions/Transactions.jsx:179-190 | the shown records with this id are dropped, and the rest is stored under the user's key when one is signed in |
| Ledger.WithoutMembers | frontend/src/components/Transactions/Transactions.jsx:180 | deleting keeps exactly the records with another id |
| Ledger.WithoutAbsent | frontend/src/components/Transactions/Transactions.jsx:180 | deleting an id that no record carries changes nothing |
| Ledger.WithoutIdempotent | frontend/src/components/Transactions/Transactions.jsx:180 | deleting twice is deleting once |
| Ledger.ReplaceKeepsOthers | frontend/src/components/Transactions/Transactions.jsx:153-155 | editing touches only the records with the edited id |
| Ledger.ReplaceHolds | frontend/src/components/Transactions/Transactions.jsx:153-155 | the edited record is in the list afterwards exactly when some record had its id or equalled it |
| Ledger.AddKeepsOthers | frontend/src/components/Transactions/Transactions.jsx:158 | adding leaves every record with another id in place |
| Ledger.AddRaisesTotal | frontend/src/components/Transactions/Transactions.jsx:158 | adding raises its kind's total by its amount and leaves the other total unchanged |
| Sorting.SortDescInPlace | frontend/src/components/Transactions/Transactions.jsx:63-65 | the in-place sort leaves the array ordered by non-increasing date and a permutation of what it held |
| Sorting.LoadSortedDesc | frontend/Templates/Users/Dashboard/Dashboard.jsx:66-68 | the loaded list is sorted newest first and holds the same records |
| MonthChart.MonthStep | frontend/Templates/Users/Dashboard/Dashboard.jsx:104-115 | one more record opens its month's bar at zero when missing and adds its amount to the income column or the expense column |
| MonthChart.Accumulate | frontend/Templates/Users/Dashboard/Dashboard.jsx:104-115 | the loop yields the month bars: the records' income and other amounts grouped by month key |
| MonthChart.BarsAddUp | frontend/Templates/Users/Dashboard/Dashboard.jsx:104-115 | the incomes of the bars add up to the income total, and their expenses to the expense total |
| MonthChart.BarsByMonth | frontend/Templates/Users/Dashboard/Dashboard.jsx:104-115 | there is one bar per month key, and a bar for a key exactly when some record has it |
| MonthChart.BarsSums | frontend/Templates/Users/Dashboard/Dashboard.jsx:104-115 | each bar holds its month's income and other amounts, and no two bars share a month |
| MonthChart.BarsCover | frontend/Templates/Users/Dashboard/Dashboard.jsx:104-115 | the months with a bar are exactly the months of the records |
| TemplateDashboard.MonthlyData | frontend/Templates/Users/Dashboard/Dashboard.jsx:104-115 | no two bars share a month number, and a month number has a bar exactly when some record is dated in it, in any year |
| TemplateDashboard.YearsShareABar | frontend/Templates/Users/Dashboard/Dashboard.jsx:105 | any two records of the same month number share one bar, whatever their years, because the key is the month name only |
| TemplateDashboard.Recent | frontend/Templates/Users/Dashboard/Dashboard.jsx:206 | the table shows the first ten records, or all of them when there are fewer |
| TemplateDashboard.RecentAreLatest | frontend/Templates/Users/Dashboard/Dashboard.jsx:206 | on the sorted list, no record left out of the table is newer than one shown |
| UserDashboard.Tally | frontend/src/components/Users/Dashboard/Dashboard.jsx:28-35 | the income total is the sum of the "income" amounts, and the two totals share out all amounts |
| UserDashboard.Serve | backend/app.js:21-31 | a GET reaches `getAll` exactly on `/transactions`, which answers "success" with the listing object; any other path gets the 404 that makes the request fail |
| UserDashboard.Shown | frontend/src/components/Users/Dashboard/Dashboard.jsx:27-42 | the view of a list shows that list, its "income" total, totals that share out all amounts, and balance = income - expenses |
| UserDashboard.Fetch | frontend/src/components/Users/Dashboard/Dashboard.jsx:22-50 | a "success" reply whose data is a list (or missing, read as an empty list) replaces the list and the totals, with balance = income - expenses; a reply whose data is an object, another status or a rejected request keeps the list and the totals shown; loading ends either way |
| UserDashboard.DashboardStaysEmpty | frontend/src/components/Users/Dashboard/Dashboard.jsx:22-50 | as written the list shown never changes: the service path gets a 404, and the listing route's reply is an object; from the initial view only loading ends |
| UserDashboard.FetchListing | frontend/src/components/Users/Dashboard/Dashboard.jsx:22-50 | the intended fetch shows the records under the listing's `transactions` with their totals, and treats every other reply as the dashboard does |
| UserDashboard.ListingShown | frontend/src/components/Users/Dashboard/Dashboard.jsx:27-42 | fetched as intended, the dashboard shows the acting user's records as the backend lists them, newest first |
| UserDashboard.ListingTotals | backend/controllers/transactionCtrl.js:66-79 | the totals shown for the backend's listing are its own: the income total always, and the expense total and balance when every record is income or expense |
| UserDashboard.TwoKindsShareOut | frontend/src/components/Users/Dashboard/Dashboard.jsx:28-35 | when every record is income or expense, the sum of all amounts is the two type totals together |
| UserDashboard.AgreesWithListing | frontend/src/components/Users/Dashboard/Dashboard.jsx:31-32 | when every record is income or expense, the dashboard's expense total of a list is that list's "expense" total, the sum the backend computes for the same records |
| DocumentsPage.HandleFileUpload | frontend/src/components/Documents/Documents.jsx:36-79 | no files does nothing; no user gives "Please log in to upload documents" and changes nothing; otherwise the accepted files are appended after the shown documents, in upload order, and the list is stored under the user's key |
| DocumentsPage.AcceptedExactly | frontend/src/components/Documents/Documents.jsx:48-65 | a document is kept exactly when it comes from a picked file of at most 5 MB at its index, keeping that file's name, type and size |
| DocumentsPage.AllAccountedFor | frontend/src/components/Documents/Documents.jsx:48-65 | every picked file is either kept or reported as too large |
| DocumentsPage.TooLargeNames | frontend/src/components/Documents/Documents.jsx:50-53 | a name is reported exactly when a file of that name is over 5 x 1024 x 1024 bytes, so a file of exactly that size is kept |
| DocumentsPage.LoadDocuments | frontend/src/components/Documents/Documents.jsx:14-34 | without a user, nothing; otherwise the list stored under the user's key |
| DocumentsPage.HandleDelete | frontend/src/components/Documents/Documents.jsx:81-95 | the documents with this id are dropped, and the rest is stored when a user is signed in |
| DocumentsPage.WithoutDocMembers | frontend/src/components/Documents/Documents.jsx:83 | deleting keeps exactly the documents with another id |
| DocumentsPage.UnitIndex | frontend/src/components/Documents/Documents.jsx:123 | the unit index is the power of 1024 that the size lies between |
| DocumentsPage.FormatFileSize | frontend/src/components/Documents/Documents.jsx:119-125 | 0 gives "0 Bytes"; otherwise the size scaled to its unit, a value from 1 up to 1024, under `sizes[i]` ("undefined" past GB) |
| DocumentsPage.SizeLabels | frontend/src/components/Documents/Documents.jsx:119-125 | 1536 bytes read as 1.5 KB, and the upload limit reads as 5 MB |
| BudgetGoals.AvailableMonths | frontend/src/components/Budget/BudgetGoals.jsx:31-46 | the loop yields 12 months, the i-th being i months after the current one |
| BudgetGoals.MonthsInSequence | frontend/src/components/Budget/BudgetGoals.jsx:37-44 | the first month is the current month, each is the month after the one before, and all are different |
| BudgetGoals.ReplaceGoal | frontend/src/components/Budget/BudgetGoals.jsx:100-104 | editing keeps the list's length; each goal with the edited id becomes the new goal and every other stays in place |
| BudgetGoals.SaveGoal | frontend/src/components/Budget/BudgetGoals.jsx:70-108 | a saved list needs a month; a new goal, stamped with `now`, is appended to the goals; an edit keeps the list's length, replaces each goal with the edited id by the new goal with that id and keeps the others in place |
| BudgetGoals.SaveGoalRefusals | frontend/src/components/Budget/BudgetGoals.jsx:70-108 | an empty month is refused; a goal with another id for the same month and category is refused; otherwise the save succeeds |
| BudgetGoals.SaveGoalKeepsNoClash | frontend/src/components/Budget/BudgetGoals.jsx:88-107 | if no two goals shared a (month, category) before a save, none do after it |
| BudgetGoals.SavedGoalListed | frontend/src/components/Budget/BudgetGoals.jsx:99-107 | after a save the new goal is in the list, for an edit whenever the edited id is stored |
| BudgetGoals.HandleSubmit | frontend/src/components/Budget/BudgetGoals.jsx:70-119 | the goal list is stored only when the save succeeds and a user is signed in; a refusal changes nothing |
| BudgetGoals.HandleDelete | frontend/src/components/Budget/BudgetGoals.jsx:130-140 | the goals with this id are dropped, and the rest is stored |
| BudgetGoals.WithoutGoalKeeps | frontend/src/components/Budget/BudgetGoals.jsx:131 | deleting keeps exactly the goals with another id, and keeps (month, category) unique |
| BudgetGoals.LoadGoals | frontend/src/components/Budget/BudgetGoals.jsx:48-68 | without a user, nothing; otherwise the stored goals |
| BudgetGoals.CalculateProgress | frontend/src/components/Budget/BudgetGoals.jsx:142-178 | without a user or a stored ledger, spent 0, remaining = amount and percentage 0; otherwise spent is the sum of the expenses of the goal's month whose category matches ignoring case, remaining = max(0, amount - spent), the percentage is NaN or at most 100, within a positive budget it is spent x 100 / amount, and over a positive budget it is exactly 100 |
| BudgetGoals.PercentAtMostHundred | frontend/src/components/Budget/BudgetGoals.jsx:168-173 | `Math.min(100, ...)` never gives more than 100 |
| BudgetGoals.CaseInsensitive | frontend/src/components/Budget/BudgetGoals.jsx:156-166 | one more expense of the goal's month whose category matches ignoring case adds its amount to what the goal has spent |
| BudgetGoals.SpentSnoc | frontend/src/components/Budget/BudgetGoals.jsx:156-166 | one more record adds its amount to what a goal has spent exactly when the goal counts it, and nothing otherwise |
| BudgetGoals.OnlyCountedSpend | frontend/src/components/Budget/BudgetGoals.jsx:156-166 | when no record is an expense of the goal's month and category, spent is 0 |
| Insights.MonthlyTrends | frontend/src/components/Insights/FinancialInsights.jsx:69-95 | one entry per month present, in ascending order, with that month's income and other amounts and savings = income - expense |
| Insights.SortedBarsAreTrends | frontend/src/components/Insights/FinancialInsights.jsx:87-94 | the month bars, sorted by month, are the trends |
| Insights.TrendSums | frontend/src/components/Insights/FinancialInsights.jsx:72-85 | each trend sums its month's incomes and its month's other amounts |
| Insights.TrendMonths | frontend/src/components/Insights/FinancialInsights.jsx:72-85 | the trends' months are exactly the months of the records |
| Insights.CategoryBreakdown | frontend/src/components/Insights/FinancialInsights.jsx:97-116 | the loop yields the expense totals per exact category string, each with percentage 0, as a permutation ordered by non-increasing amount |
| Insights.ExpenseTable | frontend/src/components/Insights/FinancialInsights.jsx:97-116 | the expense dictionary has each category at most once, a category exactly when some expense is filed under it, and the sum of that category's expenses |
| Insights.BreakdownEntries | frontend/src/components/Insights/FinancialInsights.jsx:100-115 | each entry is its category's expense total; categories are distinct; a category has an entry exactly when some expense has it |
| Insights.ShareSums | frontend/src/components/Insights/FinancialInsights.jsx:100-107 | each share carries its category's expense sum |
| Insights.ShareCategories | frontend/src/components/Insights/FinancialInsights.jsx:100-107 | the shares' categories are exactly the expenses' categories |
| Insights.Performed | frontend/src/components/Insights/FinancialInsights.jsx:119-141 | the row's spending is the sum of expenses on that exact category in the goal's month; with a non-zero budget the percentage is finite and percentage x budget = spent x 100 |
| Insights.BudgetPerformance | frontend/src/components/Insights/FinancialInsights.jsx:118-143 | one row per goal, in goal order |
| Insights.StatusMeaning | frontend/src/components/Insights/FinancialInsights.jsx:127-139 | for a positive budget, within exactly when spent <= budget; for a 0 budget, only a negative spend is within (0/0 is NaN); for a negative budget, within exactly when spent >= budget |
| Insights.PercentOfLimit | frontend/src/components/Insights/FinancialInsights.jsx:131-133 | a finite percentage is at most 100 exactly when the spend is within the positive budget |
| Insights.CaseMatters | frontend/src/components/Insights/FinancialInsights.jsx:122-125 | an expense filed as "food" counts for a "food" goal of the budget page but not for a "Food" row here |
| Insights.SavingsRate | frontend/src/components/Insights/FinancialInsights.jsx:145-162 | 0 when income is 0 or less; otherwise rate x income = (income - expense) x 100 |
| Insights.SavingsRateMeaning | frontend/src/components/Insights/FinancialInsights.jsx:145-162 | with positive income the rate is 100 exactly when nothing was spent, negative exactly when expense exceeds income, and at most 100 for non-negative expense |
| Insights.TopOfSorted | frontend/src/components/Insights/FinancialInsights.jsx:164-175 | the first min(5, n) records of the descending sort are the top expenses |
| Insights.TopExpenses | frontend/src/components/Insights/FinancialInsights.jsx:164-175 | at most 5 records, all expenses, by non-increasing amount, and no left-out expense is larger than one kept |
| Insights.Change | frontend/src/components/Insights/FinancialInsights.jsx:200-202 | 100 when last month is 0; otherwise change x last = (this - last) x 100 |
| Insights.MonthlyComparison | frontend/src/components/Insights/FinancialInsights.jsx:177-209 | this month's expenses, the previous calendar month's expenses, and their change |
| Insights.MonthlyComparisonAsWritten | frontend/src/components/Insights/FinancialInsights.jsx:177-209 | as written: this month's expenses and the change are as intended, and last month is the calendar month before from February on, but in January it is month 0 of the previous year |
| Insights.JanuaryCountsNothing | frontend/src/components/Insights/FinancialInsights.jsx:191-198 | as written, in January last month's total is 0 whatever was spent |
| Insights.NothingSpent | frontend/src/components/Insights/FinancialInsights.jsx:191-198 | a month filter that no record passes sums to 0 |
| Insights.DecemberMissed | frontend/src/components/Insights/FinancialInsights.jsx:191-198 | an expense of 50 in December 2023, seen in January 2024: the code as written reports 0 for last month, and the corrected comparison reports 50 |
| Insights.PreviousMonth | frontend/src/components/Insights/FinancialInsights.jsx:191-198 | January's previous month is December of the year before, and outside January the written and the corrected comparisons agree |
| Insights.ChangeSign | frontend/src/components/Insights/FinancialInsights.jsx:200-202 | with a positive last month, the change is positive exactly when spending rose |
| Insights.LoadInsights | frontend/src/components/Insights/FinancialInsights.jsx:38-67 | without a user, nothing; otherwise all six analyses over the user's ledger and budget goals |
| TemplateAuth.SignUp | frontend/Templates/Users/Register/Register.jsx:22-61 | differing passwords give "Passwords do not match", and a registered email gives "Email already registered"; success appends exactly one account, whose id is its email |
| TemplateAuth.SignUpKeepsUnique | frontend/Templates/Users/Register/Register.jsx:34-49 | registration keeps emails unique |
| TemplateAuth.Register | frontend/Templates/Users/Register/Register.jsx:22-61 | on success the list is stored and the new account's ledger is set to empty; a refusal changes nothing |
| TemplateAuth.SignIn | frontend/Templates/Users/Login/Login.jsx:27-39 | succeeds exactly when some account has this email and this password, and then gives that account's session, whose id is the account id or, when empty, the email; otherwise "Invalid email or password" |
| TemplateAuth.Login | frontend/Templates/Users/Login/Login.jsx:20-58 | on success the session is written and the ledger is set to empty only when absent; on failure nothing is written |
| TemplateAuth.RegisterThenSignIn | frontend/Templates/Users/Register/Register.jsx:40-49 | a registered account signs in with its password, with its email as its session id |
| TemplateAuth.SignInIsTheAccount | frontend/Templates/Users/Login/Login.jsx:27-30 | with unique emails, only the password stored for an email lets it in, and the session is that account's |
| DashboardLayout.AtMostOneActive | frontend/src/components/Shared/DashboardLayout.jsx:9 | among distinct paths at most one link is highlighted, and one is exactly when the page is one of them |
| DashboardLayout.NavPathsDistinct | frontend/src/components/Shared/DashboardLayout.jsx:50-75 | the menu's five paths are all different |
| DashboardLayout.AfterLogout | frontend/src/components/Shared/DashboardLayout.jsx:15-23 | a key survives logout exactly when it is not `user` and not a form-data key, and survivors keep their values |
| DashboardLayout.HandleLogout | frontend/src/components/Shared/DashboardLayout.jsx:11-41 | removing `user` and then each collected form-data key leaves exactly the storage after logout |
| DashboardLayout.LogoutKeeps | frontend/src/components/Shared/DashboardLayout.jsx:15-23 | `token` is kept, the ledger of a user whose id has no `_` is kept, and logging out twice is logging out once |
| DashboardLayout.LedgerKeyNotForm | frontend/src/components/Shared/DashboardLayout.jsx:18-22 | the ledger key of an id without `_` is not a form-data key |
| DashboardLayout.LedgerKeyCanLookLikeForm | frontend/src/components/Shared/DashboardLayout.jsx:18-22 | the ledger key of an id starting with `form_` contains `_form_`, so logout deletes that ledger |
| AuthSlice.RejectionMessage | frontend/src/redux/slice/authSlice.js:21 | the rejection carries the server's message, or "Invalid credentials" when there is none |
| AuthSlice.StoredToken | frontend/src/redux/slice/authSlice.js:29 | an empty stored token reads as none |
| AuthSlice.LoginSurvivesReload | frontend/src/redux/slice/authSlice.js:55-63 | a store loaded after a login reads back that user and that token |
| AuthSlice.LogoutSurvivesReload | frontend/src/redux/slice/authSlice.js:39-47 | a store loaded after `logoutAction` finds nobody signed in; the layout's logout keeps the token |
| AuthSlice.AuthState.constructor | frontend/src/redux/slice/authSlice.js:27-32 | user and token come from storage or are none; loading is false and error is none |
| AuthSlice.AuthState.Logout | frontend/src/redux/slice/authSlice.js:39-47 | user, token and error become none, loading is kept, and both keys leave storage |
| AuthSlice.AuthState.Pending | frontend/src/redux/slice/authSlice.js:51-54 | loading is true and error none; user and token are unchanged |
| AuthSlice.AuthState.Fulfilled | frontend/src/redux/slice/authSlice.js:55-63 | loading is false, user is the reply and token its token, both stored; error is unchanged |
| AuthSlice.AuthState.Rejected | frontend/src/redux/slice/authSlice.js:64-67 | loading is false and error is the payload; user and token are unchanged |
| AuthSlice.LoginThenReload | frontend/src/redux/slice/authSlice.js:27-63 | after pending and fulfilled, a new store built from storage has the logged-in user and token, not loading, and no error |

Generic helpers carry contracts of their own but model nothing by themselves. They are the sequence filters of `Seqs`, the group-by-and-sum of `Grouping`, the sorts of `Sorting`, and the string and date helpers of `Common`. The pair builders that feed a group-by (`TransactionCtrl.KindPairs`, `TransactionCtrl.CategoryPairs`, `TransactionCtrl.MonthPairs` and their like) are helpers of the same kind.

## Left out

- HTTP and Express plumbing (routers, `asyncHandler`, the error handler, status codes on the wire): a failure is a `Failure` tagged with the code the controller set, and no final HTTP status is claimed.
- Mongoose and MongoDB: query casting, `runValidators` on updates, pipeline stages beyond group, sum and sort, and the order MongoDB emits groups in. Groups come in first-seen order of the stored records.
- Concurrency: the two-step category cascades are sequential steps; their non-atomicity is not modelled.
- bcrypt and jsonwebtoken: `hash`, `compare`, `sign` and `verify` are uninterpreted. Salting, keys, the 30-day expiry and the `invalid token` text of a failed verification are not modelled.
- The email pattern of the user schema (backend/model/User.js:20): it is not modelled; only "non-empty" is checked.
- Floating point: `parseFloat`, `toFixed(2)`, `toLocaleString` and `Math.log`. Amounts are integers, and ratios are exact reals. `Math.floor(Math.log(b)/Math.log(1024))` is the exact power-of-1024 index; the two can differ at exact powers.
- Dates and time zones: `new Date`, `toISOString`, local-versus-UTC boundaries (frontend/src/components/Budget/BudgetGoals.jsx:40,153-154) and locale month names. Dates are (year, month, day) triples, and `now` is a parameter.
- The template dashboard's month name is keyed by month number; the label text itself is left out.
- The trends sort with `localeCompare` on `YYYY-MM` keys is modelled as a numeric month index; the two agree for four-digit years.
- NaN amounts from an unparsable form field are not modelled; amounts are integers.
- Ties in the sorts: the order of equal keys is not specified by the model.
- Quirk, not a finding: the ledger of an id starting with `form_` is deleted on logout, because `transactions_form_...` contains `_form_` (`DashboardLayout.LedgerKeyCanLookLikeForm`).
- The top-expenses rows are the records themselves; their display fields (`toLocaleDateString`) are left out.
- Files and browser file APIs: `fs.unlink` is a boolean parameter that says whether it failed, and `FileReader`/base64 content is an opaque string.
- UI only: rendering, charts, colours, toasts, DOM resets and navigation.
- The HTTP clients under frontend/src/services and the network call of the login thunk: the thunk's reply is a parameter of `Fulfilled` and `Rejected`.
- `UserModel.EmailError`: weaker than the schema, because the email pattern is not modelled.
- `UserModel.FirstError`: reports only the first failing field, while Mongoose's `ValidationError` message lists every failing path.
- Wire status of `register` and `login`: their `catch` blocks call `res.status(error.status || 500)` (backend/controllers/usersCtrl.js:53, backend/controllers/usersCtrl.js:104) and the error handler answers `err.statusCode || 500` (backend/app.js:37), so a 400 or 401 the controller set goes out as 500. The model's `Failure` keeps the controller's code and message.
- Shared collections: `goalCtrl` and `goalController` both use the model `../model/Goal`, and `documentCtrl` and `documentController` both use `../model/Document`. The Goal and Document schemas are not part of this model, so which fields one controller's records would carry for the other is unknown. The model keeps `goals` and `userGoals`, and `documents` and `links`, as separate sequences of `Db.Store`. A record created through one controller is therefore not seen by the other.
- `Common.Lower` and `Common.Trim`: `Lower` folds only ASCII letters (`toLowerCase()` also folds other scripts), and `Trim` strips only space, tab, line feed, carriage return, vertical tab and form feed (`trim()` also strips no-break spaces, other Unicode spaces and line terminators).
- Month window of the budget page (frontend/src/components/Budget/BudgetGoals.jsx:153-154), and the same window on the insights page (frontend/src/components/Insights/FinancialInsights.jsx:120-128), which `Insights.Performed` and `Insights.SpentExactly` count over: `new Date(goal.month + '-01')` is midnight UTC, while the month's end is built in local time. West of UTC the start falls on the last day of the previous month, and the end is that month's last day at midnight local time, which comes before the start, so nothing counts. East of UTC, a record dated on the month's last day parses as UTC midnight, which lies after that local midnight end, so that day is dropped. The model has no time zones and counts the calendar month, as UTC would.
- `DocumentsCtrl.DownloadDocument`: gives the stored `path`; the controller sends `path.join(__dirname, '..', document.path)` (backend/controllers/documentsCtrl.js:52), a path resolved against the controllers directory's parent, which depends on where the server is installed.
- `Insights.LoadInsights`: uses the corrected month comparison (see Findings); the code's own comparison is `Insights.MonthlyComparisonAsWritten`.
- `UsersCtrl.ChangePasswordAsWritten`: its contract states only the 400 case; `UsersCtrl.ChangePasswordNeverSucceeds` states the rest.

## Findings

| source | as written | input that shows it | evidently intended | confidence | as-written member | corrected member |
|---|---|---|---|---|---|---|
| backend/controllers/usersCtrl.js:164-172 | the user is loaded with `findById`, which leaves out the password because the schema marks it `select: false` (backend/model/User.js:26), so `comparePassword` has no hash and throws | any existing user, with any current and new password | load the hash (`.select("+password")`, as `login` does) so that a correct current password changes the password | not executed | UsersCtrl.ChangePasswordNeverSucceeds | UsersCtrl.ChangePassword |
| frontend/src/components/Insights/FinancialInsights.jsx:191-198 | last month's filter compares `getMonth()` with `currentMonth - 1`, which is -1 in January, so no record matches although the year is moved back | now = January 2024, one expense of 50 on 15 December 2023: last month reads 0 | compare with December (11) of the previous year, so that last month reads 50 | not executed | Insights.DecemberMissed | Insights.MonthlyComparison |
| frontend/src/components/Users/Dashboard/Dashboard.jsx:24-28 | the service asks for GET `/transactions/lists` (frontend/src/services/transactions/transactionService.js:34), which no route serves, so the request fails with the 404 handler's reply; and `getAll` sends `data` as an object with a `transactions` field, on which `(response.data \|\| []).reduce` throws | any signed-in user with any stored transactions: the dashboard keeps showing no records and zero totals | GET `/transactions` and read `response.data.transactions`, so that the dashboard shows the user's records with the backend's totals | not executed | UserDashboard.DashboardStaysEmpty | UserDashboard.FetchListing |
