# Expense tracker: verified model of the bookkeeping and validation rules

This project models the rules at the centre of a small personal-finance web
application. Users record income and expenses. A dashboard shows totals, a
monthly summary, per-category sums and a balance chart. A REST route stores
expenses behind a rate limiter. Sign-up and password-reset forms validate
credentials before they call the hosted auth provider.

The model is written in Dafny. Each source file becomes one module:

| module | source file | form |
|---|---|---|
| `ApiService` | lib/api-service.ts | functions: payload validators, bearer-token extraction, error-to-status mapping, store-reply mapping |
| `Dates` | lib/api-service.ts (`isValidDate`) | functions: calendar-date check, with the RFC 3339 `full-date` rule (sections 5.6 and 5.7) as its partner |
| `ExpensesRoute` | app/api/expenses/route.ts | class `RateLimiter` with a `map` field updated in place; `GET`/`POST` as methods over it |
| `Transactions` | hooks/useTransactions.ts | the reducer as a function over a `State` datatype |
| `Aggregation` | utils/notification.ts | totals as folds; `groupExpensesByCategory` as a method with a loop |
| `BalanceGraph` | components/BalanceGraph.tsx | the label and series computations |
| `OptimizedBalanceGraph` | components/OptimizedBalanceGraph.tsx | the `useMemo` body and the `MM/DD` labels |
| `Pagination` | hooks/usePagination.ts | page arithmetic as functions; class `Paginator` for `currentPage` |
| `Dashboard` | app/dashboard/page.tsx | class `DashboardPage` whose handlers replace its list fields |
| `Credentials` | app/signup/page.tsx and both reset pages | the email pattern and the password-strength classifier |
| `SignupPage` | app/signup/page.tsx | class `SignupForm` |
| `ResetPasswordPage` | app/reset-password/page.tsx | class `ResetRequestForm` |
| `ResetConfirmPage` | app/reset-password/confirm/page.tsx | class `ResetConfirmForm` |
| `SignupRoute` | app/auth/signup/route.ts | the route as a function of the body and the provider's answers |

Shared modules:
- `Wrappers`: `Option`.
- `Strings`: JavaScript `trim`, replacement of the first occurrence, `split`, and lexical order.
- `Records`: the income and expense rows.
- `Sorting`: a stable sort by date descending and an ascending string sort.

Conventions:
- Amounts are integers in minor currency units.
- Dates are `YYYY-MM-DD` strings compared lexically.
- Everything the hosted service answers is an explicit input: the auth lookup, the store's rows or error, the sign-up/reset/update replies and the session lookup. So are the clock (`now`) and the current month.

A request body is either its parsed fields or the message of the exception
raised while reading it. A `null` body makes reading its fields throw a
`TypeError`, so it is a body whose reading failed. A number, string, boolean
or array body reads every field as `undefined`.

## Model

| member | source | states |
|---|---|---|
| Dates.IsValidDateIff | lib/api-service.ts:243-254 | the date check accepts exactly the strings of shape 4 digits '-' 2 digits '-' 2 digits whose month is 1-12 and whose day lies within that month's Gregorian length |
| Dates.IsoDateIsValid | lib/api-service.ts:243-254 | every calendar date, printed as ISO text, passes the check (the parse/print round trip closes) |
| Dates.FieldsIsoDate | lib/api-service.ts:253 | printing the parsed fields of a well-shaped calendar date gives back the input string |
| Dates.IsoDateFields | lib/api-service.ts:253 | parsing the printed form of a calendar date gives back its year, month and day |
| Dates.Normalize | lib/api-service.ts:249-253 | the JavaScript date roll-over keeps a date unchanged exactly when the day fits the month |
| Dates.DaysInMonth | lib/api-service.ts:249-253 | month lengths are 28-31, and 29 exactly for February of a leap year |
| Dates.RejectsThirtiethOfFebruary | lib/api-service.ts:243-254 | "2024-02-30" is rejected |
| Dates.RejectsMonthThirteen | lib/api-service.ts:243-254 | "2024-13-01" is rejected |
| Dates.LeapDay | lib/api-service.ts:243-254 | February 29 passes in 2024 and fails in 2023 |
| ApiService.ValidateIncomeData | lib/api-service.ts:202-218 | the verdict is valid exactly when it carries no error |
| ApiService.ValidateIncomeDataOrder | lib/api-service.ts:202-218 | amount is checked before date, then description; each message appears exactly when every earlier check passed and its own failed; a payload passing all three gives `{valid: true, error: null}` |
| ApiService.ValidateExpenseData | lib/api-service.ts:220-241 | the verdict is valid exactly when it carries no error |
| ApiService.ValidateExpenseDataOrder | lib/api-service.ts:220-241 | order amount, category, date, description; the first failing check's message, and valid iff all pass |
| ApiService.AmountCheck | lib/api-service.ts:204-206 | the amount guard rejects exactly what is not a positive number (missing, zero, negative, non-number) |
| ApiService.CategoryCheck | lib/api-service.ts:226-228 | the category guard rejects exactly what is not a string with a non-whitespace character |
| ApiService.DateCheck | lib/api-service.ts:208-210 | the date guard rejects exactly what is not a string passing the calendar-date rule |
| ApiService.GetUserFromToken | lib/api-service.ts:20-39 | a user is returned exactly when no error is; without a token, 'Authorization token required'; otherwise the provider's user when it finds one, its error message (or 'Unauthorized access' when that is empty), 'Unauthorized access' when it finds no user, and 'Authentication failed' when it throws |
| ApiService.MissingTokenRejected | lib/api-service.ts:22-26 | with no header, an empty one or one that is only 'Bearer ', the result is 'Authorization token required' whatever the provider would answer |
| ApiService.BearerTokenOfHeader | lib/api-service.ts:22 | 'Bearer ' followed by a non-empty token yields that token |
| ApiService.HandleApiError | lib/api-service.ts:42-48 | a non-zero status code and a non-empty message are passed through unchanged; the status is 500 exactly when the error has no usable status code; the default message is used exactly when the error's message is missing or empty |
| ApiService.GetAllRecords | lib/api-service.ts:58-73 | the rows are returned exactly when the store returns rows |
| ApiService.CreateRecord | lib/api-service.ts:75-90 | data is the first row exactly when the store returns a non-empty row list; any error carries status 500 |
| ApiService.UpdateRecord | lib/api-service.ts:92-109 | data is the first returned row; an empty result is a 404 error, a store error a 500 |
| ApiService.UpdateStatus | lib/api-service.ts:101-102 | passed through the error handler, an empty update result becomes 404 '… record not found' and a store error 500 |
| ApiService.DeleteRecord | lib/api-service.ts:111-125 | success exactly when the store reports no error |
| ApiService.DeleteNeverNotFound | lib/api-service.ts:119-121 | a failed delete always maps to status 500, never 404 |
| ExpensesRoute.ClientKey | app/api/expenses/route.ts:13 | the key is never empty: a missing or empty forwarded-for header gives 'localhost', and any other header value is the key itself |
| ExpensesRoute.RateStep | app/api/expenses/route.ts:11-37 | one request's effect on its client's entry: an unseen client, or one whose window opened more than 60000 ms ago, restarts at count 1 with the window opening now and is allowed; within the window the count goes up by one and the window start stays; the request is allowed exactly when the new count is at most 50 |
| ExpensesRoute.RateLimiter.constructor | app/api/expenses/route.ts:8 | the client map starts empty |
| ExpensesRoute.RateLimiter.CheckRateLimit | app/api/expenses/route.ts:11-37 | only the requesting key's entry changes, and it and the answer are those of one rate step |
| ExpensesRoute.Decisions | app/api/expenses/route.ts:11-37 | the replayed answers to a request sequence: one per request |
| ExpensesRoute.WithinOneWindow | app/api/expenses/route.ts:24-36 | inside one window the k-th further request is allowed iff count+k+1 ≤ 50, and denied requests still raise the count |
| ExpensesRoute.FiftyFirstRequestDenied | app/api/expenses/route.ts:6-36 | for a new client, requests 1-50 in one window are allowed and every later one denied; the first creates `{count: 1, lastReset: now}` |
| ExpensesRoute.WindowExpiry | app/api/expenses/route.ts:7-28 | any client, whatever its count, is let in again with count 1 once strictly more than 60000 ms have passed; at exactly 60000 the old window still counts, so a client with 50 requests is denied |
| ExpensesRoute.ShapeExpense | app/api/expenses/route.ts:96-101 | the stored amount is the validated positive number; the category and date are the body's own, so a non-blank category and a valid calendar date; the description is stored exactly when truthy and is then that string |
| ExpensesRoute.PostCheckOrder | app/api/expenses/route.ts:70-112 | 429 before 401 before 400 (with the validator's message); 201 exactly when all checks pass and the store returns a row, whose first row is the body |
| ExpensesRoute.GetCheckOrder | app/api/expenses/route.ts:40-67 | 429 before 401 before the store call; 200 exactly when the client is allowed, authenticated and the store returns rows, which are the body; a store error gives 500 with its message, or 'Internal Server Error' when that is empty |
| ExpensesRoute.Get | app/api/expenses/route.ts:40-67 | one rate step on the shared map, then the response from the rate verdict, the auth result and the store's answer, whose order and outcomes ExpensesRoute.GetCheckOrder states |
| ExpensesRoute.Post | app/api/expenses/route.ts:70-112 | one rate step on the shared map, then the response of the ordered checks and the create call |
| Sorting.Insert | hooks/useTransactions.ts:48 | insertion adds exactly the one element |
| Sorting.SortByDateDesc | hooks/useTransactions.ts:48-49 | the sort is a permutation |
| Sorting.InsertSorted | hooks/useTransactions.ts:48-49 | insertion keeps a list sorted by date descending |
| Sorting.SortByDateDescSorted | hooks/useTransactions.ts:48-49 | the result is sorted by date descending |
| Sorting.InsertWithKey | hooks/useTransactions.ts:48-49 | the inserted element precedes the existing elements of its date, whose order is kept |
| Sorting.SortByDateDescStable | hooks/useTransactions.ts:48-49 | the sort is stable: the records of each date keep their relative order |
| Sorting.WithKeyAppend | hooks/useTransactions.ts:48-49 | selecting one date distributes over concatenation |
| Sorting.InsertAscending | components/BalanceGraph.tsx:32 | ascending insertion adds exactly the one string |
| Sorting.SortAscending | components/BalanceGraph.tsx:32 | the default string sort is a permutation |
| Sorting.InsertAscendingStrict | components/BalanceGraph.tsx:32 | inserting a new string keeps a list strictly ascending |
| Sorting.SortAscendingStrict | components/BalanceGraph.tsx:32 | distinct strings come out strictly ascending |
| Transactions.AddSorted | hooks/useTransactions.ts:45-54 | prepend-then-sort gives the old list plus the new item, sorted by date descending |
| Transactions.ReplaceById | hooks/useTransactions.ts:59-60 | every item with the matching id is replaced and every other item kept, position by position |
| Transactions.UpdateSorted | hooks/useTransactions.ts:55-68 | the re-sorted replacement is a permutation of the replaced list and sorted descending |
| Transactions.RemoveById | hooks/useTransactions.ts:69-78 | the filtered list holds exactly the items whose id differs |
| Transactions.Reduce | hooks/useTransactions.ts:32-82 | the fetch cases set the flags and lists as each action says; list actions leave the other list and both flags alone; an unrecognised action returns the state unchanged |
| Transactions.ReduceAdds | hooks/useTransactions.ts:45-54 | an add yields the old list plus the item, sorted, with the item first among its date |
| Transactions.ReduceUpdates | hooks/useTransactions.ts:55-68 | an update keeps the length, is sorted, holds the new version for its id and keeps every other item |
| Transactions.ReduceDeletes | hooks/useTransactions.ts:69-78 | a delete keeps exactly the items with another id |
| Transactions.AddedPrecedesSameDate | hooks/useTransactions.ts:45-54 | the new item precedes every existing item with the same date |
| Transactions.AddKeepsOtherDates | hooks/useTransactions.ts:45-54 | the order among the records of any other date is unchanged |
| Transactions.UpdateKeepsLength | hooks/useTransactions.ts:55-68 | an update neither adds nor drops a record |
| Transactions.UpdateReplaces | hooks/useTransactions.ts:55-68 | same length; the matching id now holds the new record; other records stay; nothing new appears; the new record is present iff its id was |
| Transactions.RemoveByIdAppend | hooks/useTransactions.ts:69-78 | the filter works piecewise over concatenation, so relative order is kept |
| Transactions.RemoveByIdAbsent | hooks/useTransactions.ts:69-78 | deleting an id that does not occur changes nothing |
| Transactions.RemoveByIdIdempotent | hooks/useTransactions.ts:69-78 | deleting twice is deleting once |
| Transactions.RemoveByIdCount | hooks/useTransactions.ts:69-78 | the kept and the removed items together account for the whole list |
| Aggregation.TotalAppend | utils/notification.ts:78-79 | a sum over a concatenation is the sum of the sums |
| Aggregation.TotalPermutation | utils/notification.ts:78-79 | a sum does not depend on the order of the records |
| Aggregation.CalculateTotals | utils/notification.ts:77-83 | balance = total income − total expenses; empty lists give 0, 0, 0 |
| Aggregation.TotalsAfterAdd | utils/notification.ts:77-83 | adding an income record (prepend and sort) raises total income and balance by its amount |
| Aggregation.InMonth | utils/notification.ts:92-98 | keeps exactly the records whose date starts with the month |
| Aggregation.OutsideMonth | utils/notification.ts:92-98 | keeps exactly the records whose date does not start with the month |
| Aggregation.MonthSplitsTotal | utils/notification.ts:92-98 | the in-month and out-of-month sums add up to the whole sum |
| Aggregation.TargetMonth | utils/notification.ts:90 | a supplied non-empty month is used as given; otherwise the current month |
| Aggregation.CalculateMonthlyTotals | utils/notification.ts:88-103 | monthly balance = monthly income − monthly expenses |
| Aggregation.MonthlyPartOfTotals | utils/notification.ts:88-103 | the monthly balance plus the balance of the records outside the month is the overall balance |
| Aggregation.MonthPrefixExample | utils/notification.ts:92-98 | month "2024-03" counts "2024-03-31" and excludes "2024-04-01" |
| Aggregation.Categories | utils/notification.ts:108-116 | the categories in first-occurrence order, without duplicates |
| Aggregation.CategoriesSnoc | utils/notification.ts:108-116 | one more expense adds its category exactly when the category is new |
| Aggregation.OfCategorySnoc | utils/notification.ts:108-116 | one more expense joins the group of its own category only |
| Aggregation.CategoriesOccur | utils/notification.ts:108-116 | a category is listed iff some expense has it |
| Aggregation.OfCategoryEmpty | utils/notification.ts:108-116 | an unlisted category has no expenses |
| Aggregation.GroupExpensesByCategory | utils/notification.ts:108-117 | the loop builds the left fold of per-category additions; its keys are exactly the categories that occur and each value is the sum of that category's amounts |
| Aggregation.GroupingIsCategorySums | utils/notification.ts:108-117 | the dictionary's keys are exactly the categories that occur, and each value is the sum of that category's amounts |
| Aggregation.GroupingAt | utils/notification.ts:108-117 | the same, for one category at a time |
| Aggregation.SumByCategoryAppendExpense | utils/notification.ts:111-114 | one more expense raises the sum over distinct categories by its amount iff its category is among them |
| Aggregation.SumByCategoryAppendCategory | utils/notification.ts:111-114 | one more category adds that category's sum |
| Aggregation.CategoryTotalsAddUp | utils/notification.ts:108-117 | the category sums add up to the total expenses, with no month filter |
| BalanceGraph.DatesOf | components/BalanceGraph.tsx:28-29 | one date per record, in record order |
| BalanceGraph.Dedup | components/BalanceGraph.tsx:27-31 | the first-occurrence filter keeps every date and adds none |
| BalanceGraph.DedupDistinct | components/BalanceGraph.tsx:27-31 | the filter keeps each date only once |
| BalanceGraph.AllDates | components/BalanceGraph.tsx:27-32 | strictly ascending, and a date is present iff some expense or income has it |
| BalanceGraph.UpTo | components/BalanceGraph.tsx:36-40 | keeps exactly the records dated on or before d |
| BalanceGraph.OnDate | components/BalanceGraph.tsx:49-64 | keeps exactly the records dated d |
| BalanceGraph.BalanceChart | components/BalanceGraph.tsx:24-64 | three series as long as the labels; labels are the distinct dates; daily sums use records dated exactly d; balance sums income minus expenses dated up to d; a missing list counts as empty |
| BalanceGraph.MissingListsAreEmpty | components/BalanceGraph.tsx:24-25 | null lists give empty labels and series |
| BalanceGraph.LabelsAreRecordDates | components/BalanceGraph.tsx:27-32 | labels are strictly ascending, and a date is a label iff some record has it |
| BalanceGraph.RecordDatesAreLabels | components/BalanceGraph.tsx:27-32 | every record's date is a label |
| BalanceGraph.BetweenConsecutiveLabels | components/BalanceGraph.tsx:27-42 | no label lies strictly between two consecutive labels |
| BalanceGraph.UpToStep | components/BalanceGraph.tsx:34-42 | moving the cut-off to the next label adds exactly that day's records |
| BalanceGraph.UpToOnlyOnDate | components/BalanceGraph.tsx:34-42 | at the first label, up-to-d is on-d |
| BalanceGraph.UpToEverything | components/BalanceGraph.tsx:34-42 | at or after every record's date, up-to-d is the whole list |
| BalanceGraph.BalanceStep | components/BalanceGraph.tsx:34-64 | consecutive balances differ by that day's income minus that day's expenses |
| BalanceGraph.FirstLabelIsLeast | components/BalanceGraph.tsx:32 | no label is on or before the first except the first itself |
| BalanceGraph.BalanceUntilFirstLabel | components/BalanceGraph.tsx:34-42 | the running balance at the first label counts only that day's records |
| BalanceGraph.BalanceFirst | components/BalanceGraph.tsx:34-64 | the first balance is the first day's income minus its expenses |
| BalanceGraph.LabelAtMostLast | components/BalanceGraph.tsx:32 | every label is at most the last one |
| BalanceGraph.RecordsUpToLastLabel | components/BalanceGraph.tsx:27-32 | every record is dated on or before the last label |
| BalanceGraph.BalanceUntilLastLabel | components/BalanceGraph.tsx:34-42 | the balance at the last label is the overall balance |
| BalanceGraph.BalanceUntilAll | components/BalanceGraph.tsx:34-42 | once every record is included, the balance is total income − total expenses |
| BalanceGraph.BalanceLast | components/BalanceGraph.tsx:34-42 | the last value of the balance series is total income − total expenses |
| OptimizedBalanceGraph.ChartData | components/OptimizedBalanceGraph.tsx:29-70 | one formatted label per date, in the same order |
| OptimizedBalanceGraph.SameSeriesAsBalanceGraph | components/OptimizedBalanceGraph.tsx:33-64 | dates and the three series are exactly those of the plain chart, so the balance, daily-sum and null-list properties carry over |
| OptimizedBalanceGraph.FormatLabelOfDate | components/OptimizedBalanceGraph.tsx:67-70 | "YYYY-MM-DD" is labelled "MM/DD" |
| OptimizedBalanceGraph.FormatLabelsOfDates | components/OptimizedBalanceGraph.tsx:67-70 | each well-shaped date in a list is labelled by its month and day |
| OptimizedBalanceGraph.DatesAreWellFormed | components/OptimizedBalanceGraph.tsx:33-38 | when all records have well-shaped dates, so do all labels |
| OptimizedBalanceGraph.LabelsOfValidDates | components/OptimizedBalanceGraph.tsx:67-70 | with well-shaped record dates, the k-th label is the k-th date's "MM/DD" |
| OptimizedBalanceGraph.FormatLabelWithoutDashes | components/OptimizedBalanceGraph.tsx:67-70 | a date without '-' is labelled "undefined/undefined" |
| Pagination.PageCount | hooks/usePagination.ts:25-27 | the page count is the ceiling of length / items per page |
| Pagination.Slice | hooks/usePagination.ts:29-33 | a clipped slice holds at most `count` items, taken in order from `start` |
| Pagination.Page | hooks/usePagination.ts:29-33 | page p holds at most k items, taken in order from offset (p−1)·k |
| Pagination.FirstPagesArePrefix | hooks/usePagination.ts:29-33 | the first n pages together are the first n·k items |
| Pagination.PagesMakeUpData | hooks/usePagination.ts:25-33 | pages 1..totalPages concatenated give back the data |
| Pagination.ItemAt | hooks/usePagination.ts:29-33 | item q·k+r is at position r of page q+1, which exists |
| Pagination.ItemOnItsPage | hooks/usePagination.ts:29-33 | every item is on page i/k+1 at position i mod k |
| Pagination.PageSizes | hooks/usePagination.ts:25-33 | every page before the last is full; pages past the last are empty |
| Pagination.Paginator.constructor | hooks/usePagination.ts:23 | the current page starts at 1 |
| Pagination.Paginator.NextPage | hooks/usePagination.ts:35-39 | the page goes up by one only when below the total |
| Pagination.Paginator.PrevPage | hooks/usePagination.ts:41-45 | the page goes down by one only when above 1 |
| Pagination.Paginator.GoToPage | hooks/usePagination.ts:47-50 | the page is clamped into [1, totalPages]; 1 when there are no pages |
| Pagination.Paginator.SetData | hooks/usePagination.ts:25-33 | new data keeps the current page unclamped |
| Dashboard.DashboardPage.constructor | app/dashboard/page.tsx:34-42 | empty lists, loading, nothing being edited, no banners or dialogs |
| Dashboard.DashboardPage.FetchData | app/dashboard/page.tsx:44-78 | fetched lists replace the state; a failed or non-ok fetch alerts 'Failed to load data' and keeps both lists; an expense body that fails to parse after the income was set alerts and leaves the new income beside the old expenses; loading ends either way |
| Dashboard.DashboardPage.IncomeAdded | app/dashboard/page.tsx:84-89 | the old list plus the new record, sorted descending; banner on, dialog closed |
| Dashboard.DashboardPage.ExpenseAdded | app/dashboard/page.tsx:91-96 | the old list plus the new record, sorted descending; banner on, dialog closed |
| Dashboard.DashboardPage.DeleteIncome | app/dashboard/page.tsx:103-125 | a successful delete removes exactly the items with that id; a rejected or failed one alerts and changes nothing |
| Dashboard.DashboardPage.DeleteExpense | app/dashboard/page.tsx:127-149 | as for income, with the expense messages |
| Dashboard.DashboardPage.UpdateIncome | app/dashboard/page.tsx:151-190 | a successful update replaces by id, re-sorts and closes editing; a non-ok reply returns before any list change |
| Dashboard.DashboardPage.UpdateExpense | app/dashboard/page.tsx:192-232 | as for income, with the expense messages |
| Dashboard.DashboardPage.Summary | app/dashboard/page.tsx:236-247 | the cards' figures are the overall totals and the current month's totals, each balance being income − expenses |
| Credentials.FindChar | app/signup/page.tsx:84-87 | the first index of a character, or −1 exactly when it is absent |
| Credentials.ValidateEmailIff | app/signup/page.tsx:84-87 | the scanning check accepts exactly the strings of the form local '@' domain '.' tail, with all three parts non-empty and free of whitespace and '@' |
| Credentials.ValidateEmailMatches | app/signup/page.tsx:84-87 | what the check accepts matches the pattern |
| Credentials.MatchesValidateEmail | app/signup/page.tsx:84-87 | what matches the pattern the check accepts |
| Credentials.SplitNoWhitespace | app/signup/page.tsx:84-87 | a match has no whitespace and exactly one '@' |
| Credentials.SimpleEmailAccepted | app/signup/page.tsx:84-87 | "a@b.co" passes the pattern |
| Credentials.EmailWithoutDotRejected | app/signup/page.tsx:84-87 | "a@b" fails: no '.' inside the domain |
| Credentials.EmailWithTwoAtsRejected | app/signup/page.tsx:84-87 | "a@@b.co" fails: a second '@' |
| Credentials.MetCriteria | app/signup/page.tsx:66-73 | at most five criteria are met |
| Credentials.SpecialCharRanges | app/signup/page.tsx:69 | the special-character test accepts exactly the thirty characters the class lists |
| Credentials.StrongIffAllCriteria | app/signup/page.tsx:60-82 | 'strong' exactly when all five criteria hold, so never under 8 characters |
| Credentials.WeakIffFewCriteria | app/signup/page.tsx:60-82 | empty gives no strength; 'weak' exactly for a non-empty password meeting at most two criteria |
| Credentials.CriteriaKept | app/signup/page.tsx:66-73 | appending characters never loses a criterion |
| Credentials.StrengthMonotone | app/signup/page.tsx:60-82 | typing more characters never lowers the strength |
| Credentials.WeakExample | app/signup/page.tsx:75-77 | "abc" is weak |
| Credentials.MediumExample | app/signup/page.tsx:77-79 | "password1" is medium |
| Credentials.StrongExample | app/signup/page.tsx:79-81 | "Passw0rd!" is strong |
| SignupPage.SignupGuard | app/signup/page.tsx:107-130 | no message exactly when the trimmed name is non-empty, the email valid, the password at least 8 long and equal to its confirmation |
| SignupPage.SignupGuardOrder | app/signup/page.tsx:107-130 | each message appears exactly when every earlier check passed and its own failed |
| SignupPage.SignupForm.constructor | app/signup/page.tsx:32-37 | empty fields, no error or success, on the sign-up step |
| SignupPage.SignupForm.ChangeField | app/signup/page.tsx:60-82 | one field changes and the strength follows the password |
| SignupPage.SignupForm.ResetForm | app/signup/page.tsx:89-99 | all four fields, error and success cleared; back to the sign-up step |
| SignupPage.SignupForm.HandleEmailSignup | app/signup/page.tsx:101-160 | the provider is called exactly when the guards pass; a failed guard leaves its message; success moves to the verify step; a provider error shows its message or the default |
| ResetPasswordPage.ResetRequestForm.constructor | app/reset-password/page.tsx:27-30 | empty email, not loading, no error, no success |
| ResetPasswordPage.ResetRequestForm.SetEmail | app/reset-password/page.tsx:27 | only the email changes |
| ResetPasswordPage.ResetRequestForm.HandlePasswordReset | app/reset-password/page.tsx:37-65 | the request is sent exactly when the email is valid; otherwise 'Please enter a valid email address' with no request; success becomes true only when the request reports no error; loading ends false |
| ResetPasswordPage.ResetRequestForm.SendAgain | app/reset-password/page.tsx:128 | success goes back to false |
| ResetConfirmPage.HashDecidesWithoutSession | app/reset-password/confirm/page.tsx:45-56 | without a session email the link is accepted iff the hash is neither empty nor just '#access_token=' |
| ResetConfirmPage.UpdateGuard | app/reset-password/confirm/page.tsx:102-112 | the length check comes before the match check, and no message exactly when both pass |
| ResetConfirmPage.ResetConfirmForm.constructor | app/reset-password/confirm/page.tsx:27-35 | the session is undecided until checked |
| ResetConfirmPage.ResetConfirmForm.CheckSession | app/reset-password/confirm/page.tsx:39-66 | the session's validity is decided; an exception or an invalid link sets its message |
| ResetConfirmPage.ResetConfirmForm.SetNewPassword | app/reset-password/confirm/page.tsx:72-94 | the strength follows the new password |
| ResetConfirmPage.ResetConfirmForm.SetConfirmPassword | app/reset-password/confirm/page.tsx:28 | only the confirmation changes |
| ResetConfirmPage.ResetConfirmForm.HandlePasswordUpdate | app/reset-password/confirm/page.tsx:96-133 | the update is requested exactly when the guards pass; a failed guard leaves its message; success only without an update error; loading ends false |
| SignupRoute.FieldCheck | app/auth/signup/route.ts:19-41 | no message exactly when all three fields are truthy, the email's text matches and the password is not a string or array shorter than 8; the missing-field message exactly when one is falsy; 'Invalid email format' exactly when all are truthy and the email's text fails the pattern; the too-short message exactly when the email passes and the password is a string or array shorter than 8 |
| SignupRoute.Caught | app/auth/signup/route.ts:87-93 | status 500 with the error's message, or the default when it is empty |
| SignupRoute.SignupResponse | app/auth/signup/route.ts:11-94 | the status is one of 201, 400, 409, 500, and 201 exactly when a data body is returned |
| SignupRoute.SignupOutcomes | app/auth/signup/route.ts:11-94 | 400 with the first failing check's message iff a field check fails; 409 iff they pass and the profile exists; 201 iff they pass, no profile exists and the user was created, echoing its id, email and name |
| SignupRoute.ProviderNotConsultedOnBadBody | app/auth/signup/route.ts:19-41 | a body failing a field check gets the same response whatever the lookup and create calls would answer |
| SignupRoute.CreateNotConsultedWhenRegistered | app/auth/signup/route.ts:44-55 | with an existing profile the create call plays no part |
| SignupRoute.EmailCheckIsPattern | app/auth/signup/route.ts:27-33 | the email check is the email pattern on the value's text (`String(email)`), and every value other than a string or an array is refused |
| SignupRoute.EmailInArray | app/auth/signup/route.ts:27-33 | a one-element array of text passes exactly when that text matches the pattern |
| SignupRoute.NonStringPasswordPasses | app/auth/signup/route.ts:36-41 | a truthy number, boolean or plain object as the password passes the length check |
| SignupRoute.ArrayPasswordLength | app/auth/signup/route.ts:36-41 | an array password passes the length check exactly when it has at least 8 elements, and otherwise gets the too-short message |
| SignupRoute.StringPasswordLength | app/auth/signup/route.ts:36-41 | a string password passes exactly when it has at least 8 characters |
| Strings.TrimStart | lib/api-service.ts:226 | what remains does not start with whitespace, and what was removed is all whitespace |
| Strings.TrimStartIsSuffix | lib/api-service.ts:226 | what remains is a suffix of the input |
| Strings.TrimEnd | lib/api-service.ts:226 | removes exactly the trailing whitespace |
| Strings.TrimEmptyIff | lib/api-service.ts:226 | a string trims to empty iff it is all whitespace |
| Strings.IndexOfFrom | lib/api-service.ts:22 | the first occurrence at or after the start, or −1 |
| Strings.ReplaceFirstEmptyIff | app/reset-password/confirm/page.tsx:50-52 | removing the first occurrence of a non-empty pattern leaves nothing iff the string was empty or the pattern itself |
| Strings.SplitThree | components/OptimizedBalanceGraph.tsx:68 | three dash-free parts joined by dashes split back into those parts |
| Strings.LexLtTransitive | hooks/useTransactions.ts:48 | the date order is transitive |
| Strings.LexLtTotal | hooks/useTransactions.ts:48 | any two different dates are ordered |
| Strings.NotLexLe | components/BalanceGraph.tsx:36-40 | not on-or-before is strictly after |

## Left out

- The hosted service itself: the auth provider, the profile and record tables, sign-up, reset, password update and sign-out calls. Their answers are inputs. The sign-out call after a password update is not modelled, since its result is not read.
- Rendering: JSX, animation, chart options, tooltips, the success banners and their timers (`setTimeout`), `showNotification`, and the landing, login and table components.
- `createApiResponse` and the incomes REST route (app/api/incomes), which are thin glue around the same service functions.
- Floating point, `toFixed` and locale formatting of amounts and dates. Amounts are exact integers, so `Number(body.amount)` is the identity on the validated number. Infinity and NaN amounts are not modelled.
- `localeCompare`: compared lexically by character code, which agrees with locale order on `YYYY-MM-DD` strings.
- String lengths count characters, not UTF-16 code units, so a password with astral characters may count differently.
- Concurrency: the rate-limiter map is shared by concurrent requests in one process. The model handles one call at a time.
- The clock: `Date.now()` and `new Date()` are the parameters `now` and `currentMonth`.
- JavaScript object semantics in `groupExpensesByCategory`: the model uses a map keyed by category. So key order and prototype keys such as `__proto__` are not modelled.
- Pagination.PageCount: requires at least one item per page. With 0, the source divides by zero (Infinity pages); no caller passes 0.
- SignupRoute.FieldCheck: a plain object is modelled without its properties, so an object password with a `length` property below 8 (`{"length": 3}`) passes in the model, while the source refuses it.
- ResetConfirmPage.ResetConfirmForm.HandlePasswordUpdate: the case where sign-out throws after a successful update (error set while success stays true) is not modelled.
