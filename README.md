# Finova personal-finance demo: a verified model of its calculators and state

Finova is a Next.js personal-finance demo. Most of the app is markup. Its
behaviour lives in a few calculators, a transaction ledger kept in the
browser's local storage, and some page state machines. This project models
that core in Dafny and proves what the code and its page text promise.

- `debt.dfy` (module `DebtPayoff`): the debt payoff projector. It is a capped
  month-by-month loop, `balance := balance * (1 + r) - payment`, which stops
  once the balance is paid or after 1000 months. It also gives the total paid,
  the total interest, the years/months split and the sample total debt.
- `ledger.dfy` (module `Ledger`): transactions and the dashboard's
  computations over a list of them. These are the per-type summary, the
  date-range filter, removal by id, expense totals per category and the
  twelve monthly buckets.
- `storage.dfy` (module `Storage`): the local-storage wrapper. A `LocalStore`
  class holds the key-value map and records whether the code runs in a
  browser. It has typed getters and setters, append and delete of a
  transaction, and seeding of the demo data.
- `dashboard.dfy` (module `Dashboard`): the dashboard page state. This covers
  the add form and its guard, the tab switch, and the add and delete handlers.
- `auth.dfy` (module `Auth`): the mock authentication provider as a state
  machine over `user`, `isLoading` and the `finova_user` key.
- `signup.dfy` (module `Signup`): the password strength meter, the
  passwords-match test and the two-step submit handler.
- `chatbot.dfy` (module `Chatbot`), `chat_route.dfy` (module `ChatRoute`): the
  keyword reply chain, the chat page's message list, and the API route's copy
  of the same chain.
- `savings.dfy`, `budgeting.dfy`, `investing.dfy`, `resources.dfy`: the savings,
  budgeting and risk calculators, the investment growth table, and blog
  publishing on the resources page.
- `common.dfy` (module `Common`): an `Option` type, ASCII lowercasing,
  substring search and JavaScript's whitespace set.

Modelling choices:
- Money is `real`.
- A date is a (year, month, day, millisecond) record that compares field by
  field.
- Local storage is a `map<string, Entry>`. An `Entry` is a stored value as
  `JSON.parse` returns it. `EmptyText` is the empty string, which is falsy and
  is never parsed. `Malformed` stands for any other text that does not parse.
- Clocks, random ids and parsed form numbers are parameters of the
  operations that use them.
- Each timer is an immediate step.
- A division by zero, which gives a non-finite number in JavaScript, is `None`.

## Model

| member | source | states |
|---|---|---|
| `DebtPayoff.SearchFrom` | app/services/debt/page.tsx:39-42 | from any month before which the balance stayed positive, the loop stops at a later month that is the payoff month |
| `DebtPayoff.MonthsToPayoff` | app/services/debt/page.tsx:34-45 | the result is the payoff month: at most 1000, every earlier balance positive, and either the cap or the balance is paid off |
| `DebtPayoff.PayoffMonthUnique` | app/services/debt/page.tsx:39-42 | the payoff month is unique |
| `DebtPayoff.CalculateMonthsToPayoff` | app/services/debt/page.tsx:34-45 | the loop terminates, returns the payoff month (never above 1000) and agrees with `MonthsToPayoff` |
| `DebtPayoff.Totals` | app/services/debt/page.tsx:47-49 | total paid is payment × months, and total interest + debt = total paid |
| `DebtPayoff.Project` | app/services/debt/page.tsx:47-49 | the projection's months are the payoff month and its totals follow from them |
| `DebtPayoff.NoDebtNoPayments` | app/services/debt/page.tsx:36-49 | a debt ≤ 0 gives 0 months, 0 paid and interest equal to minus the debt |
| `DebtPayoff.ZeroRateBalance` | app/services/debt/page.tsx:40 | at 0% the balance after k months is debt − k × payment |
| `DebtPayoff.ZeroRateMonths` | app/services/debt/page.tsx:35-42 | at 0% with payment > 0 and ceil(debt/payment) ≤ 1000, the loop stops after exactly ceil(debt/payment) months |
| `DebtPayoff.ZeroRatePayoff` | app/services/debt/page.tsx:35-42 | at 0% with payment > 0 and ceil(debt/payment) ≤ 1000, the months are ceil(debt/payment) and the interest is ≥ 0 |
| `DebtPayoff.ZeroRateExample` | app/services/debt/page.tsx:34-49 | 1000 at 0% paying 100 takes 10 months, pays 1000, no interest |
| `DebtPayoff.BalanceNeverDrops` | app/services/debt/page.tsx:39-42 | with debt > 0, rate ≥ 0 and payment ≤ debt × monthly rate, the balance never falls below the debt |
| `DebtPayoff.NonConvergentHitsCap` | app/services/debt/page.tsx:39-42 | under the same conditions the loop runs to the 1000-month cap |
| `DebtPayoff.BalanceAntitoneInPayment` | app/services/debt/page.tsx:40 | at a non-negative rate a larger payment never leaves a larger balance |
| `DebtPayoff.MonthsAntitoneInPayment` | app/services/debt/page.tsx:39-42 | raising the payment never increases the months to payoff |
| `DebtPayoff.BalanceMonotoneInRate` | app/services/debt/page.tsx:35-40 | while the balance stays positive, a higher rate never leaves a smaller balance |
| `DebtPayoff.MonthsMonotoneInRate` | app/services/debt/page.tsx:35-42 | raising a non-negative rate never shortens the payoff |
| `DebtPayoff.YearsAndMonths` | app/services/debt/page.tsx:225 | years × 12 + months = the month count, with months in 0..11 |
| `DebtPayoff.TotalDebt` | app/services/debt/page.tsx:91 | the reduce's total is at least every slice's value |
| `DebtPayoff.TotalDebtConcat` | app/services/debt/page.tsx:91 | the total of two breakdowns joined is the sum of their totals |
| `DebtPayoff.SampleTotalDebt` | app/services/debt/page.tsx:11-16 | the sample debts add up to 31000 |
| `Ledger.TotalConcat` | app/dashboard/page.tsx:87-100 | a total over a concatenation is the sum of the totals |
| `Ledger.TotalAppend` | app/dashboard/page.tsx:87-100 | appending a transaction adds its share to a total |
| `Ledger.TypeTotalsPartition` | app/dashboard/page.tsx:88-100 | every transaction counts in exactly one of income, expenses, savings: the three add up to the total of all |
| `Ledger.Summarize` | app/dashboard/page.tsx:87-104 | balance = income − expenses − savings |
| `Ledger.Credit` | app/dashboard/page.tsx:88-100 | crediting one transaction keeps balance = income − expenses − savings |
| `Ledger.SummarizeAppend` | app/dashboard/page.tsx:87-100 | the summary of txns + [t] is the summary of txns with t added to its own type's bucket |
| `Ledger.CalculateSummary` | app/dashboard/page.tsx:87-104 | the reduce loop computes the per-type totals of the list and the balance |
| `Ledger.Filter` | app/dashboard/page.tsx:156 | the filtered list is no longer than the input and holds only kept elements of it |
| `Ledger.FilterConcat` | app/dashboard/page.tsx:156 | filtering distributes over concatenation |
| `Ledger.FilterMembers` | app/dashboard/page.tsx:156 | t is in the filtered list iff it is in the list and passes the test |
| `Ledger.FilterSubsequence` | app/dashboard/page.tsx:156 | the filtered list is an order-preserving subsequence |
| `Ledger.FilterKeepsAll` | app/dashboard/page.tsx:156 | a list all of whose elements pass is returned unchanged |
| `Ledger.FilterIdempotent` | app/dashboard/page.tsx:156 | filtering twice is filtering once |
| `Ledger.FilteredTransactions` | app/dashboard/page.tsx:144-157 | the range filter returns no more transactions than it is given, each of them from the list and dated on or after the start |
| `Ledger.FilteredTransactionsExactly` | app/dashboard/page.tsx:144-157 | the range filter keeps, in order, exactly the transactions dated on or after the start |
| `Ledger.TallyExpense` | app/dashboard/page.tsx:164-171 | one step of the forEach: non-expenses change nothing; an expense adds to its category, creating the label the first time |
| `Ledger.TallyExpenses` | app/dashboard/page.tsx:163-171 | the loop leaves the labels and totals of the callback folded over the whole list in order |
| `Ledger.TallyAllInvariant` | app/dashboard/page.tsx:161-176 | after the callback has seen any list: labels distinct, exactly the expense categories, each total that category's expense sum, all totals summing to the expense total |
| `Ledger.ExpenseCategoryData` | app/dashboard/page.tsx:160-177 | labels are distinct and are exactly the expense categories of the filtered list; each value is that category's expense total; the values sum to the filtered expense total |
| `Ledger.MonthlyStep` | app/dashboard/page.tsx:272-284 | a transaction adds to its own month's bucket only, and only in the current year |
| `Ledger.MonthlySummaryData` | app/dashboard/page.tsx:261-288 | twelve buckets, bucket m holds month m's per-type totals in the current year, and the buckets sum to the year's totals |
| `Ledger.OtherYearsIgnored` | app/dashboard/page.tsx:274 | a transaction of another year changes no bucket |
| `Storage.GetFromStorage` | lib/storage.ts:16-25 | the default outside a browser, for a missing key and for a value that does not decode; the decoded value otherwise |
| `Storage.SetToStorage` | lib/storage.ts:28-35 | in a browser the key then holds the value; every other key, and outside a browser every key, is unchanged |
| `Storage.UnreadableGivesDefault` | lib/storage.ts:16-25 | an empty string or text that does not parse reads as the default in every typed getter |
| `Storage.ReadAfterWrite` | lib/storage.ts:16-35 | in a browser, reading a key returns the value last written there |
| `Storage.ReadOtherKey` | lib/storage.ts:28-35 | a write leaves every other key's reading unchanged |
| `Storage.OutsideBrowser` | lib/storage.ts:16-35 | outside a browser every read gives its default and every write is a no-op |
| `Storage.Seeded` | lib/storage.ts:98-147 | outside a browser nothing changes; in one, only the four collection keys can be added and no key is removed |
| `Storage.SeededNonEmpty` | lib/storage.ts:98-147 | after seeding in a browser all four collections are non-empty |
| `Storage.SeededFrame` | lib/storage.ts:98-147 | seeding touches only the four collection keys and leaves non-empty collections untouched |
| `Storage.SeededIdempotent` | lib/storage.ts:98-147 | seeding a second time changes nothing |
| `Storage.LocalStore.constructor` | lib/storage.ts:4 | the store starts with the given entries and browser flag |
| `Storage.LocalStore.Transactions` | lib/storage.ts:38-43 | the stored transaction list in a browser when there is one, else the empty list |
| `Storage.LocalStore.BudgetCategories` | lib/storage.ts:60-62 | the stored budget list in a browser when there is one, else the empty list |
| `Storage.LocalStore.Debts` | lib/storage.ts:68-70 | the stored debt list in a browser when there is one, else the empty list |
| `Storage.LocalStore.SavingsGoals` | lib/storage.ts:76-81 | the stored goal list in a browser when there is one, else the empty list |
| `Storage.LocalStore.UserProfile` | lib/storage.ts:87-92 | the stored profile in a browser when there is one, else Jane Doe |
| `Storage.LocalStore.SaveTransactions` | lib/storage.ts:44-46 | writes the list under its key in a browser only; a later read returns it |
| `Storage.LocalStore.SaveBudgetCategories` | lib/storage.ts:63-65 | as above for budget categories |
| `Storage.LocalStore.SaveDebts` | lib/storage.ts:71-73 | as above for debts |
| `Storage.LocalStore.SaveSavingsGoals` | lib/storage.ts:82-84 | as above for savings goals |
| `Storage.LocalStore.SaveUserProfile` | lib/storage.ts:93-95 | as above for the user profile |
| `Storage.LocalStore.AddTransaction` | lib/storage.ts:47-52 | returns the previous list with t at the end and stores exactly that list |
| `Storage.LocalStore.DeleteTransaction` | lib/storage.ts:53-57 | returns the stored list without the id and stores exactly that list |
| `Storage.LocalStore.InitializeDefaultData` | lib/storage.ts:98-147 | the store becomes its seeded form; in a browser every collection is then non-empty |
| `Storage.DeleteAbsentId` | lib/storage.ts:53-57 | deleting an id no transaction has leaves the list unchanged |
| `Storage.DeleteTwice` | lib/storage.ts:53-57 | deleting twice equals deleting once |
| `Storage.DeleteRemovesExactly` | lib/storage.ts:53-57 | after a delete, t remains iff it was there with another id; order is kept |
| `Dashboard.Incomplete` | app/dashboard/page.tsx:120 | a form may be added exactly when description, amount and category are all non-empty |
| `Dashboard.ClearedForm` | app/dashboard/page.tsx:134 | a cleared form has empty fields and the given type |
| `Dashboard.ClearedFormIncomplete` | app/dashboard/page.tsx:119-135 | the form cleared after an add fails the add guard until it is filled in again |
| `Dashboard.FromForm` | app/dashboard/page.tsx:122-129 | the new transaction takes the form's fields, the given id and date and the parsed amount |
| `Dashboard.DashboardPage.constructor` | app/dashboard/page.tsx:64-78 | empty list, cleared expense form, expense tab, zero summary |
| `Dashboard.DashboardPage.Mount` | app/dashboard/page.tsx:80-85 | seeds the store, shows its transactions and their summary |
| `Dashboard.DashboardPage.HandleTabChange` | app/dashboard/page.tsx:114-117 | the tab and the form's type become the new tab and the category is cleared |
| `Dashboard.DashboardPage.HandleAddTransaction` | app/dashboard/page.tsx:119-135 | an incomplete form changes nothing; otherwise the stored list gets the new transaction appended, is shown and summarised, and the form is cleared with the active tab's type |
| `Dashboard.DashboardPage.HandleDelete` | app/dashboard/page.tsx:137-141 | shows and stores the list without the id and its summary |
| `Dashboard.AddCreditsSummary` | app/dashboard/page.tsx:131-133 | after an add exactly the new transaction's type total grows, by its amount |
| `Auth.EmailPrefix` | context/auth-context.tsx:41 | the name has no '@', is a prefix of the email, and is followed by '@' unless it is the whole email |
| `Auth.EmailPrefixWithoutAt` | context/auth-context.tsx:41 | an email without '@' is its own name |
| `Auth.EmailPrefixUnique` | context/auth-context.tsx:41 | any '@'-free prefix followed by '@' or the end is the name |
| `Auth.LoginUser` | context/auth-context.tsx:40-43 | login's record: the email and its prefix name |
| `Auth.SignupUser` | context/auth-context.tsx:58-61 | signup's record: the email and first name, one space, last name |
| `Auth.AuthProvider.constructor` | context/auth-context.tsx:20-22 | no user, loading |
| `Auth.AuthProvider.LoadStoredUser` | context/auth-context.tsx:24-31 | a stored record becomes the user; a missing key or an empty string is skipped and the user stays; loading ends; a non-empty value that does not parse throws before loading ends |
| `Auth.AuthProvider.Login` | context/auth-context.tsx:33-49 | user = {email prefix, email}, stored under the key; loading false; store mirrors user |
| `Auth.AuthProvider.Signup` | context/auth-context.tsx:51-67 | user = {first + " " + last, email}, stored under the key; loading false; store mirrors user |
| `Auth.AuthProvider.Logout` | context/auth-context.tsx:69-72 | user null and key removed; loading flag untouched |
| `Signup.GetPasswordStrength` | app/signup/page.tsx:60-89 | empty password: strength 0, text "", no colour; otherwise strength = criteria met, in 1..5; "Weak"/red for 1-2, "Medium"/yellow for 3-4, "Strong"/green for 5 |
| `Signup.NonEmptyMeetsOne` | app/signup/page.tsx:63-75 | every non-empty password meets at least one criterion, so the zero branch is unreachable for it |
| `Signup.EmptyMeetsNone` | app/signup/page.tsx:63-69 | the empty password meets no criterion |
| `Signup.AppendNeverWeakens` | app/signup/page.tsx:63-69 | appending characters never lowers the criteria count |
| `Signup.PasswordsMatch` | app/signup/page.tsx:92 | holds iff the passwords are equal and non-empty |
| `Signup.SignupPage.constructor` | app/signup/page.tsx:15-26 | empty form, step 1, no error, not loading |
| `Signup.SignupPage.HandleSubmit` | app/signup/page.tsx:33-57 | step 1 only moves to step 2; a mismatch sets "Passwords do not match" and leaves the account alone; a match signs up, goes to /dashboard and ends loading |
| `Chatbot.Classify` | app/chatbot/page.tsx:59-74 | the budget topic exactly when "budget" occurs; the general topic only when no keyword rule matches |
| `Chatbot.Reply` | app/chatbot/page.tsx:57-74 | exactly one of the five canned replies, the one for the topic the chain picks |
| `Chatbot.ClassifyRules` | app/chatbot/page.tsx:59-74 | each topic iff its keywords occur in the lowercased text and no earlier rule's do: budget, invest, credit score, debt and save, default |
| `Chatbot.ReplyIgnoresCase` | app/chatbot/page.tsx:59-68 | the lowercased text gets the same reply |
| `Chatbot.SameLowerSameReply` | app/chatbot/page.tsx:59-68 | texts equal after lowercasing get the same topic |
| `Chatbot.PresetBudget` | app/chatbot/page.tsx:15-20 | the first preset question gets the budget reply |
| `Chatbot.PresetInvest` | app/chatbot/page.tsx:15-20 | the second gets the investing reply |
| `Chatbot.PresetCreditScore` | app/chatbot/page.tsx:15-20 | the third gets the credit score reply |
| `Chatbot.PresetDebtSave` | app/chatbot/page.tsx:15-20 | the fourth gets the debt-or-save reply |
| `Chatbot.ChatbotPage.constructor` | app/chatbot/page.tsx:23-32 | one greeting from the bot, empty input, not loading |
| `Chatbot.ChatbotPage.HandleSendMessage` | app/chatbot/page.tsx:40-86 | blank content changes nothing; otherwise exactly the user's message and then the bot's reply are appended, the input is cleared and loading ends |
| `Chatbot.ChatbotPage.SendInput` | app/chatbot/page.tsx:40 | the default argument: sends the current input |
| `ChatRoute.Respond` | app/api/chat/route.ts:10-25 | "budget" anywhere gives the budget reply; otherwise "invest" gives the investing reply |
| `ChatRoute.RouteAgreesWithPage` | app/api/chat/route.ts:10-25 | the route's reply equals the chat page's reply for every text |
| `ChatRoute.RespondRules` | app/api/chat/route.ts:10-25 | one reply per message; the first matching rule wins in the order budget, invest, credit score, debt and save; no keyword gives the default |
| `ChatRoute.RespondIgnoresCase` | app/api/chat/route.ts:10-19 | matching is on the lowercased message |
| `Savings.MonthlySavingsRequired` | app/services/savings/page.tsx:16 | for any real months ≠ 0, fractional ones included, amount × months = target − current; none for 0 months |
| `Savings.FractionalMonths` | app/services/savings/page.tsx:97 | a fractional month count read by `Number` divides as it is: 8000 over 1.5 months is 16000/3 |
| `Savings.ProgressPercentage` | app/services/savings/page.tsx:19 | progress × target = current × 100; none for a zero target |
| `Savings.GoalMetIsHundred` | app/services/savings/page.tsx:19 | current = target ≠ 0 shows 100 |
| `Savings.DefaultInputs` | app/services/savings/page.tsx:11-19 | the initial inputs need 1000/3 a month and show 20% |
| `Savings.ChallengeTotalClosedForm` | app/services/savings/page.tsx:24-28 | the total after week n is 5·n·(n+1)/2 |
| `Savings.ChallengeTotalIncreasing` | app/services/savings/page.tsx:28 | totals strictly increase week over week |
| `Savings.GenerateWeeklySavingsData` | app/services/savings/page.tsx:22-38 | 52 rows; week i saves 5·i with total 5·i·(i+1)/2; totals strictly increasing; week 52 saves 260 and the total is 6890 |
| `Budgeting.Remaining` | app/budgeting/page.tsx:56 | remaining + expenses = income; non-negative iff expenses ≤ income |
| `Budgeting.SavingsRate` | app/budgeting/page.tsx:169 | 0 without positive income, else rate × income = remaining × 100 |
| `Budgeting.SavingsRateBounds` | app/budgeting/page.tsx:169 | with 0 ≤ expenses ≤ income the rate is in 0..100 |
| `Budgeting.DefaultFigures` | app/budgeting/page.tsx:51-56 | the initial page shows 650 remaining and a 130/7 % rate |
| `Budgeting.NextTip` | app/budgeting/page.tsx:61 | the next tip index is in range |
| `Budgeting.RotateIsShift` | app/budgeting/page.tsx:61 | k steps move a valid index k places modulo the tip count |
| `Budgeting.FullRotation` | app/budgeting/page.tsx:42-61 | five steps bring the tip index back |
| `Budgeting.TipRotation.constructor` | app/budgeting/page.tsx:53 | the tip index starts at 0 |
| `Budgeting.TipRotation.Tick` | app/budgeting/page.tsx:60-62 | one tick advances the index by one step and keeps it in range |
| `Budgeting.CategoryRow` | app/budgeting/page.tsx:236-239 | budget = 1.2 × spent, remaining = budget − spent, percentage × budget = spent × 100, none for a zero budget |
| `Budgeting.SpentCategoryRow` | app/budgeting/page.tsx:236-239 | with spent > 0: remaining 0.2 × spent > 0 and percentage 250/3 |
| `Budgeting.BandOf` | app/budgeting/page.tsx:256 | red above 90, yellow in (70, 90], green otherwise or without a value |
| `Budgeting.BarWidth` | app/budgeting/page.tsx:257 | min(percentage, 100), so at most 100 |
| `Budgeting.SpentCategoriesAreYellow` | app/budgeting/page.tsx:236-257 | every category with spending is yellow at 250/3 % width |
| `Budgeting.SampleRowsAreYellow` | app/budgeting/page.tsx:235-257 | every sample category row is yellow |
| `Investing.ProfileFor` | app/services/investing/page.tsx:71-77 | Conservative iff score ≤ 3, Aggressive iff ≥ 8, Moderate iff 4..7 |
| `Investing.ProfileMonotone` | app/services/investing/page.tsx:71-77 | a higher score never gets a more cautious profile |
| `Investing.ProfilesOnSlider` | app/services/investing/page.tsx:169-171 | slider minimum, initial score and maximum map to the three profiles |
| `Investing.InvestingPage.constructor` | app/services/investing/page.tsx:64-65 | score 5 with Moderate, which is what 5 maps to |
| `Investing.InvestingPage.SetRiskScore` | app/services/investing/page.tsx:173 | moving the slider changes the score only |
| `Investing.InvestingPage.HandleRiskCalculation` | app/services/investing/page.tsx:68-80 | the profile becomes the score's profile |
| `Investing.ConservativeColumn` | app/services/investing/page.tsx:12-21 | each conservative value is 10000 × 1.05^(year − 2022), rounded to the dollar |
| `Investing.ModerateColumn` | app/services/investing/page.tsx:12-21 | each moderate value is 10000 × 1.10^(year − 2022), rounded |
| `Investing.AggressiveColumn` | app/services/investing/page.tsx:12-21 | each aggressive value is 10000 × 1.15^(year − 2022), rounded |
| `Resources.Excerpt` | app/resources/page.tsx:81 | content of ≤ 120 characters is its own excerpt; longer content gives its first 120 characters and "..."; at most 123 characters |
| `Resources.ExcerptIsPrefix` | app/resources/page.tsx:81 | what precedes any "..." is a prefix of the content |
| `Resources.CategoryOrDefault` | app/resources/page.tsx:83 | an empty category becomes "Uncategorized", others are kept |
| `Resources.NewBlog` | app/resources/page.tsx:79-86 | the post takes the form's title and image, the excerpt, the defaulted category, the date and author "You" |
| `Resources.ResourcesPage.constructor` | app/resources/page.tsx:20-54 | form closed, empty form with the placeholder image, no preview, the three sample posts |
| `Resources.ResourcesPage.HandleCategoryChange` | app/resources/page.tsx:61-63 | sets the form's category only |
| `Resources.ResourcesPage.HandleSubmit` | app/resources/page.tsx:70-107 | the new post goes first and the earlier posts follow unchanged; form reset; form, preview and submitting all off |
| `Resources.ResourcesPage.TogglePreview` | app/resources/page.tsx:109-111 | flips the preview flag and nothing else |
| `Resources.TogglePreviewTwice` | app/resources/page.tsx:109-111 | toggling twice restores the preview flag |

## Left out

- Rendering: the markup, styles, charts, alerts, console logging and
  navigation. The sign-up page records the target of `router.push` as a field.
- `getIncomeExpensesData` (app/dashboard/page.tsx:197-258) is not part of this
  model. It only feeds a chart.
- Generic form-field setters are not modelled: `handleInputChange` and
  `handleSelectChange` on the dashboard and `handleChange` on the sign-up and
  resources pages. `HandleCategoryChange` stands for them.
- Dates and calendars: `new Date()`, the start date of the week/month/year
  range, `toLocaleDateString`, and the date revival after parsing. Callers
  supply the start date and the formatted date. Months in a date are 0-based,
  as `getMonth` returns them.
- Serialisation is the identity. A stored value that parses but has the wrong
  shape (a number, `null`, an object where a list belongs, or a list of
  another kind) is not reproduced. The model reads the getter's default for
  it, which differs from the source in two ways:
  - `getFromStorage` returns such a value as it is. `getTransactions` and
    `getSavingsGoals` then call `.map` on it outside the `try`
    (lib/storage.ts:39-42, 77-80). For a non-array that throws a
    `TypeError`, which propagates out of `addTransaction`,
    `deleteTransaction`, `initializeDefaultData` and the dashboard's mount
    effect. The other getters return the value unchanged.
  - `LoadStoredUser` leaves the user as it was for such a value, where the
    source would set the user to the value itself.
- Failing `localStorage.setItem` calls (a full quota) are not modelled.
  `setToStorage` catches these errors (lib/storage.ts:30-34). Without them the
  mock `signup` cannot fail, so the sign-up page's catch branch
  (app/signup/page.tsx:52-53) has no counterpart here.
- Floating point: amounts are exact reals. Float round-off in the debt loop,
  in the 1.2 multiplier and in `toFixed` is not reproduced.
- Timers: the chat reply delay, the sign-up, login and publish delays, and the
  tip interval each run as an immediate step. So the intermediate
  `isLoading = true` states are not observable after a call. The tip interval
  is started from a state initializer, so its clean-up never runs; the model
  covers only the step.
- Ids: `crypto.randomUUID()` is a parameter. `Date.now()` ids are integers
  rather than their decimal strings.
- Text: lowercasing is ASCII only. String lengths count Unicode characters,
  not UTF-16 code units (this matters for the password length and for the
  120-character excerpt). `Number.parseFloat(form.amount)` and the risk
  score's `parseInt` are supplied already parsed.
- The chat route's request parsing and its HTTP 500 branch
  (app/api/chat/route.ts:3-5,27-30) are left out, as is the `useAuth` error
  for use outside the provider (context/auth-context.tsx:77-82).
- `Object.keys` lists integer-like keys first, in numeric order. The model
  keeps every category label in first-seen order.
- The auth provider writes local storage directly. It is a client component,
  so it always runs in a browser: its constructor requires a browser store.
- MonthlySavingsRequired: months is any real. A field that `Number` cannot
  read gives `NaN` in the source, and that is not modelled.
- MonthsAntitoneInPayment: assumes a non-negative rate. Below −1200% a year,
  the monthly multiplier is negative and the order can reverse.
- BalanceMonotoneInRate: requires that the balance has stayed positive up to
  month k. That is the only part of the balance the loop ever looks at.
- The hard-coded sample tables are not modelled: loan comparison, credit
  factors, emergency-fund figures and the investment tracker. The page's
  default debt scenario (5000 at 18% paying 200) is not evaluated either.
