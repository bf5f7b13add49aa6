# Budget Bloom Control: a Dafny model of the finance store and the screen rules

Budget Bloom Control is a personal-finance web app. Its state lives in one React
provider, `FinanceProvider`. The provider holds the user's transactions (income,
"receita", and expenses, "despesa") and investments. From these it derives income,
expenses, balance and savings rate. It also offers the mutations the screens call:
add, delete, and revalue an investment.

The screens apply small rules to that data:

- the status of a payment on a given day, the pending/paid tabs and the paid toggle;
- the ongoing/finished split of savings goals, contributions, the time-to-target
  message and the progress bar;
- the expense pie chart (grouping by category, sorting, percentages, colours);
- the six-month income/expense history;
- the investment totals and the value update;
- the checks and record construction of the three forms (payment, transaction, goal).

This project models the store and those rules and proves what they promise.

Modules, one per source file plus shared helpers:

| module | file | models |
|---|---|---|
| `Wrappers` | wrappers.dfy | `Option` and `Result` |
| `Seqs` | seqs.dfy | `filter`, `reduce` with `+`, `find`/`findIndex` over sequences |
| `Text` | text.dfy | decimal rendering of a number (`toString`), `replace` of the first occurrence |
| `FinanceContext` | finance_context.dfy | `src/contexts/FinanceContext.tsx` |
| `Records` | records.dfy | the goal and payment records the screens build |
| `PaymentsList` | payments_list.dfy | `src/components/finance/PaymentsList.tsx` |
| `GoalsList` | goals_list.dfy | `src/components/finance/GoalsList.tsx` |
| `ExpenseChart` | expense_chart.dfy | `src/components/dashboard/ExpenseChart.tsx` |
| `MonthlyHistoryChart` | monthly_history.dfy | `src/components/dashboard/MonthlyHistoryChart.tsx` |
| `Investimentos` | investimentos.dfy | `src/pages/Investimentos.tsx` |
| `PaymentsForm` | payments_form.dfy | `src/components/finance/PaymentsForm.tsx` |
| `TransactionForm` | transaction_form.dfy | `src/components/finance/TransactionForm.tsx` |
| `GoalForm` | goal_form.dfy | `src/components/finance/GoalForm.tsx` |

How the source maps onto Dafny:

- Money is `real`.
- A division by zero, the only source of a non-finite number here, is the
  `NotFinite` case of `Number`.
- The store is the class `FinanceContext.Store`. Its two `seq` fields are reassigned
  by its methods, as the React setters replace the arrays.
- Each form is a class whose fields are the form's `useState` values.
- A number input is `None` when empty. Otherwise it holds the number parsed from it.
- Text inputs that the code edits as strings stay strings. `parseFloat` is a
  parameter `parse`, and `None` stands for NaN.
- The clock (`Date.now()`, `new Date()`) is passed in as parameters.
- The source's `type` field is called `kind`, because `type` is a Dafny keyword.

The model follows the code:

- `savingsRate` is not rounded.
- Added records go first.
- Generated ids are not checked for collisions, so lookups by id take the first match.
- A store with nothing saved starts from the seed lists.

## Model

| member | source | states |
|---|---|---|
| `FinanceContext.BalanceIsIncomeMinusExpenses` | src/contexts/FinanceContext.tsx:133-145 | the balance reduce (add receitas, subtract every other transaction) equals income minus expenses, where income and expenses are the sums of the receita and despesa amounts |
| `FinanceContext.Balance` | src/contexts/FinanceContext.tsx:133-137 | one pass adding receitas and subtracting the rest; `BalanceIsIncomeMinusExpenses` and `AggregatesOfPrepend` state what it equals |
| `FinanceContext.Income` | src/contexts/FinanceContext.tsx:139-141 | the sum of the receita amounts; `AggregatesOfPrepend` and `SubmittedTransactionCounts` state how it moves |
| `FinanceContext.Expenses` | src/contexts/FinanceContext.tsx:143-145 | the sum of the despesa amounts; `AggregatesOfPrepend`, `GroupsTotal` and `SortedGroupsCorrect` tie it to the chart |
| `FinanceContext.SavingsRate` | src/contexts/FinanceContext.tsx:147 | 0 when income is not positive; otherwise exactly (income - expenses) / income * 100, unrounded |
| `FinanceContext.SavingsRateBounds` | src/contexts/FinanceContext.tsx:139-147 | with non-negative amounts the savings rate is at most 100, and with positive income it is non-negative exactly when expenses do not exceed income |
| `FinanceContext.AggregatesOfPrepend` | src/contexts/FinanceContext.tsx:133-154 | putting a transaction in front raises income (receita) or expenses (despesa) by its amount and the balance by its signed amount |
| `FinanceContext.WithoutTransaction` | src/contexts/FinanceContext.tsx:165-167 | keeps exactly the transactions with another id; an absent id leaves the list as it was |
| `FinanceContext.WithoutInvestment` | src/contexts/FinanceContext.tsx:169-171 | keeps exactly the investments with another id; an absent id leaves the list as it was |
| `FinanceContext.DeleteTwiceIsDeleteOnce` | src/contexts/FinanceContext.tsx:165-171 | a second delete of the same id changes nothing |
| `FinanceContext.DeleteKeepsOrder` | src/contexts/FinanceContext.tsx:165-171 | delete distributes over concatenation, so the kept entries stay in order |
| `FinanceContext.GrowthPercent` | src/contexts/FinanceContext.tsx:176 | growth is non-finite exactly when the invested value is 0; otherwise growth * value = (newValue - value) * 100 |
| `FinanceContext.Revalued` | src/contexts/FinanceContext.tsx:173-181 | same length; other ids untouched; matching entries get the new current value and the recomputed growth, with every other field kept |
| `FinanceContext.SeedGrowthConsistent` | src/contexts/FinanceContext.tsx:84-112 | each seed investment's growth (5, 8, 3) is what a revaluation to its current value computes |
| `FinanceContext.Store.constructor` | src/contexts/FinanceContext.tsx:115-123 | the saved lists when there are some, the seed lists otherwise |
| `FinanceContext.Store.AddTransaction` | src/contexts/FinanceContext.tsx:149-155 | the new transaction, with id "t" + clock, is at index 0, the old list is the tail, and income or expenses grows by its amount by type |
| `FinanceContext.Store.AddInvestment` | src/contexts/FinanceContext.tsx:157-163 | the new investment, with id "i" + clock, is at index 0 and the old list is the tail |
| `FinanceContext.Store.DeleteTransaction` | src/contexts/FinanceContext.tsx:165-167 | exactly the transactions with that id are removed; investments untouched |
| `FinanceContext.Store.DeleteInvestment` | src/contexts/FinanceContext.tsx:169-171 | exactly the investments with that id are removed; transactions untouched |
| `FinanceContext.Store.UpdateInvestmentValue` | src/contexts/FinanceContext.tsx:173-181 | the investments become their revaluation, length kept; transactions untouched |
| `FinanceContext.UseFinance` | src/contexts/FinanceContext.tsx:204-210 | fails, with the provider message, exactly when there is no provider; otherwise gives the provider's store |
| `Text.NatTextInjective` | src/contexts/FinanceContext.tsx:152 | different clock readings give different id texts |
| `PaymentsList.PaymentStatus` | src/components/finance/PaymentsList.tsx:55-81 | "Pago" exactly when paid; unpaid payments are "Atrasado", "Vence hoje" or "Pendente" exactly when the due day is before, on or after the current day |
| `PaymentsList.Status.Label` | src/components/finance/PaymentsList.tsx:55-80 | the badge text of each status; `LabelsDistinct` states the four are different |
| `PaymentsList.IsLate` | src/components/finance/PaymentsList.tsx:114 | the red-border test; `IsLateIffLateStatus` states it agrees with the "Atrasado" badge |
| `PaymentsList.IsLateIffLateStatus` | src/components/finance/PaymentsList.tsx:114 | the late row marker holds exactly when the status is "Atrasado" |
| `PaymentsList.LabelsDistinct` | src/components/finance/PaymentsList.tsx:55-80 | the four badges carry four different labels |
| `PaymentsList.FilteredPayments` | src/components/finance/PaymentsList.tsx:21-25 | the payments shown are those of the list that the tab admits |
| `PaymentsList.FilterTabs` | src/components/finance/PaymentsList.tsx:21-25 | "all" shows the whole list; "pending" and "paid" split it, each payment in exactly one; every tab keeps the order |
| `PaymentsList.Toggled` | src/components/finance/PaymentsList.tsx:31-34 | the record differs from the original only in `isPaid`, which is negated |
| `PaymentsList.TogglePaid` | src/components/finance/PaymentsList.tsx:27-36 | no update for an unknown id; otherwise the toggled record of the first payment with that id |
| `PaymentsList.ToggleTwice` | src/components/finance/PaymentsList.tsx:31-34 | toggling twice gives the original record back |
| `GoalsList.Ongoing` | src/components/finance/GoalsList.tsx:17 | the goals whose current amount is below the target |
| `GoalsList.Finished` | src/components/finance/GoalsList.tsx:18 | the goals whose current amount reaches the target |
| `GoalsList.OngoingFinishedPartition` | src/components/finance/GoalsList.tsx:17-18 | every goal is in exactly one of the two lists, as often as in the goals |
| `GoalsList.AddToGoal` | src/components/finance/GoalsList.tsx:20-28 | nothing for an unknown id; otherwise the first goal with that id with only its current amount raised by the contribution, and `completed` exactly when the new amount reaches the target |
| `GoalsList.CompletedIffFinished` | src/components/finance/GoalsList.tsx:23 | `completed` holds exactly when the updated goal belongs to the finished list |
| `GoalsList.CustomText` | src/components/finance/GoalsList.tsx:42 | "0" for a missing or empty input; otherwise `ReplaceFirst` of the input, which turns exactly its first "," into "." |
| `Text.ReplaceFirst` | src/components/finance/GoalsList.tsx:42 | same length; unchanged without the pattern character; otherwise exactly the first occurrence replaced, everything before it free of the pattern and everything after it kept |
| `Text.ReplaceFirstExample` | src/components/finance/GoalsList.tsx:42 | "1,2,5" becomes "1.2,5": only the first comma is replaced |
| `GoalsList.CustomTextFirstCommaOnly` | src/components/finance/GoalsList.tsx:42 | an input "1,2,5" is parsed from "1.2,5" |
| `GoalsList.GoalsListState.constructor` | src/components/finance/GoalsList.tsx:14 | no contribution typed yet |
| `GoalsList.GoalsListState.HandleAddCustom` | src/components/finance/GoalsList.tsx:41-46 | a NaN or non-positive value changes nothing; any other is contributed and clears only that goal's input; an empty input is never contributed |
| `GoalsList.Ceil` | src/components/finance/GoalsList.tsx:60 | the least integer not below x |
| `GoalsList.MonthsNeeded` | src/components/finance/GoalsList.tsx:59-60 | the fewest whole months of contributions that reach the remaining amount, at least 1 |
| `GoalsList.EstimateFor` | src/components/finance/GoalsList.tsx:56-66 | reached exactly when current >= target; contribution needed exactly when ongoing with a non-positive monthly amount; otherwise one month, n months (2 <= n < 12), or years*12 + rest = months with 0 <= rest < 12 |
| `GoalsList.Unit` | src/components/finance/GoalsList.tsx:65-66 | the singular word exactly when the count is 1 |
| `GoalsList.EstimateText` | src/components/finance/GoalsList.tsx:61-66 | "Aproximadamente 1 mês" for one month, "Aproximadamente n meses" for n months, and for a year estimate the remainder part is present exactly when the remainder is not 0 |
| `GoalsList.TimeToTargetFixedMessages` | src/components/finance/GoalsList.tsx:57-58 | "Meta atingida!" for a reached goal and "Contribuição mensal necessária" for an ongoing one without a positive monthly amount |
| `GoalsList.TimeToTargetExample` | src/components/finance/GoalsList.tsx:59-66 | 10000 to go at 500 a month reads "Aproximadamente 1 ano e 8 meses" |
| `GoalsList.TimeToTarget` | src/components/finance/GoalsList.tsx:56-67 | `calculateTimeToTarget` as the text of `EstimateFor`; `TimeToTargetFixedMessages` states the two fixed messages and `TimeToTargetCountedMessages` the four month-count messages |
| `GoalsList.TimeToTargetCountedMessages` | src/components/finance/GoalsList.tsx:59-66 | with something left to save and a positive contribution, the text for m = `Math.ceil(remaining / monthly)` months: "1 mês" when m <= 1, "m meses" below 12, otherwise years with the remainder months only when the remainder is not 0 |
| `GoalsList.Progress` | src/components/finance/GoalsList.tsx:86 | always within [0, 100]; with a positive target and non-negative current amount it is exactly current / target * 100; a negative current amount against a non-negative target clamps to 0, and a negative target (so a ratio above 100) clamps to 100 |
| `ExpenseChart.CategoryIndex` | src/components/dashboard/ExpenseChart.tsx:20 | -1 exactly when no group has the category; otherwise a group of that category |
| `ExpenseChart.GroupByCategoryCorrect` | src/components/dashboard/ExpenseChart.tsx:19-30 | the groups have distinct categories, exactly the categories of the expenses, and each amount is the sum of that category's amounts |
| `ExpenseChart.GroupByCategory` | src/components/dashboard/ExpenseChart.tsx:19-30 | the `reduce` fold over the despesas; `GroupByCategoryCorrect` and `GroupsTotal` state its meaning |
| `ExpenseChart.GroupsTotal` | src/components/dashboard/ExpenseChart.tsx:36 | the groups add up to the sum of the grouped amounts |
| `ExpenseChart.GroupExpenses` | src/components/dashboard/ExpenseChart.tsx:16-30 | the grouping loop over the despesas builds the grouping of the despesa transactions |
| `ExpenseChart.SortByAmountDescending` | src/components/dashboard/ExpenseChart.tsx:33 | in place, the amounts end non-increasing and the groups are a permutation of those before |
| `ExpenseChart.InsertAt` | src/components/dashboard/ExpenseChart.tsx:33 | one insertion extends the sorted prefix by one cell and permutes the array |
| `ExpenseChart.SortedExpensesByCategory` | src/components/dashboard/ExpenseChart.tsx:16-33 | the chart's groups are sorted largest first and are a permutation of the grouping of the despesas |
| `ExpenseChart.SortedGroupsCorrect` | src/components/dashboard/ExpenseChart.tsx:19-36 | after sorting each group's amount is still its category's sum, the categories are still distinct and are those of the despesas, and `totalExpenses` equals the expenses of the store |
| `ExpenseChart.Percentage` | src/components/dashboard/ExpenseChart.tsx:40 | 0 when the total is not positive; otherwise percentage * total = amount * 100, within [0, 100] for an amount within the total |
| `ExpenseChart.ChartEntryAt` | src/components/dashboard/ExpenseChart.tsx:37-41 | entry i names group i, shows its amount, has percentage `Percentage(amount, totalExpenses)` (amount / total * 100, or 0 when the total is not positive) and is drawn in colour i mod 8 |
| `ExpenseChart.Entries` | src/components/dashboard/ExpenseChart.tsx:37-41 | one entry per group; `ChartEntryAt` states each entry's name, value, percentage and colour, and `EntriesPercentageSum` the percentages' sum |
| `ExpenseChart.ChartData` | src/components/dashboard/ExpenseChart.tsx:36-41 | one entry per group against `totalExpenses`; `ChartEntryAt` states each entry's percentage is its amount's share of that total, and `ChartPercentagesSumTo100` that they add up to 100 |
| `ExpenseChart.EntriesPercentageSum` | src/components/dashboard/ExpenseChart.tsx:36-41 | the entries' percentages add up to the percentage that the groups' sum is of the total |
| `ExpenseChart.PercentageAdditive` | src/components/dashboard/ExpenseChart.tsx:40 | the percentage of a sum of two amounts is the sum of their percentages, for every total |
| `ExpenseChart.ChartPercentagesSumTo100` | src/components/dashboard/ExpenseChart.tsx:36-41 | with a positive total the chart's percentages add up to 100 |
| `MonthlyHistoryChart.DaysInMonth` | src/components/dashboard/MonthlyHistoryChart.tsx:22 | the last day of a month is between 28 and 31 |
| `MonthlyHistoryChart.MonthStart` | src/components/dashboard/MonthlyHistoryChart.tsx:21 | the 1st of the month, a valid day |
| `MonthlyHistoryChart.MonthEnd` | src/components/dashboard/MonthlyHistoryChart.tsx:22 | the last day of the month, a valid day |
| `MonthlyHistoryChart.InWindowIffSameMonth` | src/components/dashboard/MonthlyHistoryChart.tsx:21-28 | a valid day is between a month's first and last day exactly when it is in that month |
| `MonthlyHistoryChart.InWindow` | src/components/dashboard/MonthlyHistoryChart.tsx:21-27 | the `tDate >= monthStart && tDate <= monthEnd` test on calendar days; `InWindowIffSameMonth` states it is "same month" |
| `MonthlyHistoryChart.WindowsDisjoint` | src/components/dashboard/MonthlyHistoryChart.tsx:19-28 | no day lies in the windows of two different months |
| `MonthlyHistoryChart.GenerateMonthlyData` | src/components/dashboard/MonthlyHistoryChart.tsx:15-50 | six points, point k for the month 5 - k months before today's, so the oldest first and the current month last |
| `MonthlyHistoryChart.MonthMembership` | src/components/dashboard/MonthlyHistoryChart.tsx:25-28 | a transaction is counted in a month exactly when its date parses to a day of that month; unparsable dates count nowhere |
| `MonthlyHistoryChart.MonthTransactions` | src/components/dashboard/MonthlyHistoryChart.tsx:25-28 | the month's filter; `MonthMembership` and `CountedAtMostOnce` state who is counted |
| `MonthlyHistoryChart.Bucket` | src/components/dashboard/MonthlyHistoryChart.tsx:25-46 | one chart point; `BucketBalance` and `BucketOfOneMonth` state its figures |
| `MonthlyHistoryChart.CountedAtMostOnce` | src/components/dashboard/MonthlyHistoryChart.tsx:19-28 | no transaction is counted in two different months |
| `MonthlyHistoryChart.BucketBalance` | src/components/dashboard/MonthlyHistoryChart.tsx:31-39 | a point's balance, income minus expense, is the month's signed sum |
| `MonthlyHistoryChart.BucketOfOneMonth` | src/components/dashboard/MonthlyHistoryChart.tsx:25-39 | over transactions of one month, that month's point holds their income and expenses and every other month's point is all zero |
| `Investimentos.CurrentOrValue` | src/pages/Investimentos.tsx:172 | the current value, or the invested value when the current one is absent or 0 |
| `Investimentos.TotalGrowth` | src/pages/Investimentos.tsx:171-173 | 0 when the total invested is not positive; otherwise growth * invested = (current - invested) * 100 |
| `Investimentos.TotalInvested` | src/pages/Investimentos.tsx:171 | the sum of the invested values; `RevaluedKeepsInvested` states a revaluation keeps it |
| `Investimentos.TotalCurrent` | src/pages/Investimentos.tsx:172 | the sum of each current value, or of the invested value where that is absent or 0; `RevaluedCurrent` states how a revaluation moves it |
| `Investimentos.SummaryOf` | src/pages/Investimentos.tsx:297-300 | the invested and current totals are `TotalInvested` and `TotalCurrent` of the investments, current = invested + diff, and the gain flag holds exactly when the current total is at least the invested one |
| `Investimentos.GrowthAgreesWithSummary` | src/pages/Investimentos.tsx:171-173 | with something invested, the list's growth is non-negative exactly when the summary shows a gain |
| `Investimentos.RevaluedKeepsInvested` | src/pages/Investimentos.tsx:171 | a revaluation never changes the total invested |
| `Investimentos.RevaluedCurrent` | src/pages/Investimentos.tsx:172 | with unique ids, revaluing one investment to a non-zero value replaces its term of the current total by the new value |
| `Investimentos.SubmittedInvestment` | src/pages/Investimentos.tsx:36-52 | rejected exactly when name, type, value or date is empty; otherwise the form's fields |
| `Investimentos.NewInvestmentStartsFlat` | src/pages/Investimentos.tsx:45-52 | an added investment has current value = value and growth 0, for every accepted value including 0; for a non-zero value that is the growth a revaluation to it computes; it leaves the summary's difference unchanged |
| `Investimentos.InvestmentForm.constructor` | src/pages/Investimentos.tsx:28-31 | empty fields and today's date |
| `Investimentos.InvestmentForm.HandleSubmit` | src/pages/Investimentos.tsx:33-63 | a rejected submit changes nothing; an accepted one puts the investment first in the store and clears the form, the date back to today |
| `Investimentos.ValueText` | src/pages/Investimentos.tsx:148 | the row's input, or "0" when it is missing or empty |
| `Investimentos.InvestmentList.constructor` | src/pages/Investimentos.tsx:137 | no value typed yet |
| `Investimentos.InvestmentList.HandleUpdateValue` | src/pages/Investimentos.tsx:147-169 | a NaN or 0 value (an empty input included) changes nothing; any other, negative ones included, revalues the investment and clears only its row's input |
| `PaymentsForm.CardOf` | src/components/finance/PaymentsForm.tsx:47-51 | the new card name when the new-card field is shown and filled, else the selected card; an empty name gives no card |
| `PaymentsForm.Submit` | src/components/finance/PaymentsForm.tsx:34-90 | a payment exactly when description, amount and due day are filled and the installment checks pass; a card request exactly when the required fields are filled and a new card is named; the payment is unpaid, has installments exactly for an installment payment, and then current <= total |
| `PaymentsForm.CardRequestedThenRejected` | src/components/finance/PaymentsForm.tsx:46-71 | a submit rejected for its installments still requests the new card |
| `PaymentsForm.NewPaymentNotPaid` | src/components/finance/PaymentsForm.tsx:80 | a new payment's status is never "Pago", and toggling it marks it paid |
| `PaymentsForm.NenhumIsKeptAsCardName` | src/components/finance/PaymentsForm.tsx:82 | choosing "Nenhum" records the card name "nenhum" |
| `PaymentsForm.Form.constructor` | src/components/finance/PaymentsForm.tsx:21-30 | every field empty or off |
| `PaymentsForm.Form.HandleSubmit` | src/components/finance/PaymentsForm.tsx:34-108 | returns what `Submit` gives for the form; a success clears every field and a rejection changes none |
| `PaymentsForm.Form.SelectCard` | src/components/finance/PaymentsForm.tsx:204-211 | "new" shows the new-card field and clears the selection; any other value is selected and hides the field; nothing else changes |
| `PaymentsForm.SelectedCardIsRecorded` | src/components/finance/PaymentsForm.tsx:47-51 | after choosing an existing card, an accepted payment carries that card |
| `TransactionForm.Categories` | src/components/finance/TransactionForm.tsx:13-16 | 4 categories for receita, 7 for despesa, both ending in "Outros" |
| `TransactionForm.CategoriesShareOnlyOutros` | src/components/finance/TransactionForm.tsx:13-16 | the two lists share only "Outros" |
| `TransactionForm.SubmittedTransaction` | src/components/finance/TransactionForm.tsx:29-44 | rejected exactly when description, amount or category is empty; otherwise today's date, the chosen type and category and the amount |
| `TransactionForm.SubmittedTransactionCounts` | src/components/finance/TransactionForm.tsx:38-44 | an accepted transaction adds its amount to income for receita and to expenses for despesa |
| `TransactionForm.TransactionFormState.constructor` | src/components/finance/TransactionForm.tsx:21-24 | type receita and empty fields |
| `TransactionForm.TransactionFormState.ChangeType` | src/components/finance/TransactionForm.tsx:69-72 | the type changes, the category is cleared, the rest kept |
| `TransactionForm.TransactionFormState.SelectCategory` | src/components/finance/TransactionForm.tsx:86-96 | only a category of the current type can be chosen |
| `TransactionForm.TransactionFormState.HandleSubmit` | src/components/finance/TransactionForm.tsx:26-55 | a rejected submit changes nothing; an accepted one puts the transaction first and clears description, amount and category, keeping the type; the category recorded is one offered for its type |
| `GoalForm.SubmittedGoal` | src/components/finance/GoalForm.tsx:20-36 | rejected exactly when name or target is empty; otherwise the form's name and target, blank current and monthly amounts as 0, the clock id and time |
| `GoalForm.NewGoalPlacement` | src/components/finance/GoalForm.tsx:29-36 | a new goal with blank current amount is ongoing exactly when its target is positive, and with blank monthly amount it asks for a contribution |
| `GoalForm.GoalFormState.constructor` | src/components/finance/GoalForm.tsx:12-15 | all four fields empty |
| `GoalForm.GoalFormState.HandleSubmit` | src/components/finance/GoalForm.tsx:17-50 | returns the submitted goal; a success clears all four fields and a rejection changes none |

## Left out

- Persistence: `localStorage` and `JSON.parse`/`stringify` are browser I/O. The store's constructor receives the already-parsed saved lists.
- The clock: `Date.now()`, `new Date()`, `toISOString` and `format(..., "yyyy-MM-dd")` become parameters.
- Time zones: the model compares calendar days, as the code does only in a UTC time zone. `new Date(t.date)` reads a date-only string as UTC midnight, while `monthStart` and `monthEnd` are local midnights, and `monthEnd` is 00:00 of the month's last day (src/components/dashboard/MonthlyHistoryChart.tsx:21-27). As a result, west of UTC (UTC−3, say) a transaction dated the 1st of a month lands before that month's start and after the previous month's end, so it falls in no point; east of UTC a transaction dated a month's last day lands after that month's end and falls in no point. `MonthlyHistoryChart.MonthMembership` therefore states the behaviour at UTC, not in every time zone.
- Date parsing: `parseDate` stands for `new Date(t.date)`, and the model assumes it yields a valid calendar day or nothing.
- Month labels: `format(month, 'MMM')` is not modelled. A point carries its month key (year * 12 + month) instead.
- `subMonths`: it is modelled as month arithmetic.
- Number parsing: `parseFloat` and `parseInt` of typed text are inputs (`Option`) or the `parse` parameter. A decimal typed where `parseInt` reads it is not modelled.
- Floating point: IEEE rounding and which non-finite value (NaN or Infinity) a division by zero gives are not modelled.
- Number formatting: `toFixed` and `toLocaleString` are not modelled.
- Browser validation: the `min`/`max` attributes of the number inputs are not modelled; the model accepts any number the handlers accept.
- `ExpenseChart.Percentage`: keeps the percentage as a number, because `toFixed(1)` turns it into a string.
- `GoalsList.EstimateFor`: takes the monthly contribution as always present. Records always carry one, so the `!goal.monthlyContribution` test reduces to `<= 0`.
- `ExpenseChart.SortByAmountDescending`: the sort is stable, but the model does not state it.
- Sort comparator: the comparator's NaN behaviour is not modelled.
- UI side effects: toasts, the `animateDone` flags and their `setTimeout`, rendering, charts and styling are not modelled.
- Undefined store operations: `addGoal`, `updateGoal`, `deleteGoal`, `addPayment`, `updatePayment`, `deletePayment`, `createNewCardIfNotExists` and `cards` are not defined in `src/contexts/FinanceContext.tsx`. The screens' handlers return the record or name they pass to these operations.
- `handleDeletePayment` and `handleDeleteGoal` only forward an id to an undefined operation.
