# C4D loan calculator: the schedule engine and the screen logic, in Dafny

This project models the computational core of the C4D calculator, a React Native loan
calculator, and proves properties of that model:

- **The payment and schedule engine** (`loan_math.dfy`, from `utils.ts`):
  - `calculateLoan` computes the annuity payment and the total cost;
  - `generateAmortization` is a month-by-month loop over a running balance. It starts from
    `amount - prepayments` and pays the base payment of the original amount plus an extra
    amount each month.
  
  The loop is an imperative method proved equal to a recursive specification. The lemmas on
  that specification cover:
  - the row count, with months numbered from 1;
  - the exact split of each payment into interest and principal;
  - the chaining of balances from one row to the next;
  - non-negative and strictly falling balances;
  - the telescoping sum of principal;
  - a schedule that stops before the term ends has paid the loan off; with non-negative extras
    and a prepayment below the amount the last balance is 0 within the term, and with nothing
    extra the schedule runs exactly the term;
  - that a prepayment never lengthens the schedule or adds interest.
- **The amortization screen** (`amortization_screen.dfy`):
  - the per-loan scenario totals;
  - the arguments handed to the generator;
  - the schedule's title;
  - the combined schedule of all saved loans. Its nested loops are methods proved against a
    specification function. Lemmas show that the combined schedule emits a month exactly when
    its totals are positive, that it does not depend on the order of the loans, and that one
    loan's combined view is its own schedule;
  - the summary totals.
- **The prepayment history screen** (`prepayment_history.dfy`):
  - the savings of a scenario against the plain schedule;
  - the loan's scenario list: filtered, sorted newest first by an in-place insertion sort on
    an array, and deleted from.
- **The debt-to-income calculator** (`debt_income.dfy`):
  - the debt list, with the trimmed debt name;
  - the ratios, the four qualification bands, and the maximum and recommended payments.
- **The lock screen** (`passcode.dfy`): the four-digit entry buffer and the unlock rule.
- **The passcode settings and the data reset** (`settings.dfy`). They run over a key-value
  store; the model keeps the "enabled" switch consistent with the stored passcode.
- **Saved-loan deletion** (`saved_loans.dfy`).

How the model represents the app:
- Amounts are exact `real`s. `Math.pow` is a recursive power on a natural exponent.
- Terms are whole years.
- The records of `types.ts` are datatypes (`types.dfy`).
- Screens whose state the app updates in place are classes. Their fields are the React state
  and the storage entries the screen reads and writes.
- The `Array.filter` calls are the generic `Keep` and `Without` of `lists.dfy`.

## Model

| member | source | states |
|---|---|---|
| LoanMath.MonthlyRate | utils.ts:14 | the monthly rate is the yearly percentage divided by 1200, and positive for a positive rate |
| LoanMath.Pow | utils.ts:16-17 | `Math.pow` of a positive base is positive |
| LoanMath.CalculateLoan | utils.ts:13-20 | the total cost is the monthly payment times term*12; for a positive amount the payment exceeds one month's interest on the whole amount (a zero amount pays 0, a negative one mirrors this), because the annuity factor exceeds 1 |
| LoanMath.PaymentCoversInterest | utils.ts:14-17 | with non-negative extras, base payment plus extra exceeds the first month's interest on `amount - prepayments` |
| LoanMath.ScheduleFrom | utils.ts:34-47 | from month m the loop emits at most last-m+1 rows, numbered m, m+1, ... |
| LoanMath.Amortization | utils.ts:22-50 | the schedule has at most term*12 rows, row i is month i+1, and a prepayment of at least the amount leaves it empty |
| LoanMath.GenerateAmortization | utils.ts:22-50 | the method computes exactly the schedule `Amortization` specifies |
| LoanMath.PayDown | utils.ts:31-49 | the loop, run from the opening balance, yields exactly `ScheduleFrom(start, 1, term*12, ...)` |
| LoanMath.AmortizationRowsChain | utils.ts:31-45 | each row's interest is its opening balance times the monthly rate; its principal is at most that balance; payment = interest + principal exactly; the next row opens with this row's balance; every balance is >= 0; the first row opens at `amount - prepayments` |
| LoanMath.AmortizationTelescopes | utils.ts:31-47 | principals sum to `(amount - prepayments)` minus the last balance; payments sum to interest plus principal; a schedule shorter than term*12 ends at balance 0; an empty one means nothing was owed |
| LoanMath.AmortizationBalancesDecrease | utils.ts:32-45 | with rate > 0 and non-negative extras, every principal is positive and every balance is strictly below the one before it |
| LoanMath.AmortizationPaymentsPositive | utils.ts:35-37 | with rate > 0 and non-negative extras, every payment is positive |
| LoanMath.PrepaymentNeverHurts | utils.ts:31-38 | a non-negative prepayment and extra never lengthen the schedule or raise its total interest over the plain schedule of the same loan |
| LoanMath.AmortizationPaysOffOnTime | utils.ts:13-47 | with no extra and no prepayment, a positive loan's schedule has exactly term*12 rows and its last balance is exactly 0 |
| LoanMath.ScheduleFromCompareLast | utils.ts:34-47 | from a lower opening balance with at least as much extra, a schedule of the same length ends no higher |
| LoanMath.PrepaymentPaysOff | utils.ts:31-47 | with rate > 0, a non-negative extra and 0 <= prepayment < amount, the schedule has 1..term*12 rows and its last balance is 0 |
| LoanMath.SumPayment | screens/AmortizationScreen.tsx:291 | the total of the payments is 0 for no rows |
| LoanMath.SumInterest | screens/AmortizationScreen.tsx:292 | the total of the interest is 0 for no rows |
| LoanMath.SumsOfNonNegativeRows | screens/AmortizationScreen.tsx:291-292 | rows with non-negative payments (interest) have a non-negative payment (interest) total |
| LoanMath.PaymentClosedForm | utils.ts:14-17 | the annuity payment is `c * mr * q^n` with `amount = c * (q^n - 1)`, q = 1 + monthly rate |
| LoanMath.ScheduleFollows | utils.ts:34-47 | balances that step month by month as the loop does produce a schedule of the full length ending at the last of them |
| AmortizationScreen.SumExtraMonthly | screens/AmortizationScreen.tsx:99 | the scenarios' extra monthly total is 0 for no scenarios |
| AmortizationScreen.SumPrepayments | screens/AmortizationScreen.tsx:100 | the scenarios' prepayment total is 0 for no scenarios |
| AmortizationScreen.SumsNonNegative | screens/AmortizationScreen.tsx:99-100 | scenarios with non-negative amounts sum to non-negative totals |
| AmortizationScreen.ScenariosOf | screens/AmortizationScreen.tsx:98 | the filter keeps exactly the scenarios of that loan and is no longer than the list |
| AmortizationScreen.SumsAppend | screens/AmortizationScreen.tsx:99-100 | the two reductions over scenarios distribute over concatenation |
| AmortizationScreen.TotalPrepayments | screens/AmortizationScreen.tsx:97-103 | no scenarios give the totals (0, 0) |
| AmortizationScreen.TotalPrepaymentsOtherLoans | screens/AmortizationScreen.tsx:97-103 | when no scenario belongs to the loan, the filter keeps none and the totals are (0, 0) |
| AmortizationScreen.TotalPrepaymentsAddScenario | screens/AmortizationScreen.tsx:98-100 | a scenario saved for the loan adds exactly its own extra and prepayment to the totals; one saved for another loan adds nothing |
| AmortizationScreen.TotalPrepaymentsAppend | screens/AmortizationScreen.tsx:98-100 | the totals over two lists of scenarios add up |
| AmortizationScreen.ScheduleArgs | screens/AmortizationScreen.tsx:107-119 | the generator gets the loan's amount, rate and term; without scenarios its extra and prepayment are the loan's own, absent counting as 0 |
| AmortizationScreen.LoanSchedule | screens/AmortizationScreen.tsx:107-119 | at most term*12 rows numbered 1, 2, ...; empty when the total prepayment reaches the amount |
| AmortizationScreen.LoanScheduleWithoutScenarios | screens/AmortizationScreen.tsx:107-119 | a loan without scenarios is scheduled with its own extra and prepayment, an absent one counting as 0 |
| AmortizationScreen.ScheduleArgsAddScenario | screens/AmortizationScreen.tsx:107-119 | a new scenario for the loan raises the generator's extra and prepayment by its amounts; one for another loan changes nothing |
| AmortizationScreen.ScheduleArgsNonNegative | screens/AmortizationScreen.tsx:107-111 | non-negative amounts on the loan and its scenarios give the generator non-negative extras |
| AmortizationScreen.LoanSchedules | screens/AmortizationScreen.tsx:140-149 | one schedule per saved loan, in order, each built with that loan's arguments as in the single-loan view |
| AmortizationScreen.ScenarioNames | screens/AmortizationScreen.tsx:130 | the names of the scenarios, one per scenario, in list order |
| AmortizationScreen.DisplayName | screens/AmortizationScreen.tsx:124-132 | the title starts with the loan's name, and is just the name exactly when the loan has no scenarios |
| AmortizationScreen.DisplayNameJoinsScenarioNames | screens/AmortizationScreen.tsx:124-132 | with scenarios the title is `name (s1, s2, ...)` in list order (one scenario: `name (s)`), otherwise the name alone |
| AmortizationScreen.CombinedTitle | screens/AmortizationScreen.tsx:184-187 | the combined title starts with "Combined (" and ends with ")" |
| AmortizationScreen.FindMonth | screens/AmortizationScreen.tsx:161 | returns the first row with that month, or none when no row has it |
| AmortizationScreen.FindMonthConsecutive | screens/AmortizationScreen.tsx:161 | in a schedule numbered 1, 2, 3, ... month m is row m, and months outside 1..length are absent |
| AmortizationScreen.MonthTotals | screens/AmortizationScreen.tsx:155-168 | the month's totals carry that month |
| AmortizationScreen.MonthTotalsOfMissingMonth | screens/AmortizationScreen.tsx:160-167 | a month that no schedule holds totals to zero in every field |
| AmortizationScreen.MaxLen | screens/AmortizationScreen.tsx:151 | the longest schedule's length: no schedule is longer and one attains it; 0 for no schedules |
| AmortizationScreen.Combined | screens/AmortizationScreen.tsx:151-178 | at most maxLen rows, months strictly increasing within 1..maxLen, each row the month's field sums with a positive payment or balance |
| AmortizationScreen.CombinedUpTo | screens/AmortizationScreen.tsx:154-179 | rows of months 1..k, strictly increasing, each the month's totals and each with a positive payment or balance |
| AmortizationScreen.CombinedEmitsExactly | screens/AmortizationScreen.tsx:170-178 | a month in 1..k is among the combined rows if and only if its total payment or total balance is positive |
| AmortizationScreen.CombinedSpec | screens/AmortizationScreen.tsx:151-178 | at most maxLen rows; months strictly increase within 1..maxLen; each row holds the field sums of its month; a month appears if and only if it is emitted |
| AmortizationScreen.CombineSingle | screens/AmortizationScreen.tsx:140-178 | combining one schedule numbered 1, 2, ... with positive payments returns it unchanged |
| AmortizationScreen.MonthTotalsRemove | screens/AmortizationScreen.tsx:160-168 | a month's totals are the totals without one schedule plus that schedule's contribution |
| AmortizationScreen.MonthTotalsPermutation | screens/AmortizationScreen.tsx:160-168 | a month's totals do not depend on the order of the schedules |
| AmortizationScreen.MaxLenPermutation | screens/AmortizationScreen.tsx:151 | the longest length does not depend on the order of the schedules |
| AmortizationScreen.CombinedPermutation | screens/AmortizationScreen.tsx:140-178 | permuting the loans leaves the combined rows unchanged |
| AmortizationScreen.TotalsForMonth | screens/AmortizationScreen.tsx:155-168 | the inner loop computes exactly the month's totals |
| AmortizationScreen.CombineSchedules | screens/AmortizationScreen.tsx:151-179 | the nested loops compute exactly the combined schedule |
| AmortizationScreen.CombinedSingleLoan | screens/AmortizationScreen.tsx:137-181 | with valid terms and non-negative extras, the combined view of one loan is that loan's own schedule |
| AmortizationScreen.Summarize | screens/AmortizationScreen.tsx:507-522 | the summary counts one month per row; no rows give (0, 0, 0); non-negative payments give a non-negative total cost |
| AmortizationScreen.SummaryAccountsForPrincipal | screens/AmortizationScreen.tsx:291-292 | the summary has at most term*12 months; total cost equals total interest plus the principal repaid; a schedule that ends early has repaid all of `amount - prepayments` |
| AmortizationScreen.SummaryOfPlainLoan | screens/AmortizationScreen.tsx:507-522 | with no extras, the summary of a positive loan shows term*12 months and a cost of the amount plus total interest |
| AmortizationScreen.AmortizationView.constructor | screens/AmortizationScreen.tsx:15-24 | the view's state starts with the loans and scenarios loaded from storage (the loaders at lines 73-95 become parameters) and an empty schedule |
| AmortizationScreen.AmortizationView.ScheduleForLoan | screens/AmortizationScreen.tsx:107-119 | runs the generator with the loan's own extras plus its scenario totals |
| AmortizationScreen.AmortizationView.ScheduleAll | screens/AmortizationScreen.tsx:140-149 | builds one schedule per saved loan, in order |
| AmortizationScreen.AmortizationView.GenerateScheduleForLoan | screens/AmortizationScreen.tsx:105-135 | the shown schedule becomes the loan's schedule and the title its display name; loans and scenarios are unchanged |
| AmortizationScreen.AmortizationView.GenerateCombinedSchedule | screens/AmortizationScreen.tsx:137-190 | with no saved loans nothing changes; otherwise the shown schedule is the combined schedule and the title the combined title |
| PrepaymentHistory.Baseline | screens/PrepaymentHistoryScreen.tsx:36 | the plain schedule has at most term*12 rows, and none for a loan of amount <= 0 |
| PrepaymentHistory.WithScenario | screens/PrepaymentHistoryScreen.tsx:37-43 | the scenario's schedule has at most term*12 rows, and none when its prepayment reaches the amount |
| PrepaymentHistory.ScenarioNeverHurts | screens/PrepaymentHistoryScreen.tsx:36-43 | a scenario with non-negative amounts is no longer and charges no more interest than the plain schedule |
| PrepaymentHistory.CalculateSavings | screens/PrepaymentHistoryScreen.tsx:35-52 | as written: "interest saved" is the interest difference plus the principal difference of the two schedules, "time saved" the row-count difference; a zero scenario saves (0, 0); non-negative amounts give a non-negative time saved |
| PrepaymentHistory.CorrectedSavings | screens/PrepaymentHistoryScreen.tsx:45-51 | "interest saved" is exactly the total interest of the plain schedule minus that of the scenario's schedule; the same time saved; a zero scenario saves (0, 0); non-negative amounts give non-negative savings |
| PrepaymentHistory.InterestSavedCountsPrepayment | screens/PrepaymentHistoryScreen.tsx:45-49 | a prepayment that clears a positive loan makes the reported "interest saved" exceed the interest actually saved by the whole amount |
| PrepaymentHistory.SavingsDifferByPrincipal | screens/PrepaymentHistoryScreen.tsx:45-49 | the reported "interest saved" is the interest difference plus the principal difference of the two schedules |
| PrepaymentHistory.InterestSavedOverstatesByPrepayment | screens/PrepaymentHistoryScreen.tsx:45-49 | for a positive loan and non-negative scenario amounts, the reported "interest saved" exceeds the interest actually saved by exactly min(prepayment, amount) |
| PrepaymentHistory.SortNewestFirst | screens/PrepaymentHistoryScreen.tsx:27 | the array ends up ordered by creation time, newest first, and is a permutation of the original |
| PrepaymentHistory.InsertNewestFirst | screens/PrepaymentHistoryScreen.tsx:27 | one insertion pass extends the ordered prefix by one element and permutes the array |
| PrepaymentHistory.NewestFirstCons | screens/PrepaymentHistoryScreen.tsx:27 | a list is newest first exactly when its head is no older than the rest and the rest is newest first |
| PrepaymentHistory.WithoutKeepsOrder | screens/PrepaymentHistoryScreen.tsx:69 | deleting scenarios from a newest-first list leaves it newest first |
| PrepaymentHistory.PrepaymentHistoryScreen.constructor | screens/PrepaymentHistoryScreen.tsx:13-14 | the screen starts with an empty list for its loan |
| PrepaymentHistory.PrepaymentHistoryScreen.LoadScenarios | screens/PrepaymentHistoryScreen.tsx:21-33 | with nothing stored the list is unchanged; otherwise it holds exactly the stored scenarios of this loan (the same multiset as the filter), newest first |
| PrepaymentHistory.PrepaymentHistoryScreen.DeleteScenario | screens/PrepaymentHistoryScreen.tsx:65-69 | every scenario with the id leaves the stored list (absent counts as empty) and the shown list; the rest keep their order, and the shown list stays newest first |
| DebtIncome.LeadingSpaces | screens/DebtIncomeScreen.tsx:26 | the number of leading whitespace characters |
| DebtIncome.TextEnd | screens/DebtIncomeScreen.tsx:26 | the position after the last non-whitespace character |
| DebtIncome.Trim | screens/DebtIncomeScreen.tsx:26 | `trim()`: the text between the leading and trailing whitespace, starting and ending with a non-space character |
| DebtIncome.TrimBlank | screens/DebtIncomeScreen.tsx:26 | the trimmed name is empty if and only if the name is all whitespace |
| DebtIncome.SumAmounts | screens/DebtIncomeScreen.tsx:46-48 | the debt total: 0 for no debts, non-negative when every amount is |
| DebtIncome.SumAmountsAppend | screens/DebtIncomeScreen.tsx:46-48 | the debt total distributes over concatenation |
| DebtIncome.SumAmountsWithout | screens/DebtIncomeScreen.tsx:42-48 | the total is the total of the kept debts plus that of the removed ones |
| DebtIncome.Qualification | screens/DebtIncomeScreen.tsx:63-68 | Excellent if and only if ratio <= 20; Good if and only if 20 < ratio <= 36; Fair if and only if 36 < ratio <= 43; Poor if and only if ratio > 43 |
| DebtIncome.QualificationMonotone | screens/DebtIncomeScreen.tsx:63-68 | a higher ratio never receives a better band |
| DebtIncome.Ratio | screens/DebtIncomeScreen.tsx:60-61 | the ratio times the income is the debts times 100 |
| DebtIncome.RatioMonotone | screens/DebtIncomeScreen.tsx:60-61 | for a positive income, more debt never lowers the ratio |
| DebtIncome.Evaluate | screens/DebtIncomeScreen.tsx:60-81 | both ratios are debts/income*100; each band is that ratio's qualification; both payments are >= 0 and are the 43% and 36% headroom when positive; for income > 0, recommended <= maximum, and a non-negative new payment never lowers the ratio |
| DebtIncome.PaymentsKeepBands | screens/DebtIncomeScreen.tsx:70-71 | taking the maximum payment keeps the ratio at Fair or better, and the recommended one at Good or better, when the current debts are within those limits |
| DebtIncome.DebtIncomeForm.constructor | screens/DebtIncomeScreen.tsx:17-22 | the form starts empty with no results |
| DebtIncome.DebtIncomeForm.TotalDebts | screens/DebtIncomeScreen.tsx:46-48 | `getTotalDebts`: 0 for no debts, non-negative when every amount is |
| DebtIncome.DebtIncomeForm.AddDebt | screens/DebtIncomeScreen.tsx:25-40 | a debt is added if and only if the name is not blank and the amount text is not empty; a refused add changes nothing; otherwise exactly one debt with the trimmed name is appended, both inputs are cleared, and the total rises by its amount |
| DebtIncome.DebtIncomeForm.RemoveDebt | screens/DebtIncomeScreen.tsx:42-44 | the debts with that id leave, the rest keep their order, and the total drops by their amounts |
| DebtIncome.DebtIncomeForm.Calculate | screens/DebtIncomeScreen.tsx:50-87 | a missing or zero income sets no results; otherwise the results are evaluated from the debt total, the income and the new payment (missing counts as 0); the inputs and debts are unchanged |
| DebtIncome.DebtIncomeForm.ClearForm | screens/DebtIncomeScreen.tsx:89-96 | inputs and debts are emptied, results cleared, the total is 0 |
| Passcode.DropLast | screens/PasscodeScreen.tsx:42 | `slice(0, -1)`: the empty string stays empty; otherwise the string less its last character |
| Passcode.Press | screens/PasscodeScreen.tsx:25-39 | the buffer never exceeds 4; a press on a full buffer is ignored; a press below 3 appends the digit; the fourth digit unlocks if and only if the buffer equals the stored code, and otherwise empties the buffer; unlocking implies a 4-character stored code equal to the buffer |
| Passcode.PressAll | screens/PasscodeScreen.tsx:25-39 | any run of presses keeps the buffer within 4 characters |
| Passcode.NoCodeNeverUnlocks | screens/PasscodeScreen.tsx:12-31 | with no 4-character code loaded (e.g. "" before loading), no sequence of presses unlocks |
| Passcode.FourPressesDecide | screens/PasscodeScreen.tsx:25-39 | four digits on an empty buffer unlock if and only if they spell the stored code, and otherwise leave the buffer empty |
| Passcode.PasscodeScreen.constructor | screens/PasscodeScreen.tsx:11-12 | the buffer and the stored code start empty |
| Passcode.PasscodeScreen.LoadPasscode | screens/PasscodeScreen.tsx:18-23 | only a present, non-empty stored entry replaces the code; the buffer is unchanged |
| Passcode.PasscodeScreen.HandleNumberPress | screens/PasscodeScreen.tsx:25-39 | the new buffer and the unlock signal are exactly `Press` of the old buffer; the buffer stays within 4 |
| Passcode.PasscodeScreen.HandleDelete | screens/PasscodeScreen.tsx:41-43 | the last digit is removed, and an empty buffer stays empty |
| Settings.HasPasscode | screens/SettingsScreen.tsx:25-28 | `!!passcode`: no stored entry means no passcode, and a passcode is a non-empty string |
| Settings.PasscodeKeyUpdates | screens/SettingsScreen.tsx:39-83 | removing the passcode key or clearing the app's keys leaves no passcode; storing a code leaves one if and only if it is not empty |
| Settings.CheckEntries | screens/SettingsScreen.tsx:50-58 | saved if and only if the new entry has length 4 and equals the confirmation; wrong length if and only if either entry's length is not 4; only lengths are checked, not digits |
| Settings.SettingsScreen.constructor | screens/SettingsScreen.tsx:15-28 | dialogs closed, entries empty, and the switch set from the storage |
| Settings.SettingsScreen.CheckPasscodeStatus | screens/SettingsScreen.tsx:25-28 | the switch is on if and only if a non-empty passcode is stored |
| Settings.SettingsScreen.TogglePasscode | screens/SettingsScreen.tsx:39-47 | when enabled, the stored passcode is removed and protection is off; when disabled, only the setup dialog opens and the storage is unchanged; the switch stays consistent with the storage |
| Settings.SettingsScreen.SavePasscode | screens/SettingsScreen.tsx:49-67 | wrong lengths or a mismatch change nothing; on success the entry is stored, protection is on, setup closes with both entries cleared, and the test dialog opens |
| Settings.SettingsScreen.CancelSetup | screens/SettingsScreen.tsx:313-317 | the setup dialog closes and both entries are cleared, nothing else changes |
| Settings.SettingsScreen.ClearAllData | screens/SettingsScreen.tsx:73-107 | exactly the keys savedLoans, passcode, theme, currency and prepaymentScenarios are removed, every other key is kept, and protection is off |
| SavedLoans.SavedLoansScreen.constructor | screens/SavedLoansScreen.tsx:13 | the screen starts with an empty list over the given storage |
| SavedLoans.SavedLoansScreen.LoadLoans | screens/SavedLoansScreen.tsx:20-29 | a stored list is shown; with nothing stored the list is unchanged |
| SavedLoans.SavedLoansScreen.DeleteLoan | screens/SavedLoansScreen.tsx:31-48 | every loan with the id leaves, the others stay in their order, the stored list equals the shown one, and the stored scenarios are untouched |
| Lists.Keep | screens/PrepaymentHistoryScreen.tsx:26 | the filter keeps exactly the elements with the key, and is no longer than its input |
| Lists.Without | screens/SavedLoansScreen.tsx:41 | the filter keeps exactly the elements without the key, and is no longer than its input |
| Lists.KeepAppend | screens/AmortizationScreen.tsx:98 | filtering by key distributes over concatenation, so the kept elements stay in order |
| Lists.WithoutAppend | screens/SavedLoansScreen.tsx:41 | removing by key distributes over concatenation, so the others stay in their original order |
| Lists.WithoutAbsent | screens/SavedLoansScreen.tsx:41 | deleting an id that no element carries leaves the list unchanged |
| Lists.WithoutIdempotent | screens/SavedLoansScreen.tsx:41 | deleting twice equals deleting once |
| Lists.KeepWithoutSplit | screens/DebtIncomeScreen.tsx:43 | the removed and the kept elements together are the whole list (count and multiset) |
| Lists.Join | screens/AmortizationScreen.tsx:130 | `join` of no strings is the empty string |
| Lists.JoinAppend | screens/AmortizationScreen.tsx:130 | joining one more string appends the separator and that string, so `join` lists the strings in order with the separator between neighbours |
| Lists.NatToString | screens/AmortizationScreen.tsx:186-187 | the decimal digits of a count, without leading zeros, whose value is the count |
| LoanTypes.Min | utils.ts:36 | `Math.min`: the smaller of the two |
| LoanTypes.Max | utils.ts:45 | `Math.max`: the larger of the two |

## Left out

- Floating point. Amounts are exact reals, so equalities such as payment = interest +
  principal hold exactly here but not bit for bit in JavaScript. NaN and Infinity are not
  modelled.
- LoanMath.CalculateLoan, LoanMath.Amortization, LoanMath.GenerateAmortization: these
  require rate > 0 and a term of at least one year. At rate 0 the source computes 0/0 (NaN);
  with term 0 the denominator is 0. Terms are whole years.
- `parseFloat`: the parsed values are parameters.
  - DebtIncome.DebtIncomeForm.AddDebt takes the parsed amount (a non-numeric amount text,
    which the source stores as NaN, is not modelled).
  - DebtIncome.DebtIncomeForm.Calculate takes the income and the new payment as options, with
    None for an input that is not a number.
- `Date.now()` ids and `new Date(createdAt)`. Ids are parameters. `createdAt` is an integer
  timestamp, used only as the sort key.
- PrepaymentHistory.SortNewestFirst: the source calls the engine's `Array.prototype.sort`,
  and only its result order is stated. The model uses an insertion sort. The order of
  scenarios with equal timestamps (sort stability) is not stated.
- Storage, I/O and dialogs.
  - AsyncStorage and JSON are fields of the screen classes, or a map from key to string.
  - Awaits are sequential, and races between them are not modelled.
  - Alert confirmations: only the confirmed branch of the delete and clear dialogs is
    modelled, and the error alerts appear as "nothing changes".
  - Share, Linking, BackHandler, `setTimeout` and navigation listeners are not modelled.
- Display formatting (`formatCurrency`, `toFixed`, `padEnd`, the share text), the colours of
  the bands, `renderScenario` and the text-input handlers.
- AmortizationScreen.CombinedTitle: only its shape is stated (the "Combined (" prefix and the
  closing parenthesis), not the full wording.
- The AmortizationScreen's `handleLoanSelection`, its `useEffect` wiring and its loaders of
  loans and scenarios. The `AmortizationView` class starts from already loaded lists.
- `saveScenario` and the scenario form of the prepayment screen are not part of this model.
- Passcode.PasscodeScreen.HandleNumberPress requires a single digit key, which is what the
  keypad buttons send.
- App.tsx, Components.tsx, ThemeContext.tsx and SplashScreen.tsx hold navigation and
  rendering only, and are not part of this model.
- The loop of `generateAmortization` is the method LoanMath.PayDown, and the inner loop of
  `generateCombinedSchedule` is AmortizationScreen.TotalsForMonth. Each is a method of its own
  called from the method that models the enclosing function.

## Findings

| source | as written | input that shows it | evidently intended | confidence | as-written member | corrected member |
|---|---|---|---|---|---|---|
| screens/PrepaymentHistoryScreen.tsx:45-49 | "Interest Saved" is the difference of the two schedules' total payments. The upfront prepayment never appears among the scenario's payments, so the figure also counts the principal the prepayment moved out of the schedule. | A positive loan with a scenario whose prepayment is at least the amount. The scenario's schedule is empty, and the reported saving exceeds the interest saved by the whole loan amount. In general, for non-negative amounts it exceeds it by min(prepayment, amount). | the difference of the total interest of the two schedules | not executed | PrepaymentHistory.InterestSavedOverstatesByPrepayment | PrepaymentHistory.CorrectedSavings |
