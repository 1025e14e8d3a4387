# Condominium expense tracker — verified model of its client-side logic

The application keeps a list of condominium expenses in a hosted `expenses`
table. Its screen fetches every row and computes everything else on the client.

- The header shows four statistic cards: the grand total, the number of records (`expenses.length`), and how many records are paid and how many pending.
- A bar chart and a month-by-month table show the totals of the regular expenses of one year.
- Two sections list the planned items (`is_planned`) and the risk items (`is_risk_item`).
- Three forms create and edit records. They are the main expense modal, the planned form and the risk form.

This project models that logic in Dafny and proves what it promises.

| Dafny module | file | models |
|---|---|---|
| `Lists` | `lists.dfy` | `Array.prototype.filter`: order kept, nothing but the passing elements kept, each as often as it occurs |
| `Records` | `records.dfy` | the row, the coercion `parseFloat(v) \|\| 0`, the `\|\|` fallbacks, the `reduce` sum, and the insert-or-update choice |
| `App` | `app.dfy` | `src/App.jsx`: header statistics, the expense modal's state (`ExpenseEditor`), and the status toggle |
| `PlannedExpenses` | `planned_expenses.dfy` | `src/components/PlannedExpenses.jsx`: the planned list, `dataToSave`, and the form state (`PlannedEditor`) |
| `RiskManagement` | `risk_management.dfy` | `src/components/RiskManagement.jsx`: the risk list, `dataToSave`, and the form state (`RiskEditor`) |
| `MonthlyChart` | `monthly_chart.dfy` | `src/components/MonthlyChart.jsx`: the twelve bars |
| `MonthlySummary` | `monthly_summary.dfy` | `src/components/MonthlySummary.jsx`: the twelve rows and `yearTotal` |

Modelling choices:

- **Money.** A value is an `Amount`: either `Num(cents)` or `NotNum`. `NotNum` stands for an empty, null or non-numeric value. `Coerce(NotNum) = 0`, which is what `parseFloat(v) || 0` gives such a value. Sums are exact integer sums. Floating-point rounding is not modelled.
- **Month and year.** Both are integers, compared with `==` as the source compares them with `===`. A missing month or year is 0. It is falsy, and no month number 1..12 equals it.
- **Text columns.** Each is a `Field`: `Missing` (null or undefined) or `Text(s)`. `x || ''` is `OrEmpty`.
- **Current date.** "Now" (`new Date()`) is a `Today(month, year)` parameter. Its month is 1..12.
- **Remote store.** The store is reduced to three things:
  - the request a save sends: `Write<P> = Insert(payload) | Update(id, payload)`;
  - the store's answer: an `Outcome`, `Ok` or `Err`, passed to the submit handler;
  - the row a write leaves behind: the payload's columns replaced, every other column kept (`WriteExpenseForm`, `WritePlanned`, `WriteRisk`). For an insert, the base row is `NewRow(id)`, whose other columns are empty (`App.NewExpenseIsCounted`).
- **Shared list.** `src/App.jsx` as modelled does not render the chart, the table or the two sections. The lemmas that relate the header's `totalExpenses` to them assume that each of them receives App's fetched list as its `expenses` prop. These lemmas are `App.NewExpenseIsCounted`, `RiskManagement.SavedRowAddsNothing`, `RiskManagement.UpdateDropsOldValue` and `MonthlySummary.YearTotalAtMostTotal`.
- **Component state.** Each form's state (`showModal`/`showForm`, `editingExpense`/`editingItem`, `formData`) is a class. Each handler is a method that reassigns those fields.
- **Grand total.** `totalExpenses` (src/App.jsx:144) sums every record, planned and risk records included. `App.TotalCoversEveryCategory` states what the code does.
- **Records with both flags set.** Each section filters on its own flag. Such a record is listed in both sections, and the model keeps this behaviour.

## Model

| member | source | states |
|---|---|---|
| `Records.Coerce` | src/App.jsx:144 | `parseFloat(v) \|\| 0`: a number adds its own value to a sum, a value that does not parse adds 0 |
| `Records.Sum` | src/App.jsx:144 | the left-to-right `reduce` of coerced values: never negative when no value is, and 0 when no value parses |
| `Records.SumFilterBounds` | src/components/MonthlyChart.jsx:18-21 | when no value is negative, the sum of a filtered list lies between 0 and the sum of the whole list |
| `Records.OrEmpty` | src/App.jsx:109-115 | `f \|\| ''` puts the text in the input when the column holds one, and `''` when it is missing |
| `Records.OrElse` | src/App.jsx:116-117 | `n \|\| fallback` is `n` when it is truthy, else the fallback; it is 0 only when both are |
| `Records.OrBlank` | src/App.jsx:111 | `value \|\| ''` turns a numeric zero into the empty text and keeps every other value; the coerced value is unchanged |
| `Records.SaveRequest` | src/App.jsx:50-63 | a save is an update exactly when a record is under edit, addressed to that record's id; otherwise it is an insert; the payload is sent as given |
| `App.TotalExpenses` | src/App.jsx:144 | `totalExpenses` is at least the regular records' sum when no value is negative, and 0 when no value parses |
| `App.PaidExpenses` | src/App.jsx:145 | the paid count is at most the number of records; it equals that number iff every record has a truthy status, and it is 0 iff none has |
| `App.PendingExpenses` | src/App.jsx:146 | the pending count is at most the number of records; it equals that number iff no record has a truthy status, and it is 0 iff every record has |
| `App.PaidPlusPending` | src/App.jsx:145-146 | paid + pending equals `expenses.length` |
| `App.TotalInsert` | src/App.jsx:144 | a record anywhere in the list adds exactly its coerced value to `totalExpenses`, whatever its category or year |
| `App.UnparsedValueAddsNothing` | src/App.jsx:144 | a record whose value does not parse adds 0 to `totalExpenses` |
| `App.TotalCoversEveryCategory` | src/App.jsx:144 | `totalExpenses` is the regular records' sum plus the planned and risk records' sum: no category is filtered out |
| `App.BlankExpenseForm` | src/App.jsx:123-136 | the reset form has every text empty, no value, status false, and today's month (1..12) and year |
| `App.ExpenseFormOf` | src/App.jsx:108-119 | each of the six texts is copied when present and `''` when missing; a numeric zero value becomes the empty text and any other value is copied; month and year are the record's, or today's when falsy; status is kept |
| `App.EditBlanksZeroValue` | src/App.jsx:111 | opening a record whose value is a numeric zero and saving it unchanged writes an empty value back |
| `App.WriteExpenseForm` | src/App.jsx:51-54 | writing the form replaces item, obs, value, periodicity, maintenance date, description, law, month, year and status with the form's; the id, the category flags and the risk columns are kept |
| `App.NewExpenseIsCounted` | src/App.jsx:57-60 | a record inserted from the modal is regular: it adds its value to `totalExpenses`, and to `yearTotal` of its year when its month is 1..12 |
| `App.EditRoundTrip` | src/App.jsx:106-121 | opening a record with every text present, month and year set and a non-zero value, and saving it unchanged, writes back the same record |
| `App.EditKeepsStatistics` | src/App.jsx:106-121 | opening any record and saving it unchanged leaves `totalExpenses` and `paidExpenses` as they were |
| `App.ToggleStatus` | src/App.jsx:94-97 | the toggle patch is addressed to the record's id and carries the negated status |
| `App.ApplyStatusPatch` | src/App.jsx:96 | the patched record has the patch's status and every other column unchanged |
| `App.ToggleTwice` | src/App.jsx:96 | toggling twice restores the record |
| `App.ToggleMovesOneRecord` | src/App.jsx:92-104 | a toggle moves exactly one record between paid and pending and leaves `totalExpenses` unchanged |
| `App.ExpenseEditor.constructor` | src/App.jsx:9-22 | the initial state: modal hidden, nothing under edit, blank form |
| `App.ExpenseEditor.ResetForm` | src/App.jsx:123-136 | `resetForm` blanks the form and changes nothing else |
| `App.ExpenseEditor.OpenNewModal` | src/App.jsx:138-142 | after `openNewModal`: nothing under edit, a blank form dated today, modal shown |
| `App.ExpenseEditor.OpenEditModal` | src/App.jsx:106-121 | after `openEditModal(e)`: `e` under edit, the form filled from `e`, modal shown |
| `App.ExpenseEditor.CloseModal` | src/App.jsx:271-275 | closing hides the modal and keeps the record under edit and the form |
| `App.ExpenseEditor.HandleSubmit` | src/App.jsx:46-73 | the request is an update of the record under edit, else an insert, of the form as it was; on Ok the modal hides, nothing is under edit and the form is blank; on Err no field changes |
| `PlannedExpenses.PlannedItems` | src/components/PlannedExpenses.jsx:15 | the planned list is an order-preserving sublist of the records; every element is planned, and every planned record is kept as often as it occurs |
| `PlannedExpenses.BlankPlannedForm` | src/components/PlannedExpenses.jsx:82-89 | the reset form has empty texts, no value and status false |
| `PlannedExpenses.PlannedFormOf` | src/components/PlannedExpenses.jsx:71-80 | `item` and `obs` are copied when present and `''` when missing; a numeric zero value becomes the empty text and any other value is copied; status is kept |
| `PlannedExpenses.DataToSave` | src/components/PlannedExpenses.jsx:21-27 | the payload is planned and not a risk item whatever the form holds; it carries the form's item, obs, value and status, and today's month (1..12) and year |
| `PlannedExpenses.WritePlanned` | src/components/PlannedExpenses.jsx:29-42 | the written row takes the payload's item, obs, value, status, flags, month and year; its id, periodicity, maintenance date, description, law, risk type and deadline are kept |
| `PlannedExpenses.SavedRowStaysPlanned` | src/components/PlannedExpenses.jsx:21-27 | a saved row is listed among the planned items, and leaves the chart, the month rows and `yearTotal` of every year unchanged |
| `PlannedExpenses.EditSaveRedates` | src/components/PlannedExpenses.jsx:21-33 | saving an opened item unchanged, when its item and obs are present and its value is not a numeric zero, keeps its texts, value and status, re-dates it to today and forces the flags |
| `PlannedExpenses.EditBlanksZeroValue` | src/components/PlannedExpenses.jsx:74-76 | opening an item whose value is a numeric zero and saving it unchanged writes an empty value back, and a missing obs comes back as `''` |
| `PlannedExpenses.PlannedEditor.constructor` | src/components/PlannedExpenses.jsx:6-13 | the initial state: form hidden, nothing under edit, blank form |
| `PlannedExpenses.PlannedEditor.ResetForm` | src/components/PlannedExpenses.jsx:82-89 | `resetForm` blanks the form and changes nothing else |
| `PlannedExpenses.PlannedEditor.OpenNewForm` | src/components/PlannedExpenses.jsx:91-95 | after `openNewForm`: nothing under edit, blank form, form shown |
| `PlannedExpenses.PlannedEditor.OpenEditForm` | src/components/PlannedExpenses.jsx:71-80 | after `openEditForm(i)`: `i` under edit, the form filled from `i`, form shown |
| `PlannedExpenses.PlannedEditor.CloseForm` | src/components/PlannedExpenses.jsx:152-156 | closing hides the form and keeps the item under edit and the form |
| `PlannedExpenses.PlannedEditor.HandleSubmit` | src/components/PlannedExpenses.jsx:17-52 | the request is an update of the item under edit, else an insert, of `dataToSave`; on Ok the form hides, nothing is under edit and the form is blank; on Err no field changes |
| `RiskManagement.RiskItems` | src/components/RiskManagement.jsx:16 | the risk list is an order-preserving sublist of the records; every element is a risk item, and every risk record is kept as often as it occurs |
| `RiskManagement.BlankRiskForm` | src/components/RiskManagement.jsx:85-93 | the reset form has all five texts empty |
| `RiskManagement.RiskFormOf` | src/components/RiskManagement.jsx:73-83 | each of the five texts is copied when present and `''` when missing |
| `RiskManagement.DataToSave` | src/components/RiskManagement.jsx:22-29 | the payload is a risk item, not planned, with value 0 whatever the form holds; it carries the five texts, and today's month (1..12) and year |
| `RiskManagement.WriteRisk` | src/components/RiskManagement.jsx:31-44 | the written row takes the payload's five texts, flags, zero value, month and year; its id, status, periodicity, maintenance date and law are kept |
| `RiskManagement.SavedRowAddsNothing` | src/components/RiskManagement.jsx:22-29 | a saved row adds exactly 0 to `totalExpenses`, is listed among the risk items and is not planned; the chart and `yearTotal` are unchanged |
| `RiskManagement.UpdateDropsOldValue` | src/components/RiskManagement.jsx:28-35 | saving over an existing record removes that record's value from `totalExpenses` |
| `RiskManagement.RiskEditor.constructor` | src/components/RiskManagement.jsx:6-14 | the initial state: form hidden, nothing under edit, blank form |
| `RiskManagement.RiskEditor.ResetForm` | src/components/RiskManagement.jsx:85-93 | `resetForm` blanks the five texts and changes nothing else |
| `RiskManagement.RiskEditor.OpenNewForm` | src/components/RiskManagement.jsx:95-99 | after `openNewForm`: nothing under edit, blank form, form shown |
| `RiskManagement.RiskEditor.OpenEditForm` | src/components/RiskManagement.jsx:73-83 | after `openEditForm(i)`: `i` under edit, its texts in the form, form shown |
| `RiskManagement.RiskEditor.CloseForm` | src/components/RiskManagement.jsx:156-160 | closing hides the form and keeps the item under edit and the form |
| `RiskManagement.RiskEditor.HandleSubmit` | src/components/RiskManagement.jsx:18-54 | the request is an update of the item under edit, else an insert, of `dataToSave`; on Ok the form hides, nothing is under edit and the five texts are blank; on Err no field changes |
| `MonthlyChart.MonthlyData` | src/components/MonthlyChart.jsx:16-28 | exactly 12 bars; bar `i` is labelled `MONTHS[i]` (JAN..DEZ) and totals month number `i + 1` |
| `MonthlyChart.MonthTotal` | src/components/MonthlyChart.jsx:18-21 | one bar's filter-then-reduce total lies between 0 and the sum of all records when no value is negative |
| `MonthlyChart.InsertRecord` | src/components/MonthlyChart.jsx:18-21 | a record adds its coerced value to bar `i` exactly when its month is `i + 1`, its year is the chart's and it is neither planned nor a risk item |
| `MonthlyChart.AtMostOneBar` | src/components/MonthlyChart.jsx:17-19 | a record changes no bar other than the one of its own month |
| `MonthlyChart.IgnoresPlannedAndRisk` | src/components/MonthlyChart.jsx:19 | adding a planned or risk record leaves every bar unchanged |
| `MonthlyChart.IgnoresOutsideYear` | src/components/MonthlyChart.jsx:17-19 | a record of another year, or with a month outside 1..12, reaches no bar |
| `MonthlyChart.EmptyMonthIsZero` | src/components/MonthlyChart.jsx:21 | a month that no record matches has total 0 |
| `MonthlySummary.MonthlyTotals` | src/components/MonthlySummary.jsx:18-24 | exactly 12 rows, named JANEIRO..DEZEMBRO in order, row `i` totalling month `Months[i].num` |
| `MonthlySummary.RowTotal` | src/components/MonthlySummary.jsx:19-22 | one row's filter-then-reduce total lies between 0 and the sum of all records when no value is negative |
| `MonthlySummary.SumRows` | src/components/MonthlySummary.jsx:27 | the reduce over row totals is never negative when no row total is |
| `MonthlySummary.YearTotal` | src/components/MonthlySummary.jsx:27 | `yearTotal` is never negative when no value is |
| `MonthlySummary.MonthNumbers` | src/components/MonthlySummary.jsx:1-14 | the month list numbers its entries 1..12 in order |
| `MonthlySummary.RowsMatchChart` | src/components/MonthlySummary.jsx:19-22 | for the same records and year, each row total equals the chart's bar total of the same month |
| `MonthlySummary.InsertRecord` | src/components/MonthlySummary.jsx:19-22 | a record adds its coerced value to row `i` exactly when it is a regular record of month `i + 1` and of the table's year |
| `MonthlySummary.SumRowsShift` | src/components/MonthlySummary.jsx:27 | row lists that differ by `d` at one index differ by `d` in their reduced sum |
| `MonthlySummary.YearTotalInsert` | src/components/MonthlySummary.jsx:27 | a record adds its coerced value to `yearTotal` exactly when it is regular, of the year, and has a month 1..12 |
| `MonthlySummary.YearTotalIsYearSum` | src/components/MonthlySummary.jsx:19-27 | `yearTotal`, the sum of the 12 row totals, equals the sum over every regular record of the year with a month 1..12 |
| `MonthlySummary.YearTotalAtMostTotal` | src/components/MonthlySummary.jsx:27 | when no value is negative, `yearTotal` never exceeds `totalExpenses` of the same records |
| `MonthlySummary.IgnoresPlannedRiskAndOtherYears` | src/components/MonthlySummary.jsx:20-27 | adding a planned record, a risk record or a record of another year leaves every row and `yearTotal` unchanged |

## Left out

- Remote store calls are not modelled: `fetchExpenses`, the select ordered by `created_at`, insert, update, delete, and `onRefresh`. The store is reduced to the request sent, an Ok/Err answer, and the row a write leaves behind.
- The `loading` flag and the re-fetch after each successful write are not modelled. They are React effects around remote I/O.
- `handleDelete` in all three components is not modelled. It is a `confirm()` dialog followed by a remote delete, with no client-side logic.
- `confirm`, `alert` and `console.error` are not modelled. They are browser dialogs and logging.
- The error path of `toggleStatus` is not modelled. On failure it only logs, and no component state changes.
- The per-field `onChange` updates are not modelled. Each copies the form and sets one field, with `parseInt` for month and year in the expense modal. Only the handlers that replace the form are modelled.
- The HTML `required` check on `item` is not modelled. It is done by the browser before `handleSubmit` runs.
- JSX markup, CSS, icons, recharts, the `COLORS` palette and the localized `fullMonth` name are not modelled. `toFixed` and `toLocaleString` are not modelled either. All of these are presentation.
- Floating-point arithmetic and `parseFloat` text parsing are not modelled. Money is integer cents. A prefix parse such as `"12abc"` is whatever `Amount` the caller supplies.
- Records.OrBlank: models `value || ''` by treating only a numeric zero as falsy. A text `"0"` is truthy in JavaScript and would be kept. Both give the same coerced value.
- A null year is modelled as year 0. JavaScript's `null === 0` is false, so the model differs from the source only for the year 0 itself.
- The sort engine and the selection set (select all, bulk delete) are not modelled. None of the modelled files contains them.
- Async sequencing and React's hooks and re-rendering are not modelled. Each handler runs to completion as one method call on the component's state.
