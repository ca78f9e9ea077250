# Personal finance ledger — a Dafny model

This project models the logic of the PersonalFinancialManagement iOS app, a Turkish
personal-expense tracker written in Swift. It covers:

- the expense ledger (`ExpenseViewModel`): an ordered list of records that is
  re-saved after every change, with add, delete and load, and the queries that fold
  the list into totals per category, day, week, month and year or sum this week's
  and last week's records;
- the record and its two category tables (`Category`, `ExpenseCategory`);
- the CSV export (`CSVExportManager.generateCSV`);
- the add and edit sheets (form validity, save, update by identifier);
- the main screen's category filter, its swipe-to-delete wiring, logout and the
  exports (`ContentView`);
- the statistics screen's sorted bar series and its week-over-week message;
- the monthly-limit sheet, the login guard and the theme picker;
- the PDF report's texts and line pagination (`PDFReportManager.createPDF`).

Amounts are integers (minor units) and dates are integers. The calendar and the
formatters are values of the datatypes `Platform.Calendar` and
`Platform.Formatters`, whose fields are functions passed in by the caller:
week, month and year components, "same week", one week earlier, number parsing and
number and date texts. Nothing is assumed about them beyond their types, except
where a lemma states a condition in its `requires`. The key-value store's
"expenses" entry is the field `persisted` of the view model.

Shared definitions:

- `Aggregation` holds the left folds that specify the loops and `filter`/`reduce`
  chains: `Total`, `Where`, `RemoveAt` and `GroupTotals`.
- `Text` holds whitespace trimming (Swift's `.whitespaces` set: tab and the Unicode
  space separators), decimal rendering of naturals and code-point string order.

Modules and files:

| Module | File | Swift source |
|---|---|---|
| `Ledger` | ledger.dfy | `ExpenseViewModel` |
| `ExpenseModel` | expense.dfy | Expense.swift |
| `ExpenseCategories` | expense_category.dfy | ExpenseCategory.swift |
| `CsvExport` | csv_export.dfy | CSVExportManager.swift |
| `ExpenseForm` | expense_form.dfy | shared validity rule of the two sheets |
| `AddExpense` | add_expense.dfy | AddExpenseView.swift |
| `EditExpense` | edit_expense.dfy | EditExpenseView.swift |
| `ContentView` | content_view.dfy | ContentView.swift |
| `Statistics` | statistics.dfy | StatisticsView.swift |
| `LimitSetting` | limit_setting.dfy | LimitSettingView.swift |
| `Login` | login.dfy | LoginView.swift |
| `Theme` | theme.dfy | ThemeSettingView.swift |
| `PdfReport` | pdf_report.dfy | PDFReportManager.swift |

## Model

| member | source | states |
|---|---|---|
| Ledger.ExpenseViewModel.ReloadRecoversLedger | PersonalFinancialManagement/PersonalFinancialManagement/ExpenseViewModel.swift:6-8 | whatever changes the ledger went through, loading the stored entry gives the ledger back (an empty ledger that was never saved loads as empty): the save on every assignment and the load at 40-45 are inverse |
| Ledger.ExpenseViewModel.constructor | PersonalFinancialManagement/PersonalFinancialManagement/ExpenseViewModel.swift:12-14 | the ledger starts as the decoded stored list, or empty when nothing decodable is stored; the store/list invariant holds |
| Ledger.ExpenseViewModel.SetExpenses | PersonalFinancialManagement/PersonalFinancialManagement/ExpenseViewModel.swift:6-8 | every assignment to the list re-saves it: afterwards the stored entry is exactly the new list |
| Ledger.ExpenseViewModel.SaveExpenses | PersonalFinancialManagement/PersonalFinancialManagement/ExpenseViewModel.swift:34-38 | the stored entry becomes the current list and the list is unchanged |
| Ledger.ExpenseViewModel.LoadExpenses | PersonalFinancialManagement/PersonalFinancialManagement/ExpenseViewModel.swift:40-45 | a decodable stored list replaces the ledger; otherwise the ledger is untouched; the store keeps its content |
| Ledger.ExpenseViewModel.AddExpense | PersonalFinancialManagement/PersonalFinancialManagement/ExpenseViewModel.swift:18-26 | appends exactly one record with the given fields, dated now; the list grows by one; identifiers stay unique when the new one is fresh |
| Ledger.ExpenseViewModel.DeleteExpense | PersonalFinancialManagement/PersonalFinancialManagement/ExpenseViewModel.swift:28-30 | the ledger becomes the records at positions not in the offsets, in order; it shrinks by the number of offsets; identifiers stay unique |
| Ledger.SumBy | PersonalFinancialManagement/PersonalFinancialManagement/ExpenseViewModel.swift:49-55 | the dictionary loop: its keys are exactly the keys that occur, each value is the total of the records with that key, and the values add up to the grand total |
| Ledger.ExpenseViewModel.TotalPerCategory | PersonalFinancialManagement/PersonalFinancialManagement/ExpenseViewModel.swift:49-55 | keys are exactly the categories that occur; each value is that category's total; the values sum to the grand total |
| Ledger.ExpenseViewModel.TotalPerDay | PersonalFinancialManagement/PersonalFinancialManagement/ExpenseViewModel.swift:63-70 | the same three properties keyed by the short date text |
| Ledger.ExpenseViewModel.TotalPerWeek | PersonalFinancialManagement/PersonalFinancialManagement/ExpenseViewModel.swift:73-84 | the same three properties keyed by "Hafta w, y" |
| Ledger.ExpenseViewModel.TotalPerMonth | PersonalFinancialManagement/PersonalFinancialManagement/ExpenseViewModel.swift:87-98 | the same three properties keyed by "year-month" |
| Ledger.ExpenseViewModel.TotalPerYear | PersonalFinancialManagement/PersonalFinancialManagement/ExpenseViewModel.swift:101-110 | the same three properties keyed by the year |
| Ledger.ExpenseViewModel.TotalThisWeek | PersonalFinancialManagement/PersonalFinancialManagement/ExpenseViewModel.swift:113-119 | the sum is 0 when no record falls in the week of now |
| Ledger.ExpenseViewModel.TotalPreviousWeek | PersonalFinancialManagement/PersonalFinancialManagement/ExpenseViewModel.swift:122-130 | the sum is 0 when the calendar cannot step back a week, or when no record falls in that week |
| Ledger.ThisWeekIsWeeklyEntry | PersonalFinancialManagement/PersonalFinancialManagement/ExpenseViewModel.swift:73-84 | for a calendar whose "same week" means equal week and week-year, this week's total is the weekly dictionary's entry for the current week's key, or 0 when there is none |
| Ledger.AppendFreshKeepsUniqueIds | PersonalFinancialManagement/PersonalFinancialManagement/Expense.swift:52-58 | a record with a fresh identifier keeps identifiers unique when appended |
| Ledger.RemoveAtKeepsUniqueIds | PersonalFinancialManagement/PersonalFinancialManagement/ExpenseViewModel.swift:28-30 | deleting records keeps identifiers unique |
| Aggregation.TotalAppend | PersonalFinancialManagement/PersonalFinancialManagement/ExpenseViewModel.swift:116-118 | the sum of a concatenation is the sum of the parts' sums |
| Aggregation.TotalNonNegative | PersonalFinancialManagement/PersonalFinancialManagement/ExpenseViewModel.swift:116-118 | the sum of amounts that are not negative is not negative |
| Aggregation.Where | PersonalFinancialManagement/PersonalFinancialManagement/ExpenseViewModel.swift:116-117 | a filter never lengthens the list; it keeps everything when all records pass and nothing when none does |
| Aggregation.WhereSelects | PersonalFinancialManagement/PersonalFinancialManagement/ExpenseViewModel.swift:116-117 | the filter keeps exactly the records that pass, each once, in their original order |
| Aggregation.WhereAppend | PersonalFinancialManagement/PersonalFinancialManagement/ExpenseViewModel.swift:116-117 | filtering distributes over concatenation |
| Aggregation.RemoveAtSelects | PersonalFinancialManagement/PersonalFinancialManagement/ExpenseViewModel.swift:28-30 | removal keeps exactly the records at positions not in the offsets, in order, and shrinks the list by the number of offsets inside it |
| Aggregation.RemoveNothing | PersonalFinancialManagement/PersonalFinancialManagement/ExpenseViewModel.swift:28-30 | removal at no position inside the list changes nothing |
| Aggregation.GroupKeys | PersonalFinancialManagement/PersonalFinancialManagement/ExpenseViewModel.swift:49-55 | the grouped dictionary's keys are exactly the keys of the records |
| Aggregation.GroupValue | PersonalFinancialManagement/PersonalFinancialManagement/ExpenseViewModel.swift:49-55 | each grouped value is the total of the records with that key |
| Aggregation.GroupSum | PersonalFinancialManagement/PersonalFinancialManagement/ExpenseViewModel.swift:49-55 | the grouped values add up to the grand total |
| Aggregation.MapSumAccumulate | PersonalFinancialManagement/PersonalFinancialManagement/ExpenseViewModel.swift:52 | adding an amount to a key's entry raises the dictionary's sum by that amount |
| Aggregation.WeekKeySeparates | PersonalFinancialManagement/PersonalFinancialManagement/ExpenseViewModel.swift:78-80 | two dates share a week key exactly when they share week number and week-year |
| Aggregation.MonthKeySeparates | PersonalFinancialManagement/PersonalFinancialManagement/ExpenseViewModel.swift:92-94 | two dates share a month key exactly when they share year and month |
| Aggregation.YearKeySeparates | PersonalFinancialManagement/PersonalFinancialManagement/ExpenseViewModel.swift:106-107 | two dates share a year key exactly when they share the year |
| Text.Trim | PersonalFinancialManagement/PersonalFinancialManagement/LoginView.swift:54 | the result has no whitespace at either end, and is empty exactly when the input is all whitespace |
| Text.TrimIsSlice | PersonalFinancialManagement/PersonalFinancialManagement/LoginView.swift:54 | trimming removes only whitespace at the two ends and keeps one contiguous piece of the input |
| Text.TrimIdempotent | PersonalFinancialManagement/PersonalFinancialManagement/AddExpenseView.swift:67 | trimming a trimmed title changes nothing |
| Text.NatToString | PersonalFinancialManagement/PersonalFinancialManagement/ExpenseViewModel.swift:80 | the decimal text of a number is a non-empty run of digits |
| Text.ParseNatToString | PersonalFinancialManagement/PersonalFinancialManagement/ExpenseViewModel.swift:80 | the decimal text reads back as the number |
| Text.NatToStringInjective | PersonalFinancialManagement/PersonalFinancialManagement/ExpenseViewModel.swift:94 | two numbers have the same decimal text exactly when they are equal |
| Text.SplitAtSeparator | PersonalFinancialManagement/PersonalFinancialManagement/ExpenseViewModel.swift:94 | joining digit runs with a separator that starts with a non-digit loses nothing: equal joins mean equal parts |
| Text.StringLessTotal | PersonalFinancialManagement/PersonalFinancialManagement/StatisticsView.swift:41 | any two key strings are equal or ordered one way or the other |
| Text.StringLessTransitive | PersonalFinancialManagement/PersonalFinancialManagement/StatisticsView.swift:41 | key order is transitive |
| Text.StringLessAsymmetric | PersonalFinancialManagement/PersonalFinancialManagement/StatisticsView.swift:41 | key order is asymmetric |
| Text.StringLessIrreflexive | PersonalFinancialManagement/PersonalFinancialManagement/StatisticsView.swift:41 | no key sorts before itself |
| ExpenseModel.FromRawValue | PersonalFinancialManagement/PersonalFinancialManagement/Expense.swift:12-19 | decoding a string gives the case with that raw value, and fails only when no case has it |
| ExpenseModel.Id | PersonalFinancialManagement/PersonalFinancialManagement/Expense.swift:21 | the identifier reads back as its case, and no other case has this identifier |
| ExpenseModel.AllCategoriesComplete | PersonalFinancialManagement/PersonalFinancialManagement/Expense.swift:12-20 | allCases lists the seven cases, each once |
| ExpenseModel.RawValueRoundTrip | PersonalFinancialManagement/PersonalFinancialManagement/Expense.swift:12-19 | raw values are pairwise distinct and decode back to their case |
| ExpenseModel.IconInjective | PersonalFinancialManagement/PersonalFinancialManagement/Expense.swift:37-47 | every case has an icon and no two cases share one |
| ExpenseCategories.FromRawValue | PersonalFinancialManagement/PersonalFinancialManagement/ExpenseCategory.swift:9-16 | decoding a string gives the case with that raw value, and fails only when no case has it |
| ExpenseCategories.Id | PersonalFinancialManagement/PersonalFinancialManagement/ExpenseCategory.swift:18 | the identifier reads back as its case, and no other case has this identifier |
| ExpenseCategories.SameTableAsCategory | PersonalFinancialManagement/PersonalFinancialManagement/ExpenseCategory.swift:32-42 | each case has the raw value and icon of the same-named Category case, and allCases lists them in the same order |
| ExpenseCategories.AsCategoryBijective | PersonalFinancialManagement/PersonalFinancialManagement/ExpenseCategory.swift:9-17 | the two enums correspond one to one |
| ExpenseCategories.RawValueRoundTrip | PersonalFinancialManagement/PersonalFinancialManagement/ExpenseCategory.swift:9-17 | raw values are pairwise distinct and decode back to their case |
| CsvExport.GenerateCsv | PersonalFinancialManagement/PersonalFinancialManagement/CSVExportManager.swift:11-23 | the text is the header line followed by one line per record, in order, each ending in a newline; an empty list gives exactly the header |
| CsvExport.CsvLineLayout | PersonalFinancialManagement/PersonalFinancialManagement/CSVExportManager.swift:18 | a record line is the title, the amount, the category's raw value and the yyyy-MM-dd date, each in double quotes, joined by commas |
| CsvExport.CsvLinesAppend | PersonalFinancialManagement/PersonalFinancialManagement/CSVExportManager.swift:17-21 | exporting a + b gives the lines of a followed by the lines of b |
| CsvExport.CsvSplitsIntoLines | PersonalFinancialManagement/PersonalFinancialManagement/CSVExportManager.swift:17-20 | when no field holds a newline, splitting at newlines gives the header, the record lines in order, and a final empty piece |
| CsvExport.CsvLineCount | PersonalFinancialManagement/PersonalFinancialManagement/CSVExportManager.swift:17-20 | when no field holds a newline, the text has count + 1 newlines |
| CsvExport.CsvLineRoundTrip | PersonalFinancialManagement/PersonalFinancialManagement/CSVExportManager.swift:18 | when no field holds a double quote, reading a record line back gives its four fields |
| CsvExport.QuoteInTitleSplitsField | PersonalFinancialManagement/PersonalFinancialManagement/CSVExportManager.swift:18 | the title is inserted without escaping: a title holding a quote-comma-quote reads back as five fields instead of four |
| ExpenseForm.FormValidIff | PersonalFinancialManagement/PersonalFinancialManagement/AddExpenseView.swift:59-62 | the form is valid exactly when the title has a non-whitespace character and the amount parses; the title then stored is non-empty and unpadded |
| AddExpense.InitialForm | PersonalFinancialManagement/PersonalFinancialManagement/AddExpenseView.swift:14-17 | the sheet opens with category Diğer and today's date, and is invalid whatever the number parser |
| AddExpense.SaveExpense | PersonalFinancialManagement/PersonalFinancialManagement/AddExpenseView.swift:64-73 | an unparseable amount changes nothing; otherwise one record with the trimmed title, the parsed amount, the chosen category and the date now is appended; a valid form appends a record with a non-blank title |
| EditExpense.InitialForm | PersonalFinancialManagement/PersonalFinancialManagement/EditExpenseView.swift:19-26 | the form copies the record's title, category and date, and its amount text reads back as the amount whenever the two-decimal text does |
| EditExpense.FirstIndexOf | PersonalFinancialManagement/PersonalFinancialManagement/EditExpenseView.swift:74 | the result is the first position holding the identifier, or none when no record holds it |
| EditExpense.UpdateByIdChangesOnlyFirstMatch | PersonalFinancialManagement/PersonalFinancialManagement/EditExpenseView.swift:74-79 | a missing identifier changes nothing; otherwise only the first matching record changes, taking the new fields and keeping its identifier; length and all other records are unchanged |
| EditExpense.UpdateByIdKeepsIds | PersonalFinancialManagement/PersonalFinancialManagement/EditExpenseView.swift:74-79 | identifiers are unchanged at every position, so they stay unique |
| EditExpense.UpdateByIdIdempotent | PersonalFinancialManagement/PersonalFinancialManagement/EditExpenseView.swift:74-79 | applying the same edit twice is applying it once |
| EditExpense.UpdateExpense | PersonalFinancialManagement/PersonalFinancialManagement/EditExpenseView.swift:72-81 | an unparseable amount or an identifier missing from the ledger changes neither the ledger nor the store; otherwise the ledger becomes the update-by-identifier with the trimmed title, parsed amount, category and date, and the store holds it after the four saves |
| EditExpense.UnchangedFormIsNoOp | PersonalFinancialManagement/PersonalFinancialManagement/EditExpenseView.swift:19-26 | confirming an untouched form leaves the ledger as it was, when the title is already trimmed and the amount text reads back |
| ContentView.FilteredExpenses | PersonalFinancialManagement/PersonalFinancialManagement/ContentView.swift:24-30 | with no category selected the rows are the whole ledger; filtering never lengthens it |
| ContentView.FilteredIsCategorySubsequence | PersonalFinancialManagement/PersonalFinancialManagement/ContentView.swift:25-26 | with a category selected the rows are exactly that category's records, each once, in ledger order |
| ContentView.OnDeleteAsWritten | PersonalFinancialManagement/PersonalFinancialManagement/ContentView.swift:84-86 | the offsets of the rows on screen are removed from the full ledger unchanged, and the store then holds the new ledger |
| ContentView.OnDeleteAsWrittenRemovesWrongRecord | PersonalFinancialManagement/PersonalFinancialManagement/ContentView.swift:84-86 | with a filter on, deleting the first row on screen removes a different record and keeps the one shown |
| ContentView.DeleteDisplayedRemovesDisplayedRows | PersonalFinancialManagement/PersonalFinancialManagement/ContentView.swift:52 | the corrected delete removes exactly the chosen rows of the list on screen and keeps every record the filter hides |
| ContentView.DeleteDisplayedUnfiltered | PersonalFinancialManagement/PersonalFinancialManagement/ContentView.swift:84-86 | with no filter the corrected delete is the delete the code performs |
| ContentView.OnDelete | PersonalFinancialManagement/PersonalFinancialManagement/ContentView.swift:84-86 | the corrected handler leaves the ledger as the corrected delete gives it, and the store then holds the new ledger |
| ContentView.Logout | PersonalFinancialManagement/PersonalFinancialManagement/ContentView.swift:135-137 | logout clears the stored name |
| ContentView.ExportCsv | PersonalFinancialManagement/PersonalFinancialManagement/ContentView.swift:184-189 | the CSV text is built from the whole ledger and starts with the header |
| ContentView.ExportPdf | PersonalFinancialManagement/PersonalFinancialManagement/ContentView.swift:191-195 | the PDF report is built from the whole ledger and the stored monthly limit |
| Statistics.Series | PersonalFinancialManagement/PersonalFinancialManagement/StatisticsView.swift:41-51 | a bar series has one bar per dictionary key, with strictly ascending keys, each bar's value being the dictionary's value for its key |
| Statistics.SeriesUnique | PersonalFinancialManagement/PersonalFinancialManagement/StatisticsView.swift:41 | any listing of the entries with ascending keys is the series: the chart does not depend on the dictionary's own order |
| Statistics.SeriesBars | PersonalFinancialManagement/PersonalFinancialManagement/StatisticsView.swift:62-72 | each bar shows the total of the records with its key, and there is a bar for exactly the keys that occur |
| Statistics.CategorySectorsAreSpentCategories | PersonalFinancialManagement/PersonalFinancialManagement/StatisticsView.swift:18 | the category chart has a sector for exactly the categories that have a record |
| Statistics.OctoberBeforeSeptember | PersonalFinancialManagement/PersonalFinancialManagement/StatisticsView.swift:62 | unpadded month keys put October's key, and its bar, before September's of the same year |
| Statistics.WeekNumberBeforeYear | PersonalFinancialManagement/PersonalFinancialManagement/StatisticsView.swift:84 | week keys sort by week number before year: week 1 of any year before week 2 of any year |
| Statistics.QuietWeekShowsNoWarning | PersonalFinancialManagement/PersonalFinancialManagement/StatisticsView.swift:99-110 | with no negative amount and no record this week, the overspending warning is not shown |
| Statistics.AppendedRecordTotal | PersonalFinancialManagement/PersonalFinancialManagement/ExpenseViewModel.swift:113-119 | an appended record adds its amount to a filtered total exactly when it passes the filter |
| LimitSetting.LimitSettingView.SaveLimit | PersonalFinancialManagement/PersonalFinancialManagement/LimitSettingView.swift:23-28 | an input accepted by the guard `AcceptedLimit` (it parses to a number that is not negative, zero included) is stored and the confirmation raised; an input that does not parse or parses negative changes neither; the stored limit stays non-negative |
| LimitSetting.LimitSettingView.OnAppear | PersonalFinancialManagement/PersonalFinancialManagement/LimitSettingView.swift:50-52 | the field shows the two-decimal limit when the limit is positive, and is empty otherwise |
| LimitSetting.PrefillThenSave | PersonalFinancialManagement/PersonalFinancialManagement/LimitSettingView.swift:51 | saving the prefilled field keeps a positive limit, and saves nothing for a zero limit |
| Login.LoginView.HandleLogin | PersonalFinancialManagement/PersonalFinancialManagement/LoginView.swift:53-60 | a name that trims to nothing raises the alert and stores nothing; any other name is stored trimmed, non-empty and unpadded, with no alert |
| Login.StoredNameIsTrimmed | PersonalFinancialManagement/PersonalFinancialManagement/LoginView.swift:53-60 | a stored name is already trimmed and comes from an input with a non-whitespace character |
| Theme.FromRawValue | PersonalFinancialManagement/PersonalFinancialManagement/ThemeSettingView.swift:3-4 | decoding a string gives the theme with that raw value, and fails only when no theme has it |
| Theme.Id | PersonalFinancialManagement/PersonalFinancialManagement/ThemeSettingView.swift:6 | the identifier reads back as its theme, and no other theme has this identifier |
| Theme.ThemeTables | PersonalFinancialManagement/PersonalFinancialManagement/ThemeSettingView.swift:3-13 | three cases, each listed once, with distinct raw values that round-trip and distinct display names |
| Theme.ThemeSettingView.constructor | PersonalFinancialManagement/PersonalFinancialManagement/ThemeSettingView.swift:17 | opening the view reads the stored "selectedTheme" entry: a stored theme's raw value reads back as that theme, and "system" (the system theme) is used only when nothing is stored |
| Theme.ThemeSettingView.Selected | PersonalFinancialManagement/PersonalFinancialManagement/ThemeSettingView.swift:22 | the getter returns the theme named by the stored string, or the system theme when the string names none |
| Theme.ThemeSettingView.Select | PersonalFinancialManagement/PersonalFinancialManagement/ThemeSettingView.swift:23 | the setter stores the raw value, and the getter then returns the theme just set |
| PdfReport.LimitTextShowsAmountIffPositive | PersonalFinancialManagement/PersonalFinancialManagement/PDFReportManager.swift:40 | the limit line shows an amount exactly when the limit is positive, and reads "Aylık Limit: Yok" otherwise |
| PdfReport.TotalTextOfAppend | PersonalFinancialManagement/PersonalFinancialManagement/PDFReportManager.swift:39-41 | the reported total is the sum of all amounts, so it adds up over parts of the list |
| PdfReport.AtLineClosedForm | PersonalFinancialManagement/PersonalFinancialManagement/PDFReportManager.swift:54-68 | line i is drawn on page 0 at 180 + 20i for i < 31, and otherwise on page 1 + (i - 31) / 39 at 20 + 20 ((i - 31) mod 39) |
| PdfReport.LinesStayOnPage | PersonalFinancialManagement/PersonalFinancialManagement/PDFReportManager.swift:59-68 | every line is drawn between y = 20 and y = 780, never past 791; consecutive lines on a page are 20 apart, and a new page starts at 20 |
| PdfReport.PageCapacity | PersonalFinancialManagement/PersonalFinancialManagement/PDFReportManager.swift:54-68 | the first page holds lines 0 to 30 and each later page the next 39 |
| PdfReport.CreatePdf | PersonalFinancialManagement/PersonalFinancialManagement/PDFReportManager.swift:12-69 | one line per expense, in list order, with its date, title, category and amount, at the page and y the cursor gives; the total and limit texts; the page count |

## Left out

- Floating point: amounts are integers, so `Double` rounding and `String(format: "%.2f")` output are not modelled. Number parsing (`Double(_:)`) and number and date texts are functions passed in by the caller.
- Calendar semantics: week numbers, week-years, months, years, "same week" and "one week earlier" are caller-supplied functions, so locale-dependent rules are not modelled.
- Persistence: `UserDefaults` and JSON coding are reduced to a three-state snapshot. Encoding cannot fail for integer amounts; in Swift it fails only for non-finite `Double` values, which then go unsaved.
- Identifiers and clocks: `UUID()` and `Date()` are parameters of the operations that use them.
- Ledger.ExpenseViewModel.AddExpense: `AddExpenseView.saveExpense` passes a `date:` argument that `addExpense` does not declare. The model follows `addExpense`, so the record is dated now and the sheet's chosen date is dropped.
- Text.StringLess: compares Unicode code points one by one. Swift's `String <` compares extended grapheme clusters after canonical equivalence; the two agree on the ASCII keys the charts use.
- ExpenseModel.FromRawValue, ExpenseCategories.FromRawValue, Theme.FromRawValue: string equality is code-point equality, whereas Swift's `String ==` also equates canonically equivalent spellings (a decomposed "Ulaşım" matches `.ulasim` in Swift but not in the model); the decoders only ever read the app's own precomposed raw values.
- Category colours (`color`), icons' rendering, all SwiftUI layout, navigation, alerts' dismissal and `dismiss()` calls.
- File writes: `exportCSVFile` and the `data.write` in `createPDF`, with their failure paths, and the share sheet's URL.
- PDF drawing: the renderer, fonts, title centring and metadata. The model keeps what is drawn where.
- Members that are used but not defined in the app's code are left out because their meaning is unknown: `isLimitExceeded`, `totalThisMonth`, `topCategory`, `topDay`, `totalSpending`, `scheduleReminderNotification` and `photoData`. The view model's `monthlyLimit` is modelled only as the field the limit sheet writes and the PDF export reads (`LimitSetting.LimitStore`). Since its declaration and initial value are not in the app's code, the model gives it a starting value that is not negative (the constructor of `LimitSetting.LimitStore` requires one), which `LimitSetting.LimitSettingView.SaveLimit` relies on through `requires store.Valid()`.
- `NotificationManager`, `ImagePicker`, `FullScreenPhotoViewController`, `AppLanguageManager`, `SettingsView`, `SpendingHabitsView` and the app entry point's `username.isEmpty` gate: these are platform services or display code.
- Concurrency and SwiftUI's `@Published` change notifications.

## Findings

| source | as written | input that shows it | evidently intended | confidence | as-written member | corrected member |
|---|---|---|---|---|---|---|
| PersonalFinancialManagement/PersonalFinancialManagement/ContentView.swift:84-86 | `onDelete` passes the offsets of the filtered rows on screen to `deleteExpense`, which removes those positions from the full ledger | ledger [a (Market), b (Yemek)], filter Yemek, delete row 0: the screen shows b at row 0, but a is removed and b stays | translate each row offset to the ledger position of that row before deleting, so the row swiped away is the record removed | high; not executed | ContentView.OnDeleteAsWrittenRemovesWrongRecord | ContentView.DeleteDisplayedRemovesDisplayedRows |
