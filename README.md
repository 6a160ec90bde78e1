# tk-expense-tracker, modelled in Dafny

The tracker is a personal finance book kept in SQLite and shown through
two tkinter front-ends. `app.py` adds, edits, deletes and lists
transactions. `app1.py` is a second variant that adds, saves over the
selected row and lists. This project models what both front-ends do to
the database and what they show from it:

- **Wrappers** (`wrappers.dfy`): `Option`, `Result` and `Outcome`.
- **Text** (`text.dfy`): Python's `str.strip()` as CPython scans it, and
  SQLite's BINARY order on TEXT, which is the order the `t.date >= ?`
  comparisons use.
- **Dates** (`dates.dfy`): the Gregorian calendar of `datetime`. It covers
  `date + timedelta(days=n)`, `strftime('%Y-%m-%d')`, and
  `strptime(s, '%Y-%m-%d')` as CPython's regular expression reads it.
  It also has the month and year windows of the period filter.
- **Database** (`database.dfy`): the `categories` and `transactions`
  tables with their AUTOINCREMENT counters in a `Store` class. Every SQL
  statement the front-ends issue is a method, or a function over the
  tables. The schema's `CHECK(type IN ('expense', 'income'))` is a
  storage error.
- **Query** (`query.dfy`): `load_transactions`, in three parts:
  - the joined SELECT;
  - the method that appends the WHERE text and the parameters step by
    step;
  - the meaning of the resulting statement, which is the joined rows that
    pass the type filter and the period filter.
- **FinanceApp** (`finance_app.dfy`) and **FinanceApp1**
  (`finance_app1.dfy`): the handlers of each front-end, as methods on a
  `Store`.

What the user typed, the answers to the dialogs and today's date are
parameters. `float()` is an abstract partial function
`parseFloat: string -> Option<real>`. A message box is a method's
result.

Every handler keeps `Database.Consistent`. It holds when:

- ids are positive, unique and increasing;
- both tables hold only the two types;
- no `(name, type)` pair is stored twice;
- every transaction's `category_id` names a category of the
  transaction's own type.

Where the program's own wording and its code differ, the model follows
the code:

- **Dates.** The date fields are labelled `Date (YYYY-MM-DD):`
  (app.py:43, app.py:216), and a refused date is answered with "Please
  enter date in YYYY-MM-DD format." (app.py:107). The check itself calls
  `strptime`, which also accepts `2024-1-5` and `2024-01- 5`.
  `Dates.ParseYmd` accepts what `strptime` accepts.
  `Query.UnpaddedDateMissesMonthFilter` proves that `2024-1-5`, with its
  month unpadded, is missed by the January 2024 month filter up to the
  27th, as TEXT sorting after `2024-02-01`. An unpadded day alone does
  not do this: `Query.UnpaddedDayIsShown` proves that `2024-01-5` is
  shown by the same filters.
- **The month filter.** Its end is the first day of the month holding
  today plus 32 days. From the 28th onwards this can skip a month:
  - `Dates.MonthWindowEnd` proves this in general;
  - `Query.MonthFilterOnJanuary31ShowsFebruary` proves it for 31 January.

## Model

| member | source | states |
|---|---|---|
| Text.StripIsTrimmedSlice | app.py:93-95 | `strip()` returns a contiguous slice of its argument with only whitespace cut off on either side, and the slice does not begin or end in whitespace |
| Text.StripEmptyIffBlank | app.py:93-101 | a stripped field is empty exactly when the field held only whitespace, so a field of spaces counts as missing |
| Text.StripIdempotent | app.py:93-95 | `strip()` is idempotent: stripping a stripped text changes nothing |
| Text.LexTransitive | app.py:311-313 | SQLite's TEXT order is transitive |
| Text.LexConcat | app.py:311-313 | two texts whose prefixes have the same length compare by their prefixes first, then by their rests |
| Dates.NextDay | app.py:309 | the next day is a calendar day after the argument, and no calendar day lies strictly between the two |
| Dates.AddDays | app.py:309 | `today + timedelta(days=n)` is a calendar day, later than today when n > 0 |
| Dates.AddDaysSplit | app.py:309 | adding a + b days is adding a days then b days |
| Dates.AddDays32 | app.py:309 | today + 32 days lands in next month when day + 32 fits in this month and the next, and in the month after that otherwise, with its day computed |
| Dates.MonthWindow | app.py:306-309 | the month window starts on the 1st of today's month and ends on a 1st after today; both ends are real dates; there is no window exactly when today + 32 days is past year 9999 |
| Dates.MonthWindowEnd | app.py:309 | the window ends on the 1st of next month exactly when day + 32 ≤ DaysInMonth(m) + DaysInMonth(m+1); otherwise it ends a month later |
| Dates.MonthWindowIsCalendarMonthEarly | app.py:306-309 | up to the 27th the month window is exactly [1st of this month, 1st of next month) |
| Dates.MonthWindowOnJanuary31 | app.py:309 | on 2023-01-31 the month window is [2023-01-01, 2023-03-01) |
| Dates.YearWindow | app.py:316-319 | the year window is [Y-01-01, (Y+1)-01-01): a calendar day lies in it exactly when its year is today's year; only in year 9999 is there no window (`replace` raises) |
| Dates.DigitsOrder | app.py:308-309 | zero-padded numbers of one width compare as text exactly as they compare as numbers |
| Dates.DigitsValue | app.py:308 | reading back zero-padded digits gives the number |
| Dates.Format | app.py:308-309 | `strftime('%Y-%m-%d')` of a date is ten characters, four digits, a dash, two digits, a dash, two digits |
| Dates.FormatOrder | app.py:311-313 | on formatted dates, TEXT order is calendar order and equal text is the same date |
| Dates.ParseYmd | app.py:104-108 | a string `strptime` accepts denotes a real calendar date of years 1 to 9999 |
| Dates.ParseFormat | app.py:104-108 | `strptime` accepts every formatted date and gives back that date |
| Dates.ParseCanonical | app.py:104-108 | on `DDDD-DD-DD` text, `strptime` succeeds exactly when the digits name a real calendar date, and then formatting that date gives the text back |
| Dates.ParseAcceptsUnpadded | app.py:104-108 | `strptime` also accepts `2024-1-5`, which is not ten characters |
| Database.FindCategory | app.py:373-374 | the lookup gives the id of the first row with that name and type, and nothing exactly when no row has both |
| Database.FindCategoryAppend | app.py:376-382 | a row appended after the table changes the lookup only when nothing matched before and the new row matches |
| Database.DeduplicatedAppend | app.py:372-384 | inserting a pair only after the lookup missed keeps every `(name, type)` pair unique |
| Database.DeduplicatedLookupIsOnly | app.py:373-374 | with unique pairs, the row the lookup finds is the only row with that name and type |
| Database.DistinctKindsDistinctIds | app.py:372-384 | one name kept under both types resolves to two different category ids |
| Database.CategoryNames | app.py:289-295 | the listing has one entry per category row, in table order, holding that row's name |
| Database.OverwriteAt | app.py:465-466 | UPDATE by id keeps the table length; the rows with that id get all five new fields and every other row is unchanged |
| Database.OverwriteMissing | app.py:465-466 | UPDATE of an id no row has leaves the table as it was |
| Database.WithoutMembers | app.py:438 | after DELETE by id, a row is in the table exactly when it was there before and has a different id |
| Database.WithoutPresent | app.py:438 | DELETE of a present id removes exactly that one row and keeps the others in order |
| Database.WithoutMissing | app.py:438 | DELETE of an id no row has leaves the table as it was |
| Database.WithoutWellFormed | app.py:438 | DELETE keeps ids positive, unique and increasing |
| Database.ResolveOverwrite | app.py:465-466 | updating rows to a category that exists under the new type keeps every transaction's category resolvable |
| Database.ResolveWithout | app.py:438 | deleting transactions keeps every remaining transaction's category resolvable |
| Database.Store.constructor | app.py:162-177 | `create_db` on a new file gives two empty tables with both counters at 0 |
| Database.Store.InsertCategory | app.py:378 | a valid type appends one category under the next id and returns that id; an invalid type is a CHECK failure that writes nothing |
| Database.Store.FindOrCreateCategory | app.py:372-384 | an existing `(name, type)` returns its id and adds no row; otherwise exactly one row is appended under a fresh id, which is returned; a CHECK failure writes nothing; unique pairs stay unique |
| Database.Store.InsertTransaction | app.py:386-389 | a valid type appends exactly one transaction under the next id with the given fields; an invalid type writes nothing |
| Database.Store.UpdateTransaction | app.py:465-466 | the rows with that id get the five new fields and nothing else changes; an id no row has is a silent no-op |
| Database.Store.AddWithCategory | app.py:372-390 | category found or created, then one transaction appended that references it; the only failure is the CHECK, which writes nothing; the store stays consistent |
| Database.Store.UpdateWithCategory | app.py:449-467 | category found or created, then only the row with the id overwritten, or nothing when no row has it; the store stays consistent |
| Database.Store.DeleteTransaction | app.py:438 | the table loses exactly the rows with that id; categories and counters stay |
| Query.JoinedMembers | app.py:299 | a row of the inner join is exactly a transaction paired with a category whose id is its `category_id` |
| Query.JoinedAppend | app.py:299 | a transaction appended to the table adds its join rows at the end of the join |
| Query.JoinOneOnly | app.py:299 | a transaction whose category id exactly one category has joins once, with that category's name |
| Query.Where | app.py:337-340 | a row is returned exactly when it is a joined row and satisfies every WHERE condition |
| Query.DecodeRender | app.py:299-332 | the SQL text and parameter list built for a list of conditions determine that list: reading the statement back gives the conditions |
| Query.RenderCounts | app.py:299-332 | the statement has as many `?` placeholders as parameters, and exactly one `WHERE` when there is any condition and none otherwise |
| Query.ConditionsMeaning | app.py:302-332 | a row satisfies the built conditions exactly when its type matches (`all` matching any) and its date lies in the period; the conditions are refused exactly when the period is |
| Query.HalfOpenOnDates | app.py:311-314 | on formatted dates, `start <= date < end` as TEXT is start ≤ date < end in the calendar |
| Query.ClosedOnDates | app.py:329-332 | on formatted dates, `start <= date <= end` as TEXT is start ≤ date ≤ end in the calendar |
| Query.YearFilterIsThisYear | app.py:316-324 | the year filter keeps exactly the formatted dates of today's year and fails only in year 9999 |
| Query.MonthFilterEarlyIsThisMonth | app.py:306-314 | up to the 27th the month filter keeps exactly the formatted dates of today's month |
| Query.MonthFilterLateTakesNextMonth | app.py:309-314 | when day + 32 overshoots next month, the month filter also keeps every date of next month |
| Query.MonthFilterOnJanuary31ShowsFebruary | app.py:309-314 | on 2023-01-31 the month filter shows 15 February |
| Query.UnpaddedDateMissesMonthFilter | app.py:104-108 | in January 2024 up to the 27th, a transaction stored as `2024-1-5`, which `strptime` accepts, is not shown by the month filter |
| Query.UnpaddedDayIsShown | app.py:104-108 | in January 2024 up to the 27th, a transaction stored as `2024-01-5`, which `strptime` also accepts, is shown by the month filter: only the unpadded month puts a date past the window |
| Query.BuildQuery | app.py:297-335 | the text and parameters built step by step are the rendering of the filter's conditions, or the reason no statement runs |
| Query.AddPeriod | app.py:306-335 | after the type condition, the period's text and values are appended, or the error is returned for a missing range or a window past 9999 |
| Query.AddWindow | app.py:306-324 | appending a window's two bounds is rendering the type condition followed by `date >= start` and `date < end` |
| Query.AddRange | app.py:326-332 | appending a custom range is rendering the type condition followed by `date >= start` and `date <= end` |
| Query.Shown | app.py:297-342 | the shown rows are exactly the joined rows that pass the type and period filters |
| Query.ShownAppend | app.py:297-342 | filtering rows appended at the end appends their filtered rows, keeping order |
| Query.ShownJoinedAppend | app.py:297-342 | with category ids unique, a transaction appended under an existing category adds at most its one row to the filtered join, at the end |
| Query.WhereIsShown | app.py:337-340 | filtering the joined rows by the built conditions gives the rows the filters select |
| Query.ExecuteFilter | app.py:337-340 | running the built statement returns the filtered rows, and it fails exactly when no statement is built |
| Query.FilteredMembers | app.py:297-342 | a row is listed exactly when it joins a transaction to its category, its type passes the type filter and its date lies in the period |
| FinanceApp.CheckAmount | app.py:111-118 | the amount passes exactly when it parses and is greater than 0; otherwise it is not a number or not positive |
| FinanceApp.ValidateEdit | app.py:91-125 | the edit is missing a field exactly when date, amount or category is blank after stripping or the type is empty; it passes exactly when the stripped date is accepted by `strptime`, the stripped amount parses above 0 and the type is `expense` or `income` |
| FinanceApp.CheckAddForm | app.py:351-369 | the add form is missing a field exactly when date, amount or category is empty as typed; it passes exactly when the unstripped date is accepted by `strptime` and the amount parses above 0 |
| FinanceApp.AddAndEditAgreeOnTrimmedFields | app.py:93-95 | on fields without surrounding whitespace and a valid type, the add check and the edit check give the same answer |
| FinanceApp.EditAcceptsExactlyCalendarDates | app.py:104-108 | on `DDDD-DD-DD` text the edit window refuses the date exactly when it is not a real calendar date |
| FinanceApp.AddAcceptsExactlyCalendarDates | app.py:356-360 | on `DDDD-DD-DD` text the add form refuses the date exactly when it is not a real calendar date |
| FinanceApp.RejectsMonthThirteen | tests/test_finance_app.py:348-356 | `2024-13-01` is refused |
| FinanceApp.RejectsDayThirtyTwo | tests/test_finance_app.py:348-356 | `2024-01-32` is refused |
| FinanceApp.RejectsMonthFirst | tests/test_finance_app.py:348-356 | `01-15-2024` is refused |
| FinanceApp.AcceptsFebruary28 | tests/test_finance_app.py:337-345 | `2023-02-28` is accepted as 28 February 2023 |
| FinanceApp.AcceptsDecember31 | tests/test_finance_app.py:337-345 | `2024-12-31` is accepted as 31 December 2024 |
| FinanceApp.SpacedNameIsAnotherCategory | app.py:345-349 | once `Food` exists, the category an add of ` Food` finds or creates has an id other than Food's, while `Food`, the stripped name an edit of ` Food` looks up, still resolves to Food's id |
| FinanceApp.AddedRowIsListed | app.py:386-391 | the reload after an add runs `load_transactions()` with its defaults `all`/`all` (app.py:297) and always lists the appended row; under any later filter the row is listed exactly when the filter admits its type and date |
| FinanceApp.AddAppendsListedRow | app.py:386-391 | with category ids unique, an add makes any listing gain exactly its row, at the end, when the filter admits it and nothing otherwise; the `all`/`all` reload gains exactly that row, and on a fresh store lists only it |
| FinanceApp.AddTransaction | app.py:344-395 | a refused form or a CHECK failure writes nothing and says why; otherwise the category is found or created and exactly one row with the typed fields and the parsed amount is appended; the store stays consistent |
| FinanceApp.UpdateTransactionCallback | app.py:446-474 | returns True exactly for a valid type, also for an id no row has, which writes no transaction; a created category stays; only the row with the id changes |
| FinanceApp.SaveChanges | app.py:127-154 | a form the validation refuses writes nothing and gives its reason; otherwise the stripped fields and the parsed amount overwrite the row with the id |
| FinanceApp.DeleteTransaction | app.py:427-444 | with a row selected and confirmed, exactly that id's row is removed; otherwise nothing changes |
| FinanceApp.LoadCategories | app.py:289-295 | the drop-down gets the category names in table order |
| FinanceApp.LoadTransactions | app.py:297-342 | the listing is the filtered rows, or the error for a missing custom range or a window past 9999 |
| FinanceApp.FilterTransactions | app.py:476-487 | a custom period without two non-empty answers reloads nothing; otherwise the listing is reloaded, with the answers for custom and without dates for any other period |
| FinanceApp1.CheckForm | app1.py:194-202 | the form is missing a field exactly when date, amount or category is empty as typed; it passes exactly when none is empty and the amount parses |
| FinanceApp1.AcceptsWhatAppAccepts | app1.py:194-202 | every form app.py's add accepts passes app1.py's check, and the two report a missing field on the same inputs |
| FinanceApp1.StoresNonPositiveAmounts | app1.py:198-202 | an amount of zero or less on a well-formed date passes app1.py's check while app.py's add refuses it as not positive |
| FinanceApp1.StoresAnyDateText | app1.py:194-202 | `not a date` passes app1.py's check while app.py's add refuses it as a bad date |
| FinanceApp1.NameUnderBothTypesListedTwice | app1.py:137-140 | a name kept under both types appears twice in the category listing |
| FinanceApp1.AddTransaction | app1.py:186-227 | a form with an empty field or an unparsable amount, or a CHECK failure, writes nothing; otherwise the category is found or created and exactly one row with the typed fields is appended; the store stays consistent |
| FinanceApp1.SaveTransaction | app1.py:236-285 | with no row selected nothing is checked or written; otherwise a refused form or a CHECK failure writes nothing, and a passing form overwrites only the selected id's five fields |
| FinanceApp1.LoadTransactions | app1.py:142-184 | the listing is the same filtered rows as app.py's |
| FinanceApp1.FilterTransactions | app1.py:287-298 | as app.py's: no reload for a custom period without two answers, otherwise the filtered listing |

## Left out

- The tkinter interface is not modelled: windows, the Treeview, message boxes, the dialogs and the form reset after a save. Dialog answers and selections are parameters, and messages are results.
- sqlite3 mechanics: connections, cursors, commit, rollback and the file `finance.db`. The tables are sequences in memory. A statement the model lets fail writes nothing, so rollback has nothing to undo.
- `create_db` on a file whose tables already exist is a no-op and is not modelled. Only the fresh database is, as the `Store` constructor.
- Engine failures other than the type CHECK are not modelled, such as a locked or corrupt file or a full disk.
- In the add and update paths, the insert or update after the category step cannot raise here. The category step's CHECK has already refused a bad type, so no error path is modelled after it.
- The rows are listed in table order with no ORDER BY, as SQLite happens to return them. No order is claimed beyond that.
- `Query.Execute` reads back only the statements this model builds, through `Query.Decode`. SQLite's parser is not modelled.
- Float parsing, float arithmetic, NaN and infinities. `float()` is an abstract partial function to `real`, and amounts are stored as that `real`.
- `datetime.now()` is not modelled: today's date is a parameter.
- `Dates.ParseYmd` does not model that `strptime`'s `\d` also matches non-ASCII digits: it accepts ASCII digits only.
- `Dates.Format` pads years below 1000 to four digits. What `strftime('%Y')` writes for those years depends on the platform.
- `FinanceApp.UpdateTransactionCallback` does not model the refresh of the listing and the category drop-down after a save.
- `FinanceApp.LoadTransactions` and `FinanceApp1.LoadTransactions` do not model that the OverflowError of a month window past 9999, or the ValueError of a year window past it, propagates out of the handler. In app.py the window is computed (app.py:306-324) before the `try` (app.py:337-342), which catches only `sqlite3.Error`; app1.py has no `try` at all. The model returns `DateOutOfRange` in both front-ends.
- `FinanceApp.AddTransaction` and `FinanceApp1.AddTransaction` do not return the listing their reload shows; `FinanceApp.AddedRowIsListed` and `FinanceApp.AddAppendsListedRow` state what that listing holds.
- Ids past 2^63 - 1 are not modelled: integers are unbounded.
- The income and expense totals exist only as SQL in the tests and are not part of the application, so they are not modelled.
