# ts-todolist: filter panel and item-detail editor in Dafny

This project models the two small state machines of the to-do list application.

**Filter panel.** The panel keeps a working copy of the creation-date range (`startDate`, `endDate`) and of the three importance flags (`radioInputs`). Calendar and checkbox events edit only that copy. Apply pushes both the range and the flags to the parent, then closes the panel. Cancel and the close icon only close it. There are two versions:

- The header panel (`src/components/header/Filter/Filter.tsx`) seeds its flags from the committed importance.
- The older panel (`src/components/Filter.tsx`) always seeds its flags all-false.

**Item-detail editor.** The editor (`src/components/body/TodoItemDetail.tsx`) toggles between Viewing and Editing over a local buffer: `newText`, `newImportance` and the first-focus flag `textFirstEdit`. Confirming an edit dispatches one `UPDATE` action.

Layout:

- `dates.dfy`: modules `Wrappers` (`Option`, standing for a value or `null`) and `Dates`.
  - Days are ordered lexicographically on (year, month, day).
  - `FormatOrder` proves that this order is JavaScript's `<` on the fixed-width `YYYY-MM-DD` text, for four-digit years. The panel compares days by that text.
- `importance.dfy`: `Importance.Level`, the importance of one task (`'high'`, `'low'` or `'none'`), and `Importance.Flags`, the filter's three independent flags.
- `filter_model.dfy`: `FilterModel`, the pure model of both panels.
  - One `Step` per handler and `Run` for a sequence of handlers.
  - The two `disabledDate` predicates.
  - `Host`, the parent's state that the setters write.
  - The lemmas about event sequences.
- `header_filter.dfy`, `legacy_filter.dfy`: one class per panel component. Each class has the panel's fields and one method per handler.
  - The `Host` object stands for the parent and its setters.
  - Each method states its new state field by field, and also as `Step` applied to the old state.
- `item_detail.dfy`: `ItemDetail`, the editor.
  - The pure model: `Step`, `Run` and the lemmas.
  - The class `TodoItemDetail`, whose `dispatched` sequence stands in for `dispatch`.

The clock (`new Date().toISOString()`) is the `now` parameter of the EDIT/OK handler. The store's `dispatch` is the `dispatched` sequence. The parent's setters `setCreatedAtPeriod`, `setImportance` and `setFade` write the fields of `Host`.

In three places the code does something a reader might not expect; the model follows the code:

- Re-entering Editing neither re-seeds the buffer nor resets `textFirstEdit`. `textFirstEdit` starts true at mount and is never set again (`FirstEditOnlyUntilFocus`).
- A checkbox event sets its flag to the checkbox's `checked` value; it does not flip the flag.
- The older panel does not seed its flags from the committed importance (`ApplyWithoutCheckboxClearsImportance`).

## Model

| member | source | states |
|---|---|---|
| Dates.BeforeIsStrictTotalOrder | src/components/header/Filter/Filter.tsx:43-49 | the order the calendars use is irreflexive, transitive and total, and "not after" is the negation of "after" |
| Dates.Format | src/components/header/Filter/Filter.tsx:33 | the stored text of a day is ten characters, with dashes at positions 4 and 7 |
| Dates.FormatOrder | src/components/header/Filter/Filter.tsx:43-49 | for four-digit years, string `<` on `YYYY-MM-DD` texts holds exactly when the first day is earlier, and equal texts mean the same day |
| Dates.LexLess | src/components/header/Filter/Filter.tsx:43-49 | JavaScript `<` on strings (the `>` and `<` of both calendars): nothing is less than itself, and a proper prefix comes first |
| Importance.Set | src/components/header/Filter/Filter.tsx:62-69 | a checkbox change sets the named flag to the checked value and leaves the other two flags unchanged |
| FilterModel.At | src/components/header/Filter/Filter.tsx:28-29 | reading an entry of the committed period gives that entry when it exists, and no date when the array is shorter |
| FilterModel.SeedFromCommitted | src/components/header/Filter/Filter.tsx:28-30 | opening the header panel copies the committed state: a two-entry period becomes exactly the working range, and the working flags are the committed importance |
| FilterModel.SeedAllOff | src/components/Filter.tsx:28-34 | opening the older panel copies the committed period into the working range and leaves every working flag false |
| FilterModel.Step | src/components/header/Filter/Filter.tsx:32-69 | one handler: calendar and checkbox edits leave the committed state alone, Apply and close leave the working copy alone, close keeps the committed period and importance, and only Apply or close clears `fade` |
| FilterModel.DisabledStartDate | src/components/header/Filter/Filter.tsx:40-44 | a start day can be picked exactly when its year is not negative and it is not after the working end date; with no end date, every non-negative year is allowed, and a start equal to the end is allowed |
| FilterModel.DisabledEndDate | src/components/header/Filter/Filter.tsx:46-50 | an end day can be picked exactly when its year is at most 9999 and it is not before the working start date; with no start date, nothing up to year 9999 is refused |
| FilterModel.DisabledStartDateText | src/components/header/Filter/Filter.tsx:40-44 | the start calendar as written, on the formatted texts: a day it offers has a non-negative year, and with no (or an empty) end text only negative years are refused |
| FilterModel.DisabledEndDateText | src/components/header/Filter/Filter.tsx:46-50 | the end calendar as written, on the formatted texts: a day it offers has a year of at most 9999, and with no (or an empty) start text only years above 9999 are refused |
| FilterModel.DisabledStartDateMatchesText | src/components/header/Filter/Filter.tsx:40-44 | for days with four-digit years, the text comparison refuses exactly the start days that `DisabledStartDate` refuses |
| FilterModel.DisabledEndDateMatchesText | src/components/header/Filter/Filter.tsx:46-50 | for days with four-digit years, the text comparison refuses exactly the end days that `DisabledEndDate` refuses |
| FilterModel.FiveDigitStartPassesEnd | src/components/header/Filter/Filter.tsx:41-43 | the start calendar as written offers `10000-01-01` against an end of `2021-01-01`, although that start is after the end, and the range it gives is not ordered |
| FilterModel.FiveDigitStartThenEndPasses | src/components/header/Filter/Filter.tsx:40-50 | with no end picked, the start calendar as written offers `10000-01-01`; the end calendar as written then offers `2021-01-01`, which the chronological calendar refuses, and picking both leaves the working range not ordered |
| FilterModel.EditsNeverCommit | src/components/header/Filter/Filter.tsx:32-69 | any sequence of calendar and checkbox edits leaves the committed period, importance and `fade` untouched |
| FilterModel.OnlyApplyCommits | src/components/header/Filter/Filter.tsx:52-60 | without Apply, the committed period and importance never change, and `fade` can only go from true to false |
| FilterModel.CancelAfterEdits | src/components/header/Filter/Filter.tsx:52-54 | cancel or close after any edits leaves the committed state as at opening, except `fade`, which becomes false |
| FilterModel.ApplyAfterEdits | src/components/header/Filter/Filter.tsx:56-60 | Apply after any events commits the final working range as `[startDate, endDate]` and the final working flags together, and clears `fade` |
| FilterModel.NoCheckboxKeepsFlags | src/components/header/Filter/Filter.tsx:32-38 | date changes, Apply and close never change the working flags |
| FilterModel.ApplyWithoutCheckboxKeepsImportance | src/components/header/Filter/Filter.tsx:28-60 | in the header panel, Apply without touching a checkbox commits the importance that was committed at opening |
| FilterModel.ApplyWithoutCheckboxClearsImportance | src/components/Filter.tsx:30-64 | in the older panel, Apply without touching a checkbox commits all-false importance and overwrites any earlier committed flags |
| FilterModel.ApplyThenReopen | src/components/header/Filter/Filter.tsx:28-60 | reopening after Apply gives the header panel the working copy it applied, and gives the older panel the same dates with all-false flags |
| FilterModel.CalendarsKeepRangeOrdered | src/components/Filter.tsx:44-64 | if every picked day was offered by its calendar, the working range and every committed period stay ordered (start not after end) |
| FilterModel.TextCalendarsKeepRangeOrdered | src/components/header/Filter/Filter.tsx:40-60 | with the calendars' own text comparison, as long as every picked day has a four-digit year, the working range and every committed period stay ordered |
| FilterModel.SeedKeepsRangeOrdered | src/components/Filter.tsx:28-34 | opening either panel over an ordered committed period gives an ordered working range |
| FilterModel.Host.constructor | src/components/header/Header.tsx:10-31 | the parent's committed period, importance and `fade` start at the given values |
| HeaderFilter.Filter.constructor | src/components/header/Filter/Filter.tsx:28-30 | on opening, the working start and end are the committed period's two entries and the working flags are the committed importance |
| HeaderFilter.Filter.OnStartDateChange | src/components/header/Filter/Filter.tsx:32-34 | the working start becomes the picked day, or no date when cleared; nothing else changes, the parent included |
| HeaderFilter.Filter.OnEndDateChange | src/components/header/Filter/Filter.tsx:36-38 | the working end becomes the picked day, or no date when cleared; nothing else changes, the parent included |
| HeaderFilter.Filter.DisabledStartDate | src/components/header/Filter/Filter.tsx:40-44 | the corrected start calendar, over the current working end date: a start day can be picked exactly when its year is not negative and it is not after that end |
| HeaderFilter.Filter.DisabledEndDate | src/components/header/Filter/Filter.tsx:46-50 | the corrected end calendar, over the current working start date: an end day can be picked exactly when its year is at most 9999 and it is not before that start |
| HeaderFilter.Filter.HandleClose | src/components/header/Filter/Filter.tsx:52-54 | cancel and the close icon set `fade` to false; the committed period, importance and working copy are unchanged |
| HeaderFilter.Filter.OnApplyButtonClick | src/components/header/Filter/Filter.tsx:56-60 | one handler commits the period `[startDate, endDate]` and the working flags, and sets `fade` to false |
| HeaderFilter.Filter.OnRadioChange | src/components/header/Filter/Filter.tsx:62-69 | the named working flag takes the checked value, the other flags and the dates stay, and the parent is untouched |
| LegacyFilter.Filter.constructor | src/components/Filter.tsx:28-34 | on opening, the working dates are the committed period's two entries and the working flags are all false |
| LegacyFilter.Filter.OnStartDateChange | src/components/Filter.tsx:36-38 | the working start becomes the picked day, or no date when cleared; nothing else changes |
| LegacyFilter.Filter.OnEndDateChange | src/components/Filter.tsx:40-42 | the working end becomes the picked day, or no date when cleared; nothing else changes |
| LegacyFilter.Filter.DisabledStartDate | src/components/Filter.tsx:44-48 | the corrected start calendar, over the current working end date: a start day can be picked exactly when its year is not negative and it is not after that end |
| LegacyFilter.Filter.DisabledEndDate | src/components/Filter.tsx:50-54 | the corrected end calendar, over the current working start date: an end day can be picked exactly when its year is at most 9999 and it is not before that start |
| LegacyFilter.Filter.HandleClose | src/components/Filter.tsx:56-58 | cancel and the close icon only set `fade` to false |
| LegacyFilter.Filter.OnApplyButtonClick | src/components/Filter.tsx:60-64 | one handler commits the period and the working flags, and sets `fade` to false |
| LegacyFilter.Filter.OnRadioChange | src/components/Filter.tsx:66-73 | only the named flag among high, low and none changes, and it takes the checked value |
| ItemDetail.Mount | src/components/body/TodoItemDetail.tsx:25-29 | on mount: Viewing, first focus pending, nothing dispatched, buffer holding the item's `taskName` and `importance` |
| ItemDetail.Step | src/components/body/TodoItemDetail.tsx:32-66 | one handler: only EDIT/OK flips the mode, only a confirming click dispatches (exactly one action), EDIT/OK never touches the buffer, and the first-focus flag can only be cleared |
| ItemDetail.DateOfLastUpdate | src/components/body/TodoItemDetail.tsx:44-47 | the update date is a prefix of the clock's timestamp: its first ten characters, or the whole timestamp when it is shorter |
| ItemDetail.DateOfLastUpdateIsDay | src/components/body/TodoItemDetail.tsx:44-47 | for a timestamp that starts with a `YYYY-MM-DD` day, the update date is exactly that day |
| ItemDetail.ToggleLevel | src/components/body/TodoItemDetail.tsx:49-54 | importance becomes `'none'` exactly when the chosen level equals the current one (or is `'none'`); otherwise it becomes the chosen level |
| ItemDetail.ToggleTwice | src/components/body/TodoItemDetail.tsx:49-54 | choosing the same level twice restores the starting level exactly when it was `'none'` or the chosen level; from `'none'` it returns to `'none'` |
| ItemDetail.ImportanceLabel | src/components/body/TodoItemDetail.tsx:99-104 | the label is `'중요도 '` followed by `없음` for `'none'`, or by the level's name otherwise |
| ItemDetail.ImportanceLabelInjective | src/components/body/TodoItemDetail.tsx:99-104 | different levels get different labels |
| ItemDetail.DispatchOnlyAppends | src/components/body/TodoItemDetail.tsx:68-76 | dispatched actions are only appended, never changed or removed, and every new action carries the component's task id |
| ItemDetail.ClicksAlternate | src/components/body/TodoItemDetail.tsx:32-42 | after k EDIT/OK clicks (counting the one that opened the current edit), the editor is Editing iff k is odd, and exactly k/2 `UPDATE`s were dispatched |
| ItemDetail.ConfirmWithoutChanges | src/components/body/TodoItemDetail.tsx:38-47 | EDIT then OK with no edits still dispatches one `UPDATE` carrying the item's own text, its importance and today's date: there is no dirty check |
| ItemDetail.FirstEditOnlyUntilFocus | src/components/body/TodoItemDetail.tsx:63-66 | after any events, `textFirstEdit` is set exactly when it was set before and no focus happened, so re-entering Editing never re-arms it |
| ItemDetail.TextSurvivesLaterFocus | src/components/body/TodoItemDetail.tsx:56-66 | after the first focus, any events other than typing (later focuses included) leave the text unchanged |
| ItemDetail.FirstFocusClears | src/components/body/TodoItemDetail.tsx:63-66 | the first focus after mounting empties the text, whatever focus-free events came before it |
| ItemDetail.TypedTextSurvivesSecondFocus | src/components/body/TodoItemDetail.tsx:56-66 | EDIT, focus, typing a text, then focus again leaves the typed text |
| ItemDetail.TodoItemDetail.constructor | src/components/body/TodoItemDetail.tsx:25-29 | on mount: Viewing, first focus pending, buffer seeded from the item's `taskName` and `importance`, nothing dispatched |
| ItemDetail.TodoItemDetail.HandleEdit | src/components/body/TodoItemDetail.tsx:32-42 | from Viewing: enter Editing and dispatch nothing; from Editing: dispatch exactly one `UPDATE` with the item's id, the buffered text and importance, and today's date, then return to Viewing; the buffer is untouched |
| ItemDetail.TodoItemDetail.UpdateData | src/components/body/TodoItemDetail.tsx:68-76 | appends exactly one `UPDATE` carrying the buffer and the date taken from the clock's timestamp |
| ItemDetail.TodoItemDetail.HandleCheckEvent | src/components/body/TodoItemDetail.tsx:49-54 | single choice that can be switched off: choosing the current level gives `'none'`, choosing another level selects it; nothing else changes |
| ItemDetail.TodoItemDetail.HandleTextareaOnChange | src/components/body/TodoItemDetail.tsx:56-61 | the text becomes the given value and nothing else changes |
| ItemDetail.TodoItemDetail.HandleTextareaFocus | src/components/body/TodoItemDetail.tsx:63-66 | the text is cleared only when the first-focus flag is set; the flag is then cleared for good |

## Left out

- Rendering (JSX) and every `styled-components` block: presentation only.
- The antd `DatePicker` and moment.
  - A candidate day is a `Date` value.
  - The calendars' refusal of disabled days is the `Offered` / `AllOffered` precondition of `CalendarsKeepRangeOrdered`. The picker's input is read-only, so the user cannot type a refused day.
- The value of `DATE_FORMAT`: it is imported from `src/constants/index.tsx`, and its definition is not part of this model.
  - The working dates are kept as `Date` values and compared chronologically.
  - `FormatOrder` shows this matches string comparison for a `YYYY-MM-DD` format with four-digit years.
  - Formatted years above 9999 and negative years give text of another width. `disabledStartDate` still compares a candidate with a year above 9999, and `disabledEndDate` a negative-year candidate. Both also compare against a working date of any year, so a five-digit start text reaches the end calendar's comparison. `DisabledStartDateText` and `DisabledEndDateText` model the comparison on text as written. How moment prints such years is not modelled: `FiveDigitStartPassesEnd` and `FiveDigitStartThenEndPasses` assume the five-digit year is printed in full.
- FilterModel.CalendarsKeepRangeOrdered: holds for calendars that compare days chronologically. The code compares formatted text and offers a start with a five-digit year after a four-digit end. With no end picked, it also offers a five-digit start and then a four-digit end before it (see "## Findings"). Either inverts the range.
- FilterModel.TextCalendarsKeepRangeOrdered: covers only picks whose years have four digits (and working dates that do). A start year above 9999 or an end year below 0 is not covered. A five-digit start can invert the range, either against an earlier end or by letting the end calendar offer an earlier end.
- FilterModel.DisabledStartDate: compares chronologically rather than by the formatted text. It differs from the code (`DisabledStartDateText`) only for years outside 0..9999, as above.
- FilterModel.DisabledEndDate: compares chronologically rather than by the formatted text. It differs from the code (`DisabledEndDateText`) when a year is outside 0..9999, the working start's included: against a five-digit start it refuses the four-digit ends the code offers.
- HeaderFilter.Filter.DisabledStartDate: compares days chronologically (it is `FilterModel.DisabledStartDate` over the panel's end date). It differs from the code when a year is outside 0..9999: it refuses the start `10000-01-01` against an end of `2021-01-01`, which the code offers.
- HeaderFilter.Filter.DisabledEndDate: compares days chronologically (it is `FilterModel.DisabledEndDate` over the panel's start date). It differs from the code when a year is outside 0..9999: it refuses the end `2021-01-01` against a start of `10000-01-01`, which the code offers.
- LegacyFilter.Filter.DisabledStartDate: the same chronological comparison and the same difference from the code as `HeaderFilter.Filter.DisabledStartDate`.
- LegacyFilter.Filter.DisabledEndDate: the same chronological comparison and the same difference from the code as `HeaderFilter.Filter.DisabledEndDate`.
- The name a checkbox event carries is one of the three levels. In the code it is any string, and an unknown name would add a new key to `radioInputs`. The checkboxes only ever carry the three names.
- The editor accepts checkbox, typing and focus events in Viewing too. In the code the checkboxes and the textarea exist only while Editing, so those events never arrive in Viewing. The wider model promises nothing false about the events that do arrive.
- The clock in `getDateOfLastUpdate`: the timestamp is the `now` parameter.
- The to-do reducer that consumes `UPDATE`, the derivation of the visible-task list from the committed filters, `useTodosDispatch` and `useSideTab` (the side panel's open, fade and close life cycle). None of them is in `TodoItemDetail.tsx`, `Filter.tsx` or `Header.tsx`, so the model does not specify what the store does with an `UPDATE`.
- `src/components/header/Header.tsx`: pure composition. Only the state it passes to the panel is modelled, as `Host`.
- The DELETE button: it has no handler.
- The older panel's props `setIsOpen` and `fade`: its handlers never read them.
- `src/constants/index.tsx` (`STATUS`, `TODO_ITEM_LIST`): static data.
- React's re-render scheduling. Every setter inside one handler reads the state the handler started with, and that is what `Step` models.
- Importance strings other than `'high'`, `'low'` and `'none'` in a task's props.

## Findings

| source | as written | input that shows it | evidently intended | confidence | as-written member | corrected member |
|---|---|---|---|---|---|---|
| src/components/header/Filter/Filter.tsx:40-44 | the start calendar refuses only negative years, then refuses a day when its formatted text is `>` the end text | end `2021-01-01`, candidate start `10000-01-01`: `"10000-01-01" > "2021-01-01"` is false, so the start is offered although it is after the end | refuse every start day after the end day, so that start ≤ end | not executed; assumes `DATE_FORMAT` is `YYYY-MM-DD` and that a five-digit year is printed in full | FilterModel.FiveDigitStartPassesEnd | FilterModel.CalendarsKeepRangeOrdered |
| src/components/Filter.tsx:44-48 | the same start-calendar predicate as above | the same: end `2021-01-01`, start `10000-01-01` is offered | the same: refuse every start day after the end day | not executed; same assumptions as above | FilterModel.FiveDigitStartPassesEnd | FilterModel.CalendarsKeepRangeOrdered |
| src/components/header/Filter/Filter.tsx:46-50 | the end calendar refuses only years above 9999, then refuses a day when its formatted text is `<` the start text | no end yet, start `10000-01-01` picked (the start calendar offers it), then candidate end `2021-01-01`: `"2021-01-01" < "10000-01-01"` is false, so the end is offered although it is before the start | refuse every end day before the start day, so that start ≤ end | not executed; assumes `DATE_FORMAT` is `YYYY-MM-DD` and that a five-digit year is printed in full | FilterModel.FiveDigitStartThenEndPasses | FilterModel.CalendarsKeepRangeOrdered |
| src/components/Filter.tsx:50-54 | the same end-calendar predicate as above | the same: start `10000-01-01`, end `2021-01-01` is offered | the same: refuse every end day before the start day | not executed; same assumptions as above | FilterModel.FiveDigitStartThenEndPasses | FilterModel.CalendarsKeepRangeOrdered |
