# TolariApp core, modelled in Dafny

TolariApp is a desktop study tool. Its Go backend (`app.go`) keeps flashcards in a database and schedules their reviews with the SM-2 spaced-repetition rule. It also keeps a kanban board of cards and columns in a JSON file. The React front end adds a pomodoro timer, a numeric input field, a carousel of flashcards on the home screen and a review screen that sends grades back to the backend.

This project models that core:

- `scheduler.dfy` (module `Scheduler`) covers the SM-2 review of one card.
  - A schedule value holds repetitions, easiness, interval and review date.
  - `Reviewed` is the pure transition.
  - `Flashcard` is the backend's card, updated in place by `Review`.
  - `ReviewCard` finds a card by id, reviews it and writes it back.
  - Easiness is kept in exact hundredths (2.5 is 250, the floor 1.3 is 130), and dates are day numbers.
- `kanban.dfy` (module `Kanban`) covers the board.
  - `AddCard` and `AddColumn` are pure transitions.
  - `Board` is the backend's state, updated in place by `SaveKanbanCard`, `SaveColumn` and `SaveAllKanbanData`.
- `pomodoro.dfy` (module `Pomodoro`) covers the timer context.
  - The state is phase, remaining seconds, active flag, first-activation flag, work count and loaded flag.
  - Each handler is a pure transition. `PomodoroTimer` applies them in place.
  - `Run` replays a sequence of user and clock events.
- `numeric_input.dfy` (module `NumericInput`) covers the numeric field: the typing filter, clamping on blur and the `bind` effect.
- `home.dfy` (module `Home`) covers the home-screen carousel: wrap-around previous and next, and the "i / n" label.
- `review_screen.dfy` (module `ReviewScreen`) covers the review screen.
  - Each button maps to a grade.
  - The review cursor advances only when the backend call succeeds.
- `decimal.dfy` (module `Decimal`) holds decimal rendering and parsing of integers: Go's `strconv.FormatUint`, and JavaScript's `toString` and `parseInt` on integer strings.
- `wrappers.dfy` (module `Wrappers`) holds an `Option` type.

The backend's scheduler departs from common descriptions of SM-2 in a few places. The model follows the code:

- Easiness changes only on a successful recall (grade 3 or more); a failed recall keeps it. Many SM-2 descriptions apply the easiness formula after every review. Under that reading, grades 5, 5, 2 would end at easiness 2.7 - 0.32 = 2.38. The code ends at 2.7 (`Scheduler.FailAfterTwoRecallsScenario`).
- Grades are not checked to lie on the 0 to 5 scale. A grade of 6 to 9 raises easiness by 0.1 or more. A grade of 10 or more still never lowers the interval under 1 (`Scheduler.EasinessDeltaByGrade`, `Scheduler.ReviewKeepsReachable`).
- A new card's review date is one day before its creation.
- `ReviewCard` on a missing id returns the database's no-rows error and changes nothing.

## Model

| member | source | states |
|---|---|---|
| Decimal.Show | app.go:444 | the decimal rendering of a counter is a non-empty digit string with no leading zero except for 0 itself |
| Decimal.ValueShow | frontend/src/components/NumericInput.tsx:26 | reading back the digits of a rendered number gives the number |
| Decimal.ShowInjective | app.go:444 | different counters render differently |
| Decimal.ParseIntString | frontend/src/components/NumericInput.tsx:26-29 | the text shown for any integer is a numeral, and `parseInt` of it gives the integer back |
| Scheduler.NewSchedule | app.go:244-254 | a new card has 0 repetitions, easiness 2.5 and interval 0, and its review date is exactly one day before the day it was made |
| Scheduler.NewScheduleReachable | app.go:244-254 | a new card's schedule satisfies the schedule invariant (easiness at least 1.3, interval in step with repetitions) |
| Scheduler.Flashcard.New | app.go:244-254 | a new card is unsaved (id 0), keeps the given front and back, and carries the new schedule |
| Scheduler.Flashcard.Load | app.go:325-334 | a card read back from its row holds exactly that row |
| Scheduler.RoundHundredths | app.go:379 | the interval is rounded to the nearest whole day, halves up |
| Scheduler.EasinessDelta | app.go:367 | within the 0 to 5 scale no grade raises easiness by more than 0.1, and a passing grade lowers it by at most 0.14 |
| Scheduler.Reviewed | app.go:360-384 | a review makes the card due the new interval's number of days later; repetitions drop to 0 exactly on a failed recall (grade below 3), which sets interval 1 and keeps easiness |
| Scheduler.SuccessEasiness | app.go:366-371 | a grade of 3 or more moves easiness by the SM-2 delta, clamped below at 1.3 |
| Scheduler.EasinessDeltaByGrade | app.go:367 | grades 3, 4 and 5 move easiness by -0.14, 0 and +0.1; unchecked grades 6-8 raise it by more, 9 by 0.1, 10 by 0, and above 10 lower it by at least 0.14 |
| Scheduler.SuccessInterval | app.go:372-380 | a successful recall counts one more repetition; the interval becomes 1, then 6, then the old interval times the new easiness, rounded |
| Scheduler.RoundedGrowth | app.go:379 | with easiness at least 1.3, the rounded product is never below the old interval |
| Scheduler.ReviewKeepsReachable | app.go:360-384 | every review keeps the invariant: easiness at least 1.3 and interval at least 1; a successful review never shrinks the interval |
| Scheduler.ReplayGrowth | app.go:360-384 | along any history of reviews on due days, every schedule keeps the invariant and review dates strictly increase; along successful recalls intervals never decrease |
| Scheduler.FreshCardScenario | app.go:360-384 | grades 5, 5, 5, 2 on a new card give intervals 1, 6, 17, 1 and easiness 2.6, 2.7, 2.8, 2.8 on days 1, 7, 24, 25 |
| Scheduler.FailAfterTwoRecallsScenario | app.go:363-365 | grades 5, 5, 2 end at repetitions 0, easiness 2.7, interval 1, due on day 8 |
| Scheduler.Flashcard.Review | app.go:360-384 | reviewing a card in place sets its schedule to the SM-2 transition of the old one and leaves id, front and back unchanged |
| Scheduler.ReviewCard | app.go:338-358 | a missing id fails with no change; otherwise exactly that row gets the reviewed schedule, and the reviewed card is returned |
| Kanban.CardIdInjective | app.go:444 | different card counters give different card ids |
| Kanban.ColumnIdInjective | app.go:454 | different column counters give different column ids |
| Kanban.AddCard | app.go:443-451 | a new card gets id "card-N" for the counter and its content; it is appended to its column, an absent column starting empty; the counter moves on; nothing else changes |
| Kanban.AddColumn | app.go:453-461 | a new column gets id "col-N" for the counter, its title and an empty list; the counter moves on; nothing else changes |
| Kanban.AddCardKeepsFresh | app.go:443-451 | on a board whose counters are ahead of every id in use, the new card id is unused and ends up listed in exactly one column; the board stays that way when the column was already known |
| Kanban.AddColumnKeepsFresh | app.go:453-461 | on such a board the new column id is unused and the board stays that way |
| Kanban.StartupAsWritten | app.go:61-75 | the board `startup` writes has no cards and titled columns col-1..col-3, and the column id handed out next is already one of them |
| Kanban.StartupAsWrittenOrphansCards | app.go:61-75 | with the column counter starting at 1, the first new column reuses "col-1": the "To-Do" title is overwritten and its cards are listed in no column |
| Kanban.Startup | app.go:61-75 | the corrected startup board has the same columns and no cards, and the column id handed out next is not yet in use |
| Kanban.StartupFresh | app.go:61-75 | with the column counter starting at 4, the startup board has no id collision ahead |
| Kanban.Board.constructor | app.go:61-75 | a new board has columns col-1..col-3 titled "To-Do", "In Progress" and "Done", no cards, and the corrected counters |
| Kanban.Board.AsWritten | app.go:61-75 | a board created as `startup` writes it holds StartupAsWritten, column counter 1 |
| Kanban.Board.Load | app.go:83-92 | a board read from its file holds exactly the stored data |
| Kanban.Board.SaveKanbanCard | app.go:443-451 | the board becomes the AddCard transition of the old board and returns the new id; a collision-free board stays collision-free for a known column |
| Kanban.Board.SaveColumn | app.go:453-461 | the board becomes the AddColumn transition of the old board and returns the new id; a collision-free board stays collision-free |
| Kanban.Board.SaveAllKanbanData | app.go:475-480 | cards, columns and titles are replaced wholesale and the counters are kept |
| Pomodoro.PhaseTotal | frontend/src/contexts/PomodoroContext.tsx:49-60 | a phase's length in seconds is never negative when the settings are not |
| Pomodoro.EnterPhase | frontend/src/contexts/PomodoroContext.tsx:69-72 | entering a phase sets it and restarts its full length; nothing else changes |
| Pomodoro.ScheduleNext | frontend/src/contexts/PomodoroContext.tsx:74-96 | after work the work count goes up by one and a long break follows exactly when the count is a multiple of 4; after a break, work follows; the new phase starts at its full length |
| Pomodoro.AfterTick | frontend/src/contexts/PomodoroContext.tsx:102-117 | a second does nothing while stopped, counts down while time remains, and at zero stops the timer and schedules the next phase |
| Pomodoro.AfterStart | frontend/src/contexts/PomodoroContext.tsx:119-124 | start makes the timer active and marks it as activated at least once; nothing else changes |
| Pomodoro.AfterStop | frontend/src/contexts/PomodoroContext.tsx:125 | stop makes the timer inactive; nothing else changes |
| Pomodoro.AfterSkip | frontend/src/contexts/PomodoroContext.tsx:126-129 | skipping, running or not, stops the timer and moves on: after work a break, long exactly when the raised work count is a multiple of 4; after a break, work; the new phase starts at its full length; the flags are kept |
| Pomodoro.AfterReset | frontend/src/contexts/PomodoroContext.tsx:130-133 | reset stops the timer and restarts work at its full length; the work count, the first-activation flag and the loaded flag are kept |
| Pomodoro.DurationsChanged | frontend/src/contexts/PomodoroContext.tsx:62-67 | changed settings stop the timer, restart the current phase at its new length and mark the timer loaded |
| Pomodoro.CountdownTicks | frontend/src/contexts/PomodoroContext.tsx:105-113 | n seconds of a running timer with at least n seconds left subtract n and change nothing else |
| Pomodoro.CountdownCompletes | frontend/src/contexts/PomodoroContext.tsx:105-113 | a running phase with r seconds left ends after r + 1 seconds exactly as a skip would end it |
| Pomodoro.FourWorkPhasesCycle | frontend/src/contexts/PomodoroContext.tsx:80-95 | from a work phase at a multiple of 4, phases run short, work, short, work, short, work, long, work, and the count rises by 4 |
| Pomodoro.StepInvariants | frontend/src/contexts/PomodoroContext.tsx:102-133 | every event keeps the remaining time within the phase length; the first-activation flag is never cleared; the work count never drops |
| Pomodoro.RunInvariants | frontend/src/contexts/PomodoroContext.tsx:102-133 | the same holds along any sequence of events |
| Pomodoro.Progress | frontend/src/contexts/PomodoroContext.tsx:135-141 | progress is the elapsed fraction of the phase (progress times the total is the elapsed time): 0 for a zero-length phase and at a phase's start, 1 when no time remains, and in [0, 1] while the remaining time is within the phase |
| Pomodoro.TickRaisesProgress | frontend/src/contexts/PomodoroContext.tsx:105-113 | a second of countdown keeps the phase and never lowers the progress of a phase of non-negative length |
| Pomodoro.Minutes | frontend/src/contexts/PomodoroContext.tsx:144 | the minutes shown are the floor of the remaining seconds over 60 |
| Pomodoro.Seconds | frontend/src/contexts/PomodoroContext.tsx:145 | the seconds shown differ from the remaining time by a multiple of 60 and lie in 0..59 for non-negative time and in -59..0 for negative time, as JavaScript's `%` gives |
| Pomodoro.DisplaySplit | frontend/src/contexts/PomodoroContext.tsx:144-145 | for non-negative remaining time, minutes times 60 plus seconds is the remaining time, with seconds below 60 |
| Pomodoro.DisplayAtPhaseStart | frontend/src/contexts/PomodoroContext.tsx:49-60 | at the start of a phase the display shows the configured minutes and seconds when those seconds are below 60 |
| Pomodoro.PomodoroTimer.constructor | frontend/src/contexts/PomodoroContext.tsx:41-47 | the timer starts in work, at 0 seconds, stopped, never activated, with work count 0, not loaded |
| Pomodoro.PomodoroTimer.SetPhaseWithDuration | frontend/src/contexts/PomodoroContext.tsx:69-72 | in-place form of EnterPhase |
| Pomodoro.PomodoroTimer.ScheduleNextPhase | frontend/src/contexts/PomodoroContext.tsx:74-96 | in-place form of ScheduleNext |
| Pomodoro.PomodoroTimer.Tick | frontend/src/contexts/PomodoroContext.tsx:102-117 | in-place form of AfterTick |
| Pomodoro.PomodoroTimer.Start | frontend/src/contexts/PomodoroContext.tsx:119-124 | start makes the timer active and sets the first-activation flag |
| Pomodoro.PomodoroTimer.Stop | frontend/src/contexts/PomodoroContext.tsx:125 | stop makes the timer inactive and changes nothing else |
| Pomodoro.PomodoroTimer.Skip | frontend/src/contexts/PomodoroContext.tsx:126-129 | in-place form of AfterSkip |
| Pomodoro.PomodoroTimer.Reset | frontend/src/contexts/PomodoroContext.tsx:130-133 | in-place form of AfterReset |
| Pomodoro.PomodoroTimer.OnDurationsChanged | frontend/src/contexts/PomodoroContext.tsx:62-67 | in-place form of DurationsChanged, taking the new settings |
| Pomodoro.PomodoroTimer.GetProgress | frontend/src/contexts/PomodoroContext.tsx:135-141 | the timer's progress is the elapsed fraction of the current phase (progress times the phase length is the elapsed time): 0 for a zero-length phase and in [0, 1] while the remaining time is within the phase |
| NumericInput.BlurEmpty | frontend/src/components/NumericInput.tsx:36-41 | empty text reports and shows the minimum, or without a minimum reports 0 and stays empty |
| NumericInput.Blur | frontend/src/components/NumericInput.tsx:23-43 | after blur the field holds an integer numeral or nothing, and non-empty text reads back as the value reported |
| NumericInput.BlurBounds | frontend/src/components/NumericInput.tsx:25-41 | with bounds that do not cross, the reported value is at least the minimum and at most the maximum, except that empty text without a minimum reports 0 |
| NumericInput.BlurCrossedBounds | frontend/src/components/NumericInput.tsx:27-32 | with max below min, a number below min reports min (above max), and any other number reports max (below min) |
| NumericInput.BlurClamps | frontend/src/components/NumericInput.tsx:26-32 | a number below the minimum reports and shows the minimum; otherwise a number above the maximum reports and shows the maximum |
| NumericInput.BlurInRange | frontend/src/components/NumericInput.tsx:33-35 | a number within the bounds is reported as parsed and the text is left as typed |
| NumericInput.BlurIdempotent | frontend/src/components/NumericInput.tsx:23-43 | with bounds that do not cross, blurring twice gives the same value and text as blurring once |
| NumericInput.Truthy | frontend/src/components/NumericInput.tsx:45 | the bound value counts as set exactly when it is present and its rendering is not "0", since JavaScript treats 0 as false |
| NumericInput.NumberInput.constructor | frontend/src/components/NumericInput.tsx:13 | the field starts with the default value's text |
| NumericInput.NumberInput.HandleChange | frontend/src/components/NumericInput.tsx:15-21 | typed text replaces the field only when it is all digits; otherwise the field is unchanged |
| NumericInput.NumberInput.HandleBlur | frontend/src/components/NumericInput.tsx:23-43 | the value reported and the text left are those of Blur on the old text |
| NumericInput.NumberInput.OnBind | frontend/src/components/NumericInput.tsx:45-49 | a present, non-zero bound value replaces the text with its rendering; 0 or absent leaves it |
| Home.PrevIndex | frontend/src/screens/home.tsx:60-67 | stepping back from a valid position stays within the list, wrapping from the first to the last |
| Home.NextIndex | frontend/src/screens/home.tsx:84-87 | stepping forward always gives a valid position |
| Home.NextIndexWithin | frontend/src/screens/home.tsx:86 | stepping forward from a valid position goes to the next one, wrapping from the last to 0 |
| Home.PrevNextInverse | frontend/src/screens/home.tsx:60-87 | previous and next undo each other on every valid position |
| Home.ForwardAround | frontend/src/screens/home.tsx:84-87 | k steps forward land on (i + k) mod n; n steps return to the start |
| Home.Position | frontend/src/screens/home.tsx:93 | the label "i / n" shows the list length and, for a valid position, a number from 1 to n |
| Home.Carousel.constructor | frontend/src/screens/home.tsx:10-11 | the carousel starts with no keys and no position |
| Home.Carousel.Load | frontend/src/screens/home.tsx:13-19 | loading keys resets the position to 0 when there are any, and otherwise keeps it |
| Home.Carousel.PressPrev | frontend/src/screens/home.tsx:58-71 | the button acts only with more than one key and a position, stepping back with wrap-around; a valid position stays valid |
| Home.Carousel.PressNext | frontend/src/screens/home.tsx:82-91 | the button acts only with more than one key and a position, stepping forward with wrap-around; the position is then valid |
| ReviewScreen.GradeOf | frontend/src/screens/review.tsx:61-112 | the four buttons send grades 0, 3, 4 and 5, never 1 or 2; only Fail is a failed recall |
| ReviewScreen.ButtonEasiness | frontend/src/screens/review.tsx:61-112 | Fail and Fair keep easiness, Hard lowers it by 0.14 down to 1.3 at least, and Easy raises it by 0.1 |
| ReviewScreen.SessionInOrder | frontend/src/screens/review.tsx:63-112 | when every call succeeds, the screen reviews the queued cards in order, one per press, and stops at the end of the queue |
| ReviewScreen.ReviewQueue.constructor | frontend/src/screens/review.tsx:14-15 | the screen starts with no cards and no cursor, showing nothing |
| ReviewScreen.ReviewQueue.Showing | frontend/src/screens/review.tsx:49-57 | a card and the grade buttons are shown only with a cursor that lies inside a non-empty queue |
| ReviewScreen.ReviewQueue.Load | frontend/src/screens/review.tsx:17-26 | after the fetch the queue is the fetched cards; the cursor is 0 exactly when there are cards, and a card is shown exactly then |
| ReviewScreen.ReviewQueue.Press | frontend/src/screens/review.tsx:63-73 | while a card is shown, a press sends that card's id with the button's grade and advances only when the call succeeds; otherwise nothing is sent; the cursor never moves back |

## Left out

- Database plumbing is left out: opening SQLite, creating tables, `SaveFlashcard`, `GetAllFlashcards`, the `getCardByID` query and the `UPDATE`. The table is a map from id to row, and a failing database call is not modelled.
- `GetReviewCards` is left out. It selects due cards by comparing the stored date strings in SQL. It has no ordering, so there is no order to model beyond the order of the fetched list. Whether a card is due therefore depends on that comparison of text. The stored date is local RFC 3339 time, for example "2026-10-14T01:00:00+02:00", while SQLite's `CURRENT_TIMESTAMP` is UTC text, for example "2026-10-14 23:00:00". In a time zone east of UTC, a card created between local and UTC midnight is not due until UTC midnight.
- File and settings I/O is left out: `saveKanbanData`, reading and writing the board file, `LoadConfig`, `SaveConfig` and the data and config paths. The board and the durations are parameters.
- The clock and date formatting are replaced by integer day numbers: `time.Now`, `serializeDate`, RFC 3339 strings and calendar arithmetic in `AddDate`.
- Floating point is replaced by exact hundredths. `Easiness` is a float64 in `app.go`, so repeated additions of 0.1 or -0.14 can drift.
- Machine integer widths are not modelled. `Repetitions` is a `uint`, and the kanban counters are `uint64`; a `uint` is 32 or 64 bits wide depending on the platform, so `Repetitions` would wrap after 2^32 or 2^64 increments, and the counters after 2^64.
- Scheduler.Reviewed: the interval is an unbounded integer. In `app.go` it is `uint(math.Round(interval * easiness))` on a float, which grows geometrically. After a few dozen successful reviews the product leaves the range of `uint`, and that conversion does not wrap; its result is implementation-defined.
- `GetKanbanCards`, `GetKanbanColumns` and `GetKanbanColumnTitles` only return fields of the board, which `Kanban.Board.Data` exposes.
- A missing map in a board file (a Go nil map, which makes `SaveKanbanCard` panic) is not modelled. Every map is present.
- Timers are modelled as explicit `Second` events rather than as `setInterval` itself.
- `sendNotification`, the `hidden` flag and React's batching of state updates are left out. Each handler's updates are applied in the order the handler writes them. When a phase ends on a tick, the tick's own `return 0` is taken as overwritten by the new phase's full length.
- Concurrent button presses before a backend call returns are left out. A call's outcome is the `succeeded` parameter of `ReviewScreen.ReviewQueue.Press`.
- Rendering, styles and the remaining screens and components are left out. These are the kanban drag and drop, the settings, the add screen, the timer widget and the modals.
- The order of the home-screen keys (`Object.keys` of the flashcard map) is left out. `Home.Carousel.Load` takes the keys in whatever order it is given.
- Numbers in the numeric field are integers. Fractions, NaN, exponents and digit strings beyond 2^53 that `parseInt` would round are not modelled.
- Kanban.AddCardKeepsFresh: freshness is promised only for a column the board already knows. `SaveKanbanCard` creates an unknown column id as given, and that id may equal one the column counter hands out later.
- NumericInput.BlurBounds: the bounds hold only when min does not exceed max, and the upper bound needs non-empty text or a minimum, because `handleBlur` checks the minimum first and reports 0 for empty text.
- The pomodoro model assumes the six timer durations are numbers. In this version they are not supplied. The settings type holds only `zoom` (`frontend/src/contexts/SettingsContext.tsx:4-6`), and the backend's `AppSettings` holds only `UIZoom` (`app.go:21-23`). So `settings.timerWorkMinutes` and the other five reads (`PomodoroContext.tsx:34-39`) are `undefined`, and `getPhaseTotalTime` gives NaN. Then `prev <= 0` on a tick is never true and the display shows NaN. As shipped, a countdown never ends a phase. `Pomodoro.CountdownCompletes`, `Pomodoro.RunInvariants`, `Pomodoro.Progress` and the display lemmas describe the timer once integer durations are supplied.
- Kanban.Board.constructor: it starts the column counter at 4, the corrected value from the finding below. `startup` in `app.go` writes 1, which `Kanban.Board.AsWritten` and `Kanban.StartupAsWritten` model.
- Pomodoro.PhaseTotal: the contract states non-negativity only. What the total is is tied to the display by `Pomodoro.DisplayAtPhaseStart`.

## Findings

| source | as written | input that shows it | evidently intended | confidence | as-written member | corrected member |
|---|---|---|---|---|---|---|
| app.go:73-74 | a new board starts with column counter 1 while "col-1" to "col-3" already exist | on a new board, `SaveKanbanCard("task", "col-1")` then `SaveColumn("Backlog")`: the new column is "col-1", "To-Do" is renamed "Backlog" and the card is listed in no column | the column counter starts past the initial columns, at 4 | high (not executed) | Kanban.StartupAsWrittenOrphansCards | Kanban.StartupFresh |
