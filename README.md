# Day-N mini-apps: a verified model of their rules

The repository is a collection of small, independent "day N" web apps. Each one is a single script that the UI framework re-runs from top to bottom on every interaction. There is no shared engine. Each app mixes its widgets with a few small rules: date and streak arithmetic, time-of-day scheduling, ledgers and allowance splits, game state machines, score bands, CSV and JSON normalisation, and structured random picks.

This project models those rules, one Dafny module per app, and proves what each app promises.

- **Form of the model**
  - Pure helpers are functions, with lemmas about them.
  - What an app keeps in its session state or in its stored lists is a class. Its fields are that state, and each button handler is a method that states the new state in full.
  - Loops that update counters or build lists are methods with loop invariants. Each is tied to a specification function.
- **Inputs from outside**
  - The clock (`now`, `today`), random draws (`random.choice`, `shuffle`, `sample`) and fresh ids (`uuid`) are parameters. A random choice is an index into the list it picks from.
  - The loaders are modelled on the already-decoded JSON value.
- **Shared modules** hold the Python semantics the apps rely on:
  - `Calendar`: the proleptic Gregorian calendar as CPython computes it, including ordinals, weekdays, `relativedelta` month and year steps, and the ISO 8601 week date.
  - `DateText`: `isoformat`, `fromisoformat`, `strptime("%Y-%m-%d")` and the ISO week id text. Only ASCII digits and the text forms the apps write are read; "Left out" lists what else Python accepts.
  - `PyText`: `strip`, `split`, `join`, `int()`, zero padding, whitespace normalising, and CSV field quoting with its reading back. `lower` and `int()` are modelled for ASCII only; "Left out" lists what else Python accepts.
  - `PyList`: `index`, `remove`, comprehensions, slices and `random.shuffle`.
  - `PyNum`: `int()` on a real, which truncates.
  - `PyJson`: decoded JSON values and `dict.get`.
  - `Sorting`: Python's stable `sorted` with a key, and `reverse=True`.
  - `NoteText`: the shared memo line.

Python integers are unbounded, like Dafny's `int`, so no wrap-around arises. Floating-point values are modelled as exact reals (see "Left out").

## Model

| member | source | states |
|---|---|---|
| YesNoMaze.NodeAt | day5_yesno_maze/app.py:19-170 | a node is a question exactly when it has YES/NO successors; the other seven are results |
| YesNoMaze.NextIsLink | day5_yesno_maze/app.py:191-200 | the node after a YES or NO is that question's own "yes_next" or "no_next" |
| YesNoMaze.Height | day5_yesno_maze/app.py:19-170 | a node has height 0 exactly when it is a result |
| YesNoMaze.Next | day5_yesno_maze/app.py:191-200 | an answer never leads back to the start or to the same node, and always leads to a lower node |
| YesNoMaze.Walk | day5_yesno_maze/app.py:191-200 | a walk takes at most as many answers as the height it starts from (three from the start), less the height where it ends; an answer at a result gets nowhere |
| YesNoMaze.Closed | day5_yesno_maze/app.py:19-170 | every key the maze names exists, and exactly the six question nodes have successors |
| YesNoMaze.PathTo | day5_yesno_maze/app.py:19-170 | every result lies two or three answers from "start" |
| YesNoMaze.PathToReaches | day5_yesno_maze/app.py:19-170 | a result's own answer sequence leads from "start" to that result |
| YesNoMaze.AlwaysEnds | day5_yesno_maze/app.py:184-202 | any three answers reach a result after the second or the third |
| YesNoMaze.ReachedOnlyByPath | day5_yesno_maze/app.py:19-170 | a result is reached by one answer sequence and no other, in both directions |
| YesNoMaze.Maze.constructor | day5_yesno_maze/app.py:173-176 | the session starts at "start" with an empty history |
| YesNoMaze.Maze.Answer | day5_yesno_maze/app.py:191-200 | a button press appends (question text, "YES"/"NO") and moves to the chosen successor, keeping current equal to where the answers lead |
| YesNoMaze.Maze.Restart | day5_yesno_maze/app.py:203-225 | the restart button, shown only on a result page, returns to "start" and clears the history |
| YesNoMaze.WalkSnoc | day5_yesno_maze/app.py:191-200 | one more answer at a question extends the walk by one step |
| YesNoMaze.RecordedSnoc | day5_yesno_maze/app.py:191-200 | appending a row whose answer text matches the new answer keeps one history row per answer, each row's "YES"/"NO" matching its answer |
| YesNoMaze.HistoryBound | day5_yesno_maze/app.py:214-219 | the history never holds more than three answers, and after three the page shows a result; it follows from the walk's height bound |
| YesNoMaze.WalkPrefixSome | day5_yesno_maze/app.py:184-202 | a walk that arrives somewhere arrived somewhere after each prefix |
| YesNoMaze.WalkAfterResult | day5_yesno_maze/app.py:202-225 | once a result is reached no further answer can be given |
| Jikanwari.PriorityKey | day12_jikanwari/app.py:83-85 | 高 ranks 0 and 低 ranks 2, each exactly for that label; anything else ranks 1 |
| Jikanwari.ByPriority | day12_jikanwari/app.py:102 | the tasks are permuted into non-decreasing priority rank, and tasks of equal rank keep their entry order |
| Jikanwari.FillShape | day12_jikanwari/app.py:107-133 | every row runs its task's minutes inside the window, the first starts at the start time and each next one starts 5 minutes after the previous ends |
| Jikanwari.Fill | day12_jikanwari/app.py:107-133 | the loop looks at no more tasks than there are; FillAccounts states what becomes of each |
| Jikanwari.Breaks | day12_jikanwari/app.py:143 | with n rows the reported break is (n - 1) times 5 minutes |
| Jikanwari.FillFits | day12_jikanwari/app.py:110-133 | the scheduled minutes plus the breaks between rows fit in the window |
| Jikanwari.FillAccounts | day12_jikanwari/app.py:110-133 | the tasks the loop looked at are exactly the scheduled ones and the set-aside ones, in order; tasks after a break are in neither list |
| Jikanwari.FillStops | day12_jikanwari/app.py:130-132 | the loop stops early only when the last row's break reaches the end time |
| Jikanwari.OverflowDoesNotFit | day12_jikanwari/app.py:114-117 | no set-aside task would fit in the time the timetable leaves before the end |
| Jikanwari.CursorAdvances | day12_jikanwari/app.py:129-133 | the cursor never moves back |
| Jikanwari.Layout | day12_jikanwari/app.py:104-133 | the loop with its continue and break produces exactly the rows and set-aside tasks of the layout recursion |
| Jikanwari.MakeSchedule | day12_jikanwari/app.py:87-133 | no tasks and an end not after the start are refused, each exactly in its case; otherwise the available minutes are end minus start and the layout is over the priority-sorted tasks |
| Jikanwari.MadeFits | day12_jikanwari/app.py:135-143 | the reported working minutes, and the working minutes plus breaks, never exceed the available minutes |
| Jikanwari.TaskList.constructor | day12_jikanwari/app.py:8-9 | the session starts with no tasks |
| Jikanwari.TaskList.Add | day12_jikanwari/app.py:36-48 | a task is added exactly when the name is not blank, with its name stripped; otherwise the list is unchanged |
| Jikanwari.TaskList.Reset | day12_jikanwari/app.py:15-16 | the reset button empties the task list |
| StressChecker.Points | day16_stress_checker/app.py:46-51 | each answer is worth 0 to 3 points |
| StressChecker.CollectScores | day16_stress_checker/app.py:53-62 | the loop collects one score per answer, each the points of that answer, in order |
| StressChecker.SumBounds | day16_stress_checker/app.py:65 | a sum of scores each in 0..3 lies between 0 and three times their count |
| StressChecker.TotalInRange | day16_stress_checker/app.py:65-66 | the eight collected scores total between 0 and the maximum 24 |
| StressChecker.Level | day16_stress_checker/app.py:67 | the progress fill lies in 0..1, is empty exactly at total 0 and full exactly at the maximum |
| StressChecker.BandOf | day16_stress_checker/app.py:75-98 | totals up to 8 are low, 9 to 16 middling, above 16 high, each in both directions |
| StressChecker.BandMonotone | day16_stress_checker/app.py:75-98 | a higher total never gives a lower band |
| StressChecker.Advice | day16_stress_checker/app.py:78-98 | every band comes with exactly three pieces of advice |
| SimpleGame.Speed | day18_simple_game/app.py:62-64 | the speed is 6 px a frame below 500 points and one more for each further 500, never below 6 |
| SimpleGame.SpeedMonotone | day18_simple_game/app.py:62-64 | the obstacles never slow down as the score grows |
| SimpleGame.Fall | day18_simple_game/app.py:47-57 | gravity adds one to the velocity and moves the ball; leaving the screen at the top or bottom stops it at that edge with zero velocity, so it always lies in 20..250 |
| SimpleGame.FilterSpaced | day18_simple_game/app.py:80-83 | pruning obstacles keeps the remaining ones ordered and spaced |
| SimpleGame.AdvanceKeeps | day18_simple_game/app.py:66-83 | a frame's spawn, move and prune keep every obstacle on screen, oldest first and at least 150 px apart, with the spawn counter bounding the newest |
| SimpleGame.Advance | day18_simple_game/app.py:66-83 | after a frame every obstacle is on screen, there is at most one more than before, and each is an old one or the new spawn moved left by the speed |
| SimpleGame.SpreadOut | day18_simple_game/app.py:66-83 | in spaced obstacles the k-th lies at least k gaps right of the first |
| SimpleGame.FewObstacles | day18_simple_game/app.py:66-83 | spaced obstacles between the drop line and the spawn edge number at most six |
| SimpleGame.Game.constructor | day18_simple_game/app.py:10-21 | the game starts at height 200, at rest, with no obstacles, score 0, running, and the spawn counter at 100 |
| SimpleGame.Game.Jump | day18_simple_game/app.py:35-39 | the jump sets velocity -12 only while running and on the ground (y at least 248); nothing else changes |
| SimpleGame.Game.Step | day18_simple_game/app.py:46-94 | a frame of a running game applies the clamped fall, spawns when the counter has reached 25 and the random test passes, moves and prunes the obstacles at the score's speed, adds one point and ends the game exactly on a hit; a finished game does not change |
| SimpleGame.Game.Gravity | day18_simple_game/app.py:47-57 | the ball's height and velocity become the clamped fall and nothing else changes |
| SimpleGame.Game.MoveObstacles | day18_simple_game/app.py:76-78 | every obstacle moves left by the speed, in place |
| SimpleGame.Game.Collide | day18_simple_game/app.py:88-94 | the game ends exactly when some obstacle is strictly between x 50 and 70 while the ball is below 220 |
| SimpleGame.Game.Restart | day18_simple_game/app.py:138-149 | on the game-over screen, restart puts back every initial value |
| SimpleGame.Run | day18_simple_game/app.py:46-94 | however many frames run, the game stays valid and never holds more than six obstacles |
| NegaiApp.ShortWish | day26_negai_app/app.py:228-230 | the quoted wish is the stripped wish when it has at most 40 characters, otherwise its first 37 characters and "…", never over 40 |
| NegaiApp.FutureMessageShape | day26_negai_app/app.py:208-235 | the message is the picked line, a blank line and the theme's closing line, and the first template quotes the short wish |
| NegaiApp.CirclePercent | day26_negai_app/app.py:187-192 | the timer fill lies in 0..1, and while the remaining time is within the run it is the elapsed share of the total |
| NegaiApp.Session.constructor | day26_negai_app/app.py:84-93 | the session starts at step 1 with no wish, the first theme, no message and not finished |
| NegaiApp.Session.Reset | day26_negai_app/app.py:145-148 | the reset buttons return to step 1 with no message and not finished, keeping the wish and the theme |
| NegaiApp.Session.FinishRun | day26_negai_app/app.py:259-289 | a finished seventeen-second run on a step page, with a wish written, moves one step on and changes nothing else |
| NegaiApp.Session.ShowCompletion | day26_negai_app/app.py:295-305 | on the completion screen the message is generated from the wish and the theme only when not yet finished, and the screen shows the stored message |
| NegaiApp.CompletionOnce | day26_negai_app/app.py:295-300 | showing the completion screen twice keeps the message of the first showing |
| Suuhi.DigitSumAppend | day30_suuhi/app.py:12-13 | the digit sum of joined digit strings is the sum of their digit sums |
| Suuhi.DigitSumMod9 | day30_suuhi/app.py:13-15 | a digit string's value exceeds its digit sum by a multiple of 9, so each pass keeps the remainder modulo 9 |
| Suuhi.DigitSumZero | day30_suuhi/app.py:13 | the digit sum is zero exactly when the value is zero |
| Suuhi.DigitSumBelow | day30_suuhi/app.py:14-15 | the digit sum of str(n) never exceeds n and is smaller once n has two digits, so the loop ends |
| Suuhi.DateDigits | day30_suuhi/app.py:12 | the year, zero-padded month and zero-padded day form a string of digits |
| Suuhi.DigitalRoot | day30_suuhi/app.py:11-16 | the reference result: 0 only for 0, otherwise the one digit 1..9 congruent to the input modulo 9 |
| Suuhi.RootShift | day30_suuhi/app.py:13-15 | adding a multiple of 9 to a positive number keeps its digital root |
| Suuhi.PaddingIrrelevant | day30_suuhi/app.py:12-13 | zero-padding the month and day does not change the digit sum |
| Suuhi.DateDigitsPositive | day30_suuhi/app.py:12-13 | a real date's digits never sum to zero, the month being at least 1 |
| Suuhi.CalcNumber | day30_suuhi/app.py:11-16 | the loop returns a digit 1..9, the digital root of the date's digit sum: congruent to it modulo 9, and 9 when it is a multiple of 9 |
| Suuhi.SumStep | day30_suuhi/app.py:14-15 | one loop pass on a number above 9 gives a smaller positive number with the same digital root |
| Suuhi.MessagesCover | day30_suuhi/app.py:19-56 | every number 1..9 has a keyword and a message, so the lookup never fails |
| Suuhi.Fortune | day30_suuhi/app.py:62-68 | the button shows the date's number and the keyword and message stored for it |
| Souji.SectionKeys | day31_souji/app.py:107-110 | one "section::item" key per default task |
| Souji.CustomKeys | day31_souji/app.py:125-126 | one "custom::i::item" key per own task |
| Souji.AllKeys | day31_souji/app.py:107-135 | the page has one checkbox per default task and per own task |
| Souji.DefaultCount | day31_souji/app.py:16-41 | the default list holds sixteen tasks |
| Souji.Progress | day31_souji/app.py:142-145 | the progress is 0 without tasks and otherwise the ticked share, always within 0..1 |
| Souji.BucketOf | day31_souji/app.py:153-159 | at most 1 ticked is low, 2 to 4 middling, more high, each in both directions |
| Souji.Cheers | day31_souji/app.py:43-59 | each bucket holds three cheering lines |
| Souji.PickMessage | day31_souji/app.py:153-160 | the cheering line comes from the bucket of the ticked count |
| Souji.TickedStep | day31_souji/app.py:110-116 | storing one more checkbox value keeps the stored map equal to the earlier map with every visited key set to its box |
| Souji.Tick | day31_souji/app.py:107-135 | a pass sets every visited key to its box's value, keeps the other entries, counts every box and counts the ticked ones |
| Souji.Board.constructor | day31_souji/app.py:64-72 | the session starts with the default tasks, nothing ticked and no own tasks |
| Souji.Board.AddCustom | day31_souji/app.py:87-93 | the stripped text is appended exactly when it is not empty; nothing else changes |
| Souji.Board.ClearCustom | day31_souji/app.py:95-97 | the own tasks go and their ticks stay stored |
| Souji.Board.Pass | day31_souji/app.py:104-135 | the page's pass over the default sections and then the own tasks stores each box under its key and reports the totals |
| Souji.Board.ResetChecks | day31_souji/app.py:169-172 | every stored tick becomes false, no key is added or removed, and the tasks stay |
| Otoshidama.SafeInt | day33_otoshidama/app.py:41-45 | an integer is taken as it is, and a value int() cannot convert gives the default |
| Otoshidama.SumForAppend | day33_otoshidama/app.py:51-56 | a child's total grows by exactly the amount appended for that child, and other children's totals do not change |
| Otoshidama.SumForRemove | day33_otoshidama/app.py:51-56 | removing one record lowers its child's total by its amount and no other child's total |
| Otoshidama.SumForNonNegative | day33_otoshidama/app.py:51-56 | with only positive amounts a child's total is never negative |
| Otoshidama.TotalGivenAppend | day33_otoshidama/app.py:342 | the given total grows by the appended amount |
| Otoshidama.TotalGivenRemove | day33_otoshidama/app.py:342 | deleting a given row lowers the total by its amount |
| Otoshidama.GetRule | day33_otoshidama/app.py:59-69 | a child's stored rule is used; without one, 5000 yen fixed to spend and 50% saved |
| Otoshidama.Portion | day33_otoshidama/app.py:74-85 | a fixed part is at least 0; a percentage part is the total times a percentage clamped to 0..100, floored, and lies within 0..total |
| Otoshidama.PercentBound | day33_otoshidama/app.py:77-78 | a floored percentage of a non-negative total lies between 0 and the total |
| Otoshidama.CalcAllowances | day33_otoshidama/app.py:72-92 | saving is its rule's part untouched; spending is its rule's part when spending and saving fit in the total, and otherwise what saving leaves, never below 0 (so 0 when a fixed saving exceeds the total); the parent holds the rest, never below 0, and the three make up the total whenever saving fits |
| Otoshidama.DefaultSplit | day33_otoshidama/app.py:59-92 | under the default rule half is saved and 5000 yen, or what remains after saving, is free to spend, the parts adding up to the total |
| Otoshidama.Ledger.constructor | day33_otoshidama/app.py:14-21 | the initial data has one child "子どもA" and nothing recorded |
| Otoshidama.Ledger.Reset | day33_otoshidama/app.py:134-138 | resetting returns to the initial data |
| Otoshidama.Ledger.AddChild | day33_otoshidama/app.py:114-120 | the stripped name is appended only when non-blank and not yet listed; the records do not change |
| Otoshidama.Ledger.RemoveChild | day33_otoshidama/app.py:124-129 | a listed child other than the placeholder is removed once; the records and the rule stay |
| Otoshidama.Ledger.SaveRule | day33_otoshidama/app.py:204-214 | the child's rule is replaced and no other child's rule changes |
| Otoshidama.Ledger.AddReceived | day33_otoshidama/app.py:238-251 | a gift is recorded only with a non-blank giver and a positive amount, with the fields stripped; only that child's received total grows, by the amount |
| Otoshidama.Ledger.AddSpent | day33_otoshidama/app.py:259-272 | a purchase is recorded only with a non-blank use and a positive amount; only that child's spent total grows, by the amount |
| Otoshidama.Ledger.AddGiven | day33_otoshidama/app.py:357-370 | a gift handed out is recorded only with a non-blank recipient and a positive amount, and the given total grows by the amount |
| Otoshidama.Ledger.DeleteReceived | day33_otoshidama/app.py:309-314 | deleting a shown row removes the first equal record, exactly one copy, and lowers its child's total by its amount |
| Otoshidama.Ledger.DeleteSpent | day33_otoshidama/app.py:327-331 | deleting a shown purchase removes the first equal record, exactly one copy, and lowers its child's total by its amount |
| Otoshidama.Ledger.DeleteGiven | day33_otoshidama/app.py:387-391 | deleting a given row removes the first equal record, exactly one copy, and lowers the given total by its amount |
| Otoshidama.Ledger.ChildAllowances | day33_otoshidama/app.py:153-159 | the split shown is `calc_allowances` of the child's received total under the child's rule (the default rule when none is stored), so spending, saving and the parent's part are each those of CalcAllowances; the parts make up the total whenever the saving fits |
| StudyTimer.ShortMmss | day35_study_timer/app.py:67-70 | below 100 minutes the display is five characters, a colon in the middle, the two digits before it reading the whole minutes and the two after it the seconds left over |
| StudyTimer.FmtMmss | day35_study_timer/app.py:67-70 | the display has at least five characters; below 100 minutes it reads back as the minutes and the leftover seconds |
| StudyTimer.ParseMmss | day35_study_timer/app.py:67-70 | the reference reading of "mm:ss" succeeds only on five characters with a colon in the middle |
| StudyTimer.MmssRoundTrip | day35_study_timer/app.py:67-70 | below 100 minutes the display loses nothing: reading it back gives the seconds |
| StudyTimer.NeverZero | day35_study_timer/app.py:72-85 | while time remains the display is never "00:00" |
| StudyTimer.CountsDown | day35_study_timer/app.py:49-50 | k whole seconds after a start of d seconds the truncated remaining time is d - k |
| StudyTimer.Timer.constructor | day35_study_timer/app.py:10-17 | the timer starts stopped, with no deadline, duration 0 and no message |
| StudyTimer.Timer.Start | day35_study_timer/app.py:46-52 | while stopped, start sets the duration to the chosen minutes and the deadline that far ahead and clears the message; while running it changes nothing |
| StudyTimer.Timer.Stop | day35_study_timer/app.py:53-58 | while running, the interrupt clears the deadline and shows one of the closing messages; while stopped it changes nothing |
| StudyTimer.Timer.Tick | day35_study_timer/app.py:72-96 | while running, fewer than one whole second left stops the timer with a closing message; otherwise the truncated seconds left are shown as mm:ss and nothing changes; a stopped timer shows nothing |
| Schedule.ParseHhmm | day36_Schedule/app.py:46-55 | a parsed clock time is a minute of the day, 0..1439 |
| Schedule.ParseHhmmOneColon | day36_Schedule/app.py:49 | text without exactly one colon never parses, as the two-way unpacking of the split fails |
| Schedule.ParseHhmmFields | day36_Schedule/app.py:46-55 | two integer fields around one colon read as hours times 60 plus minutes exactly when the hour is 0..23 and the minute 0..59, and as nothing otherwise |
| Schedule.FmtHhmm | day36_Schedule/app.py:57-60 | the formatted time is two digits, a colon and two digits |
| Schedule.ParseFmtHhmm | day36_Schedule/app.py:46-60 | formatting any minute count and parsing it back gives that count modulo one day |
| Schedule.SortPlan | day36_Schedule/app.py:62-66 | the plan is permuted into non-decreasing start time, unreadable starts counting as 10**9, blocks with equal keys keeping their order |
| Schedule.UnparsableLast | day36_Schedule/app.py:62-66 | after sorting, a block without a readable start is followed only by such blocks |
| Schedule.Swap | day36_Schedule/app.py:175-182 | the arrow buttons exchange two rows and leave every other row in place |
| Schedule.Pop | day36_Schedule/app.py:184-188 | deleting a row removes exactly that row and keeps the others in order |
| Schedule.Slots | day36_Schedule/app.py:74-77 | each block is read as its parsed start and its minutes, in plan order |
| Schedule.LastTimed | day36_Schedule/app.py:71-81 | the previous index is the last block before the current one with a readable start, or none when there is no such block |
| Schedule.MaxEndMeaning | day36_Schedule/app.py:77-80 | the running end is the end of some earlier timed block and no earlier timed block ends later |
| Schedule.ConflictMeaning | day36_Schedule/app.py:68-82 | a block conflicts exactly when it is timed and starts before the end of some earlier timed block |
| Schedule.ConflictPairsMeaning | day36_Schedule/app.py:68-82 | each reported pair names a conflicting block and the timed block right before it, and every conflicting block is reported |
| Schedule.ConflictPairs | day36_Schedule/app.py:68-82 | at most one pair per block; each pair names an earlier block and a later conflicting block, both among those looked at |
| Schedule.DetectConflicts | day36_Schedule/app.py:68-82 | every reported pair (j, i) has j < i, block i starting before the latest end of the timed blocks above it, and j the last timed block before i; every such block i is reported; the loop's running end, which treats 0 like no end, gives these pairs in order |
| Schedule.SwapResorted | day36_Schedule/app.py:148-182 | on a plan in start order, the re-sort at the next update puts back two rows exchanged by ↑ or ↓ when their start times differ, and keeps the exchange when they are equal |
| Schedule.UntimedStep | day36_Schedule/app.py:74-76 | a block without a readable start changes neither the running end nor the pairs |
| Schedule.RunningEnd | day36_Schedule/app.py:77-81 | at a timed block the running end compares and updates like the true latest end |
| Schedule.HourOf | day36_Schedule/app.py:216 | a start time falls into the hour 0..23 that contains it |
| Schedule.InHour | day36_Schedule/app.py:211-217 | every block listed under an hour starts in that hour |
| Schedule.InHourComplete | day36_Schedule/app.py:211-217 | every timed block is listed under the hour of its start |
| Schedule.HourBlocks | day36_Schedule/app.py:211-217 | the timeline has 24 hours, each listing the plan's blocks starting in it, in plan order |
| Schedule.DefaultTitle | day36_Schedule/app.py:139 | a block's title is never empty: the stripped title, or "無題" when it is blank |
| Schedule.DefaultIndex | day36_Schedule/app.py:242-244 | the preselected block is always a valid index: the previous choice when valid, else clamped, and 0 without one |
| Schedule.Remaining | day36_Schedule/app.py:275 | the remaining seconds are the total minus the elapsed seconds, never below 0 and never above the total |
| Schedule.Planner.constructor | day36_Schedule/app.py:87-103 | the session starts with the stored plan and log, the timer idle and nothing selected |
| Schedule.Planner.Add | day36_Schedule/app.py:138-143 | adding appends a block with a non-empty title and stripped note and stores the plan in start-time order |
| Schedule.Planner.Arrange | day36_Schedule/app.py:148 | every screen update stores the plan in start-time order |
| Schedule.Planner.MoveUp | day36_Schedule/app.py:175-178 | "↑" swaps a row with the one above it, and nothing else changes |
| Schedule.Planner.MoveDown | day36_Schedule/app.py:179-182 | "↓" swaps a row with the one below it, and nothing else changes |
| Schedule.Planner.Delete | day36_Schedule/app.py:184-188 | the bin button removes that row, and nothing else changes |
| Schedule.Planner.ClearPlan | day36_Schedule/app.py:193-196 | the plan empties and the log stays |
| Schedule.Planner.ClearLog | day36_Schedule/app.py:198-201 | the log empties and the plan stays |
| Schedule.Planner.Select | day36_Schedule/app.py:241-252 | while idle the chosen block becomes the current one, always a valid index |
| Schedule.Planner.Tick | day36_Schedule/app.py:262-268 | a timer update adds the whole seconds since the previous update, none on the first, and remembers the time |
| Schedule.Planner.Start | day36_Schedule/app.py:287-301 | start runs the timer from zero and logs a start entry for the current block |
| Schedule.Planner.Pause | day36_Schedule/app.py:304-314 | pause stops the timer and logs the seconds run so far |
| Schedule.Planner.Complete | day36_Schedule/app.py:317-341 | done logs the block with the seconds run (0 when idle), stops the timer, moves to the next block when there is one and resets the run total |
| UnkiKakeibo.KindOf | day37_unki_kakeibo/app.py:115-140 | Monday and Thursday are the saving type, Tuesday and Sunday self-investment, Wednesday spend-OK, Friday capped spending, Saturday waste-warning, each in both directions |
| UnkiKakeibo.GroupOf | day37_unki_kakeibo/app.py:142-150 | months 1, 4, 9 start a new flow, 2, 6, 11 build up, 3, 7, 12 are busy and the rest steady, each in both directions |
| UnkiKakeibo.EventHint | day37_unki_kakeibo/app.py:152-159 | the event line is empty exactly outside December, January 1-10 and days from the 28th; December gives the year-end line, January 1-10 the new-year line, and from the 28th the month-end line follows any other after a space |
| UnkiKakeibo.UnkiFor | day37_unki_kakeibo/app.py:114-162 | a date's type depends only on its weekday |
| UnkiKakeibo.TypeByWeekday | day37_unki_kakeibo/app.py:114-140 | two dates on the same weekday have the same type, whatever their month and day |
| UnkiKakeibo.TypeWeekly | day37_unki_kakeibo/app.py:114-140 | any whole number of weeks later or earlier the type is the same again |
| UnkiKakeibo.LunaFor | day37_unki_kakeibo/app.py:164-179 | income gets the income line, and only income does |
| UnkiKakeibo.LunaForTypes | day37_unki_kakeibo/app.py:164-179 | for an expense each type gets its own line and never the plain one; Friday's type also contains "使ってOK" but the cap test comes first |
| UnkiKakeibo.LastIndexOf | day37_unki_kakeibo/app.py:221 | the index found holds the character and no later index does |
| UnkiKakeibo.Suffix | day37_unki_kakeibo/app.py:221 | a file suffix is empty or a dot followed by no further dot |
| UnkiKakeibo.ReceiptExt | day37_unki_kakeibo/app.py:221-223 | the saved extension is always an image one: the lowered suffix when it is one, else ".png" |
| UnkiKakeibo.Ledger.constructor | day37_unki_kakeibo/app.py:184-204 | the ledger holds the stored rows |
| UnkiKakeibo.Ledger.Save | day37_unki_kakeibo/app.py:271-292 | an amount of 0 or less is refused and nothing is stored; otherwise the row is appended with the ISO date, the stripped memo, the date's type and, for an expense with an image, the receipt path, and Luna's line for that type is shown |
| Hatsubaibi.ParseDate | day38_hatsubaibi/app.py:113-121 | a blank date is accepted as undecided; otherwise the stripped text is accepted exactly when it reads as a YYYY-MM-DD calendar date, and rejected text yields an empty value |
| Hatsubaibi.ParseDateIdempotent | day38_hatsubaibi/app.py:113-121 | an accepted date text is accepted again unchanged |
| Hatsubaibi.ParseDateIso | day38_hatsubaibi/app.py:113-121 | the ISO text of any date is accepted verbatim |
| Hatsubaibi.DaysUntil | day38_hatsubaibi/app.py:124-132 | no count exactly for an empty or unreadable date; otherwise today plus the count is the release date |
| Hatsubaibi.DaysUntilIso | day38_hatsubaibi/app.py:124-132 | for a date's ISO text the count is the calendar distance from today |
| Hatsubaibi.OrDefault | day38_hatsubaibi/app.py:221-229 | blank input (after stripping) gives the default; any other input gives its stripped text |
| Hatsubaibi.ImportRow | day38_hatsubaibi/app.py:207-233 | an empty row is skipped, a blank title is rejected, an unreadable date is rejected with its line, and exactly the rows with a title and a readable or empty date are accepted; an accepted item carries the stripped title, date, url, image url and memo, the stripped id or the fresh id when blank, the stripped category or "その他", the stripped status or "検討", and the stripped creation time, or now when the column is empty |
| Hatsubaibi.AcceptedWellFormed | day38_hatsubaibi/app.py:207-233 | an accepted item has a non-blank title, a category, a status and a readable or empty date |
| Hatsubaibi.ImportRows | day38_hatsubaibi/app.py:200-235 | items and errors together never outnumber the rows |
| Hatsubaibi.Outcomes | day38_hatsubaibi/app.py:207-233 | row k is judged at line first + k |
| Hatsubaibi.Collect | day38_hatsubaibi/app.py:207-233 | every collected item comes from an accepted row |
| Hatsubaibi.CollectSnoc | day38_hatsubaibi/app.py:207-233 | collecting one more row adds that row's item or error at the end |
| Hatsubaibi.ImportedWellFormed | day38_hatsubaibi/app.py:200-235 | every imported item is well formed |
| Hatsubaibi.ImportCsvRows | day38_hatsubaibi/app.py:200-235 | the loop numbers the rows from line 2 and returns exactly the items and errors of the row-by-row specification |
| Hatsubaibi.FilterItemsPasses | day38_hatsubaibi/app.py:350-361 | applying the active filters one after another keeps, in order, exactly the items that pass all of them |
| Hatsubaibi.FilterItemsExact | day38_hatsubaibi/app.py:350-361 | a passing item is kept as many times as it occurs and a failing one not at all |
| Hatsubaibi.FilterItems | day38_hatsubaibi/app.py:350-361 | the filtered list is no longer than the items and every kept item is an item passing every active filter |
| Hatsubaibi.SortItems | day38_hatsubaibi/app.py:363-371 | every mode returns a permutation of the list, ordered by days away (undated last) then title, by creation time newest first, or by lower-cased title |
| Hatsubaibi.UndatedLast | day38_hatsubaibi/app.py:365-368 | under the soonest order an undated item precedes a dated one only when that one is at least 999999 days away |
| Hatsubaibi.Fields | day38_hatsubaibi/app.py:181-197 | an exported record has the nine columns |
| Hatsubaibi.ExportLines | day38_hatsubaibi/app.py:462-477 | the export is the header followed by one quoted record per item, in list order |
| Hatsubaibi.ExportCsv | day38_hatsubaibi/app.py:462-477 | an empty list exports the header and a newline |
| Hatsubaibi.ExportRoundTrip | day38_hatsubaibi/app.py:462-477 | read by a one-record CSV reader, every exported record gives back exactly its item's nine fields, whatever commas, quotes or line breaks they hold |
| Hatsubaibi.Reid | day38_hatsubaibi/app.py:509-513 | an imported item whose id is already stored gets the fresh id and is otherwise unchanged; any other item is kept as is |
| Hatsubaibi.Ids | day38_hatsubaibi/app.py:509 | the id set holds exactly the ids of the stored items |
| Hatsubaibi.ReidAll | day38_hatsubaibi/app.py:509-513 | each imported item is re-ided against the ids stored before the import |
| Hatsubaibi.Catalog.constructor | day38_hatsubaibi/app.py:246-249 | the session list starts as the loaded items |
| Hatsubaibi.Catalog.Import | day38_hatsubaibi/app.py:495-516 | with any row error nothing is stored; otherwise every imported item is appended after the existing ones, re-ided on collision |
| Hatsubaibi.Catalog.Append | day38_hatsubaibi/app.py:509-513 | the list becomes the old list followed by the re-ided imported items |
| Kaukamo.DropCommas | day40_kaukamo/app.py:102 | removing commas never lengthens the text |
| Kaukamo.DropCommasDigits | day40_kaukamo/app.py:102 | digit text has no commas to remove |
| Kaukamo.ParsePrice | day40_kaukamo/app.py:98-105 | blank is accepted as no price; otherwise the text is accepted exactly when, without its commas, it is a non-empty run of digits, and then the price is that number; a refused price carries no value, and prices are never negative |
| Kaukamo.BlankStrip | day40_kaukamo/app.py:99-100 | text is blank exactly when stripping leaves nothing |
| Kaukamo.ParsePriceRejects | day40_kaukamo/app.py:98-105 | any character besides digits and commas (a sign, a decimal point) makes the price invalid |
| Kaukamo.DropCommasKeeps | day40_kaukamo/app.py:102 | every character other than a comma survives |
| Kaukamo.PriceRoundTrip | day40_kaukamo/app.py:115 | the exported price field, empty or decimal, parses back to the stored price |
| Kaukamo.DaysAged | day40_kaukamo/app.py:90-95 | an unreadable timestamp counts as added today; otherwise the creation date plus the age is today |
| Kaukamo.AddedTodayAgedZero | day40_kaukamo/app.py:90-95 | an item stamped today at any time has aged 0 days |
| Kaukamo.NewItem | day40_kaukamo/app.py:36-46 | a new item has the fresh id, the stripped name, url and memo, the given price and the creation time; a blank tag becomes "その他" and a blank status "迷い中", otherwise both are stripped |
| Kaukamo.LoadPrice | day40_kaukamo/app.py:60-67 | a missing, null or empty price is no price, a stored number is kept, and text is read as an integer or dropped |
| Kaukamo.LoadItem | day40_kaukamo/app.py:69-80 | a loaded item keeps its stored name, url and memo as text ("" when missing) and its stored price as read; an empty id, tag, status or creation time becomes the fresh id, "その他", "迷い中" or now, and a non-empty one is kept |
| Kaukamo.LoadAll | day40_kaukamo/app.py:56-81 | no more items than stored entries, each with a tag and a status |
| Kaukamo.LoadItems | day40_kaukamo/app.py:49-83 | anything but a stored list gives no items; a list gives the items of its dict entries in order |
| Kaukamo.Fields | day40_kaukamo/app.py:110-122 | a record has the eight columns, the price column being the price text |
| Kaukamo.ExportLines | day40_kaukamo/app.py:125-136 | the export is the header followed by one quoted record per item, in list order |
| Kaukamo.ToCsvText | day40_kaukamo/app.py:123-124 | an empty list exports the header and a newline |
| Kaukamo.ExportRoundTrip | day40_kaukamo/app.py:108-136 | read by a one-record CSV reader, every exported record gives back exactly its fields, and its price field the item's price |
| Kaukamo.ImportRow | day40_kaukamo/app.py:144-169 | an empty row is skipped, a blank name or a bad price is rejected with its line, and exactly the rows with a name and a valid price are accepted; an accepted item has that price, the stripped name, url and memo, and the stripped id, tag, status and creation time, each replaced by the fresh id, "その他", "迷い中" or now when blank |
| Kaukamo.ImportRows | day40_kaukamo/app.py:139-172 | items and errors never outnumber the rows, and every imported item has a name and a non-negative or absent price |
| Kaukamo.Outcomes | day40_kaukamo/app.py:144-169 | row k is judged at line first + k |
| Kaukamo.Collect | day40_kaukamo/app.py:144-169 | every collected item comes from an accepted row |
| Kaukamo.CollectSnoc | day40_kaukamo/app.py:144-169 | collecting one more row adds that row's item or error at the end |
| Kaukamo.ImportCsvRows | day40_kaukamo/app.py:139-172 | the loop numbers the rows from line 2 and returns exactly the items and errors of the row-by-row specification |
| Kaukamo.ApplyFiltersPasses | day40_kaukamo/app.py:238-247 | the filters applied in turn keep, in order, exactly the items passing every active filter, each as often as it occurs |
| Kaukamo.ApplyFilters | day40_kaukamo/app.py:238-247 | the filtered list is no longer than the items and every kept item is an item passing every active filter |
| Kaukamo.SortItems | day40_kaukamo/app.py:250-258 | every mode returns a permutation: longest aged first, newest first, dearest first (then name), or cheapest first (then name) |
| Kaukamo.DearestOrder | day40_kaukamo/app.py:256 | under "dearest" an item listed before one with a positive price has a price at least as high |
| Kaukamo.DearestZeroTiesNone | day40_kaukamo/app.py:256 | a price of 0 sorts like no price, because 0 is falsy |
| Kaukamo.DearKey | day40_kaukamo/app.py:256 | a positive price keys as its negation, no price or a price of 0 as 1, then the lower-cased name |
| Kaukamo.CheapKey | day40_kaukamo/app.py:258 | no price keys as 10**18 and a price as itself, then the lower-cased name |
| Kaukamo.CheapestNoneLast | day40_kaukamo/app.py:258 | under "cheapest" an unpriced item precedes a priced one only when that price is at least 10^18 |
| Kaukamo.Ids | day40_kaukamo/app.py:370 | the id set holds every stored item's id |
| Kaukamo.Reid | day40_kaukamo/app.py:371-373 | a colliding imported item gets the fresh id and is otherwise unchanged; others are kept |
| Kaukamo.ReidAll | day40_kaukamo/app.py:370-374 | each imported item is re-ided against the ids stored before the import |
| Kaukamo.Wishlist.constructor | day40_kaukamo/app.py:183-185 | the session list starts as the loaded items |
| Kaukamo.Wishlist.Add | day40_kaukamo/app.py:222-233 | an item is appended exactly when the name is not blank and the price parses, and then it is the new item with that price; otherwise nothing changes |
| Kaukamo.Wishlist.Import | day40_kaukamo/app.py:355-377 | with any row error nothing is stored; otherwise every imported item is appended after the existing ones, re-ided on collision |
| Kaukamo.Wishlist.Append | day40_kaukamo/app.py:370-374 | the list becomes the old list followed by the re-ided imported items |
| Yohaku.Clamp | day41_yohaku/app.py:69-70 | the result is never below the floor, lies in the range when the range is non-empty, equals the input inside it, and is the nearer bound outside it |
| Yohaku.YohakuMessage | day41_yohaku/app.py:73-86 | after clamping to 0..100 the score picks each badge exactly within its band: up to 10, up to 25, up to 45, up to 70, and above 70 |
| Yohaku.MessageMonotone | day41_yohaku/app.py:73-86 | a higher score never gets a fuller (lower-ranked) badge |
| Yohaku.PlusFive | day41_yohaku/app.py:158-161 | the boosted score stays in 0..100, is five more up to 95 and 100 from 95 on |
| Yohaku.Cutoff | day41_yohaku/app.py:181 | the cutoff lies show_days - 1 days before today |
| Yohaku.RecentLogs | day41_yohaku/app.py:182-189 | the loop keeps, in order, exactly the logs whose date reads and is not before the cutoff |
| Yohaku.ByDateCreated | day41_yohaku/app.py:196 | a permutation of the window sorted by date and then creation time |
| Yohaku.LastWithDate | day41_yohaku/app.py:196-197 | names the last position holding the date, and none exactly when the date is absent |
| Yohaku.Dates | day41_yohaku/app.py:195-199 | each date present occurs exactly once, and no other |
| Yohaku.LastWithDateStep | day41_yohaku/app.py:196-197 | one more log makes its date last seen at its position and adds the date to the key order only when new |
| Yohaku.Pick | day41_yohaku/app.py:199 | for each date the value is that date's last log |
| Yohaku.DailyOf | day41_yohaku/app.py:199 | one value per distinct date |
| Yohaku.ByDate | day41_yohaku/app.py:195-197 | after the dict loop the keys are the dates in first-seen order and each maps to its date's last log |
| Yohaku.LatestPerDay | day41_yohaku/app.py:195-199 | the values of the dict are exactly the per-date last logs in key order |
| Yohaku.DailyOnePerDate | day41_yohaku/app.py:195-200 | every date of the window has a daily value, and no date has two |
| Yohaku.DailyIsLatest | day41_yohaku/app.py:194-199 | a date's daily value was created no earlier than any other log of that date |
| Yohaku.RoundTenths | day41_yohaku/app.py:202 | the average in tenths is within half a tenth of the exact mean (the tie rule differs from the float `round`, see "Left out") |
| Yohaku.Best | day41_yohaku/app.py:203 | the first daily log with the highest score |
| Yohaku.Worst | day41_yohaku/app.py:204 | the first daily log with the lowest score |
| Yohaku.SumBetween | day41_yohaku/app.py:202 | a sum of n scores between lo and hi lies between n times lo and n times hi |
| Yohaku.Summary | day41_yohaku/app.py:191-204 | no stats exactly when no recent log has a readable date; otherwise the average is the rounded mean of the daily scores, and best and worst are the daily values found by the first-maximum and first-minimum scans, bounding every daily value |
| Yohaku.AverageBetween | day41_yohaku/app.py:202-204 | the rounded average lies between the worst and the best score |
| Yohaku.TenthsBetween | day41_yohaku/app.py:202 | a mean within bounds rounds to tenths within the same bounds |
| Yohaku.Display | day41_yohaku/app.py:218-231 | the first min(80, n) of the n recent logs with a readable date, newest first by date and creation time; each shown log is one of them, as often as it occurs, all of them when there are at most 80, and none left out is newer than a shown one |
| Yohaku.ExportLines | day41_yohaku/app.py:103-113 | the header followed by one quoted record per log, in order |
| Yohaku.ToCsvText | day41_yohaku/app.py:89-101 | an empty log list exports the header and a newline |
| Yohaku.ExportRoundTrip | day41_yohaku/app.py:89-113 | every exported record parses back to its fields, and its score field to its score |
| Yohaku.Journal.constructor | day41_yohaku/app.py:124-127 | the session list starts as the loaded logs |
| Yohaku.Journal.Save | day41_yohaku/app.py:168-171 | one log for today with the chosen score and the stripped note is appended |
| Shinaikoto.Clean | day42_shinaikoto/app.py:30 | the cleaned list has one entry per non-blank item, in order, each the stripped item |
| Shinaikoto.CleanAppend | day42_shinaikoto/app.py:30 | the comprehension keeps order: cleaning a concatenation concatenates the cleaned parts |
| Shinaikoto.CleanIdempotent | day42_shinaikoto/app.py:148-152 | cleaning the form's already cleaned items again (as the new log does) changes nothing |
| Shinaikoto.CleanCount | day42_shinaikoto/app.py:142-148 | as many items survive cleaning as the form counts as filled in |
| Shinaikoto.CleanEmpty | day42_shinaikoto/app.py:148-150 | nothing survives exactly when every item is blank |
| Shinaikoto.ThreeFields | day42_shinaikoto/app.py:142-152 | for the form's three fields, nothing survives cleaning exactly when all three are blank, and the saved log holds exactly the cleaned fields |
| Shinaikoto.NewLog | day42_shinaikoto/app.py:28-38 | the log keeps the first three cleaned items, in order and non-blank, with the stripped note, the date, a fresh id and the time |
| Shinaikoto.Strs | day42_shinaikoto/app.py:59 | each stored item is read as its text, in order |
| Shinaikoto.LoadItems | day42_shinaikoto/app.py:52-59 | a non-list reads as no items; a list keeps its first three entries as text |
| Shinaikoto.LoadLog | day42_shinaikoto/app.py:52-62 | at most three items, none when the key is missing; the note, and a non-empty id, date or time, kept as their stored text; an empty id, date or time replaced by a fresh id, today or now |
| Shinaikoto.LoadAll | day42_shinaikoto/app.py:48-64 | no more logs than stored entries, each with at most three items |
| Shinaikoto.LoadLogs | day42_shinaikoto/app.py:41-66 | anything but a stored list gives no logs; a list gives the logs of its dict entries, each with at most three items |
| Shinaikoto.ExportLines | day42_shinaikoto/app.py:76-89 | the header followed by one quoted record per log, in order |
| Shinaikoto.ToCsvText | day42_shinaikoto/app.py:73-90 | the export always ends with a newline, and an empty list exports the header and a newline |
| Shinaikoto.ExportRoundTrip | day42_shinaikoto/app.py:73-90 | every exported record parses back to exactly its seven fields |
| Shinaikoto.FieldsSlots | day42_shinaikoto/app.py:78-82 | a record has seven fields, and the three item columns hold the stored items padded with "" |
| Shinaikoto.LineRoundTrip | day42_shinaikoto/app.py:82-89 | one quoted record parses back to its fields |
| Shinaikoto.YohakuMessage | day42_shinaikoto/app.py:93-101 | each level is chosen exactly for its count: none, one, two, three or more |
| Shinaikoto.MessageMatchesSave | day42_shinaikoto/app.py:141-150 | the "not decided" message shows exactly when saving would be refused |
| Shinaikoto.Newest | day42_shinaikoto/app.py:115 | a permutation of the logs, newest first by date and then creation time |
| Shinaikoto.TodaysLatest | day42_shinaikoto/app.py:159-163 | the shown declaration is one of today's logs |
| Shinaikoto.TodaysLatestIsLatest | day42_shinaikoto/app.py:159-163 | whenever a log was made today one is shown, and it was saved no earlier than any other of today |
| Shinaikoto.TodaysLatestNone | day42_shinaikoto/app.py:159-160 | nothing is shown when no log was made today |
| Shinaikoto.WithoutId | day42_shinaikoto/app.py:199 | no survivor has the deleted id, and every survivor was a stored log |
| Shinaikoto.DeleteKeepsOthers | day42_shinaikoto/app.py:198-200 | deleting by id drops every log with that id, keeps every other log as often as it occurred, and keeps the survivors in order |
| Shinaikoto.Declarations.constructor | day42_shinaikoto/app.py:111-114 | the session list starts as the loaded logs |
| Shinaikoto.Declarations.Save | day42_shinaikoto/app.py:147-155 | saving is refused exactly when all three fields are blank; otherwise one log of today with the cleaned items is appended |
| Shinaikoto.Declarations.Delete | day42_shinaikoto/app.py:198-200 | the list becomes the logs without that id |
| Shinaikoto.Declarations.DeleteAll | day42_shinaikoto/app.py:220-222 | the list becomes empty |
| SelfPass.ResultMessage | day43_self_pass/app.py:69-74 | the message is one of the three texts; the first exactly for 合格, the second exactly for まあまあ, and the third for anything else |
| SelfPass.MessageNamesChoice | day43_self_pass/app.py:69-74 | distinct choices get distinct messages, so a saved message tells the choice |
| SelfPass.NewLog | day43_self_pass/app.py:28-36 | the new log carries the date, the choice, that choice's message, the id and the time |
| SelfPass.LoadLog | day43_self_pass/app.py:48-55 | a missing id gets a fresh id, a missing date today's date, and other missing fields ""; stored texts are kept |
| SelfPass.LoadLogs | day43_self_pass/app.py:39-59 | a non-list, or a list with any entry that is not an object, gives no logs; otherwise one log per entry, in order |
| SelfPass.Recent | day43_self_pass/app.py:88-114 | the first fourteen (or all) logs newest first by date and time; a sub-multiset of the stored logs, and no log left out is newer than a shown one |
| SelfPass.RecentByDate | day43_self_pass/app.py:88-114 | among the shown logs a later date never follows an earlier one |
| SelfPass.Journal.constructor | day43_self_pass/app.py:84-87 | the session list starts as the loaded logs |
| SelfPass.Journal.Save | day43_self_pass/app.py:100-105 | the message of the choice is returned and one log for today is appended, whose date reads back as today |
| SelfPass.Journal.ClearAll | day43_self_pass/app.py:120-123 | the list becomes empty |
| RewardGacha.Lookup | day44_reward_gacha/app.py:51-53 | nothing is found exactly when no entry has the key, and a found reward is stored under the key |
| RewardGacha.LookupUnique | day44_reward_gacha/app.py:51-53 | in a log with distinct keys the reward found is the one stored under the key |
| RewardGacha.DrawFor | day44_reward_gacha/app.py:57-58 | the drawn reward is one of the seven rewards |
| RewardGacha.Gacha.constructor | day44_reward_gacha/app.py:49 | the log starts as loaded |
| RewardGacha.Gacha.Visit | day44_reward_gacha/app.py:48-62 | a logged day shows its reward and changes nothing; otherwise a press draws, shows and records today's reward and nothing else; without a press nothing happens; keys stay distinct |
| RewardGacha.Gacha.ClearAll | day44_reward_gacha/app.py:75-77 | the log becomes empty |
| RewardGacha.VisitTwice | day44_reward_gacha/app.py:48-62 | two visits the same day show the same reward, and the log changes at most once |
| RewardGacha.LookupAppend | day44_reward_gacha/app.py:59 | a reward recorded for a new day is found under that day |
| RewardGacha.History | day44_reward_gacha/app.py:70 | at most fourteen stored days, strictly newest first, a sub-multiset of the log, and no day left out is newer than a shown one |
| RewardGacha.NewestFirstStrict | day44_reward_gacha/app.py:70 | a newest-first log with one entry per day lists each day strictly after every later-listed day |
| RewardGacha.OnceEach | day44_reward_gacha/app.py:70 | in a log keyed by distinct dates every entry occurs once |
| RewardGacha.DistinctKeysPerm | day44_reward_gacha/app.py:70 | reordering a log keyed by distinct dates keeps the dates distinct |
| ThanksYear.Cleaned | day46_thanks_2025/app.py:32 | the kept thanks are exactly the non-blank entries, stripped, in order |
| ThanksYear.CleanedEmpty | day46_thanks_2025/app.py:110-111 | nothing survives exactly when every entry is blank |
| ThanksYear.NewLog | day46_thanks_2025/app.py:30-40 | the log keeps the first cleaned thanks, at most three and all of them when there are no more, each stripped and non-blank, with the stripped note, the year, the id and the time |
| ThanksYear.ForYear | day46_thanks_2025/app.py:84 | each log of the year is kept as often as it is stored and no log of another year is kept; none exactly when no log has that year |
| ThanksYear.ForYearAppend | day46_thanks_2025/app.py:84 | selecting a year from two runs of logs selects from each run, keeping their order |
| ThanksYear.OnePerYearAppend | day46_thanks_2025/app.py:84-118 | adding a log for a year without one keeps one log per year |
| ThanksYear.PastYears | day46_thanks_2025/app.py:126 | a permutation of the logs, newest year first, logs of the same year in stored order |
| ThanksYear.ThreeBlank | day46_thanks_2025/app.py:109-112 | the three fields leave nothing exactly when all three are blank |
| ThanksYear.Journal.constructor | day46_thanks_2025/app.py:80-83 | the session list starts as the loaded logs |
| ThanksYear.Journal.Received | day46_thanks_2025/app.py:84-95 | a received year shows the first stored log of that year: every earlier log is of another year; the form shows exactly when there is none |
| ThanksYear.Journal.Submit | day46_thanks_2025/app.py:96-118 | a log is appended exactly when the form was offered and some field is filled in; after that the form is no longer offered, and one log per year is kept |
| ThanksYear.Journal.ClearAll | day46_thanks_2025/app.py:134-137 | the list becomes empty |
| RemainingTime.TruncMicros | day47_remaining_time/app.py:19 | whole seconds truncated toward zero, for positive and negative durations alike |
| RemainingTime.TotalSeconds | day47_remaining_time/app.py:15-22 | the remaining whole seconds are never negative |
| RemainingTime.TotalSecondsExact | day47_remaining_time/app.py:15-24 | for a real clock reading the total is the whole seconds from the current second to 23:59:59 on December 31, one less when part of the current second has passed, and the day count stays below the year's length |
| RemainingTime.Split | day47_remaining_time/app.py:24-27 | days, hours, minutes and seconds add back up to the total, with hours below 24 and minutes and seconds below 60 |
| RemainingTime.SplitParts | day47_remaining_time/app.py:25-27 | the hours and the rest of the day, and the minutes and the rest of the hour, recompose the remainders |
| RemainingTime.HoursOfDay | day47_remaining_time/app.py:25-26 | the seconds past the hour are the same within the day as in the whole count |
| RemainingTime.MinutesOfHour | day47_remaining_time/app.py:26-27 | the seconds past the minute are the same within the hour as in the whole count |
| RemainingTime.MessageFor | day47_remaining_time/app.py:47-56 | each message is chosen exactly in its band: at least 300 days, 100 to 299, 30 to 99, 1 to 29, or less |
| RemainingTime.MessageMonotone | day47_remaining_time/app.py:47-56 | more days left never gives a message meant for later in the year |
| ContinuityViewer.TotalDaysCount | day48_continuity_viewer/app.py:63 | the start date is day 1 and each following date adds one |
| ContinuityViewer.TotalDaysIsDayNumber | day48_continuity_viewer/app.py:63 | today is the date total_days - 1 days after the start |
| ContinuityViewer.Rate | day48_continuity_viewer/app.py:67 | with elapsed days the rate times the elapsed days is 100 times the made days; otherwise it is 0 |
| ContinuityViewer.RateBounds | day48_continuity_viewer/app.py:63-67 | with no more made days than elapsed ones the rate lies in 0..100, and is 100 exactly when no day stopped |
| ContinuityViewer.StatsFor | day48_continuity_viewer/app.py:62-67 | the figures are the elapsed days, the recorded days, their difference and the rate |
| ContinuityViewer.MessageFor | day48_continuity_viewer/app.py:81-88 | each message is chosen exactly in its band: a rate of at least 80, 50 to 80, 30 to 50, or below 30 |
| ContinuityViewer.MessageMonotone | day48_continuity_viewer/app.py:81-88 | a higher rate never gives a lower message |
| ContinuityViewer.DaysLog.constructor | day48_continuity_viewer/app.py:45 | the list starts as loaded |
| ContinuityViewer.DaysLog.RecordToday | day48_continuity_viewer/app.py:48-55 | today's ISO date is appended exactly when it is not yet listed, and a list without repeats stays without repeats |
| ContinuityViewer.DaysLog.ClearAll | day48_continuity_viewer/app.py:98-100 | the list becomes empty |
| ContinuityViewer.RecordTwice | day48_continuity_viewer/app.py:48-55 | recording twice on one day leaves what recording once leaves |
| HabitTracker.DateRange | day49_habit_tracker_pro/app.py:110-113 | max(1, days) dates, the i-th lying len - 1 - i days before the end |
| HabitTracker.DateRangeShape | day49_habit_tracker_pro/app.py:110-113 | the dates are consecutive, ascending, and end with the end date |
| HabitTracker.NextByOrdinal | day49_habit_tracker_pro/app.py:110-113 | the valid date one ordinal after a date is the day after it |
| HabitTracker.FirstDayOrdinal | day49_habit_tracker_pro/app.py:125 | stepping back one day from any date after 0001-01-01 stays in the calendar |
| HabitTracker.CalcStreak | day49_habit_tracker_pro/app.py:116-128 | the loop returns the number of consecutive done days ending at up_to |
| HabitTracker.StreakMeaning | day49_habit_tracker_pro/app.py:116-128 | the streak is k exactly when the k days ending at up_to are done and the day before them is not (or lies before 0001-01-01) |
| HabitTracker.Streak | day49_habit_tracker_pro/app.py:116-128 | the streak is 0 exactly when the day itself is not done, and never exceeds the days since 0001-01-01 |
| HabitTracker.StreakZero | day49_habit_tracker_pro/app.py:120-127 | the streak is 0 exactly when up_to itself is not done |
| HabitTracker.DoneFlags | day49_habit_tracker_pro/app.py:135-136 | one flag per date, true exactly when that date's status is done |
| HabitTracker.TrailingRun | day49_habit_tracker_pro/app.py:133-140 | the done days at the end of the window, preceded by a day that is not done |
| HabitTracker.CalcMaxStreak | day49_habit_tracker_pro/app.py:131-141 | the loop returns the longest run of done days in the window |
| HabitTracker.RunStep | day49_habit_tracker_pro/app.py:136-140 | one more day extends the current run when done and resets it otherwise, and the longest run becomes the larger of the two |
| HabitTracker.RunStepFrom | day49_habit_tracker_pro/app.py:136-140 | from the loop's `current` and `max_streak`, a done day gives current + 1 and raises the maximum when current + 1 exceeds it; a missed day resets current to 0 and keeps the maximum |
| HabitTracker.LongestRunMeaning | day49_habit_tracker_pro/app.py:131-141 | the longest streak is at most the window length, some stretch of that length is all done, and no all-done stretch is longer |
| HabitTracker.LongestRun | day49_habit_tracker_pro/app.py:131-141 | the longest run is at least the final run of done days and at most the number of days |
| HabitTracker.RunBoundedByTrailing | day49_habit_tracker_pro/app.py:133-140 | an all-done stretch reaching the end is no longer than the current run |
| HabitTracker.LongestRunZero | day49_habit_tracker_pro/app.py:131-141 | the longest streak is 0 exactly when no day of the window is done |
| HabitTracker.LongestRunCovers | day49_habit_tracker_pro/app.py:131-141 | every stretch of done days in the window is at most the longest streak |
| HabitTracker.LongestRunHasDone | day49_habit_tracker_pro/app.py:131-141 | a positive longest streak contains a done day |
| HabitTracker.CountDone | day49_habit_tracker_pro/app.py:145-149 | no more done days than days |
| HabitTracker.DoneFlagAt | day49_habit_tracker_pro/app.py:145-149 | a day's flag is the loop's test that the day's log marks the habit "done" |
| HabitTracker.CountDoneStep | day49_habit_tracker_pro/app.py:145-149 | one more day adds one to the count exactly when it is done |
| HabitTracker.Percent | day49_habit_tracker_pro/app.py:150 | the rate lies in 0..100, is 100 when every day is done and 0 when none is |
| HabitTracker.CalcRate | day49_habit_tracker_pro/app.py:144-150 | the loop returns the share of done days in the window as a percentage, 0.0 for an empty window |
| HabitTracker.PercentBounds | day49_habit_tracker_pro/app.py:150 | part over total times 100 lies in 0..100 and is 100 for the whole |
| HabitTracker.MaxStreakCoversStreak | day49_habit_tracker_pro/app.py:227-229 | over the window ending today the longest streak is at least the current streak, capped at the window length |
| HabitTracker.Upsert | day49_habit_tracker_pro/app.py:209-217 | the habit's status on that day becomes the new one, every other day and habit is unchanged, and the day is added to the keys |
| HabitTracker.RemoveHabit | day49_habit_tracker_pro/app.py:264 | exactly the habits with another id are kept, each as often as it occurs, in their order |
| HabitTracker.RemoveHabitAppend | day49_habit_tracker_pro/app.py:264 | removing a habit from two runs of habits removes it from each run, keeping their order |
| HabitTracker.LoadLogs | day49_habit_tracker_pro/app.py:86-99 | a non-object gives no logs; otherwise exactly the dates whose value is an object are kept, each with the same habit ids and their statuses as text |
| HabitTracker.Tracker.constructor | day49_habit_tracker_pro/app.py:160-166 | the session starts with the loaded habits and logs |
| HabitTracker.Tracker.Record | day49_habit_tracker_pro/app.py:208-219 | today's status of the habit is overwritten and the habits are unchanged |
| HabitTracker.Tracker.AddHabit | day49_habit_tracker_pro/app.py:176-183 | a habit with the stripped name is appended exactly when the name is not blank; the logs are unchanged |
| HabitTracker.Tracker.DeleteHabit | day49_habit_tracker_pro/app.py:262-265 | the habit is dropped and its log entries stay |
| HabitTracker.Tracker.ClearLogs | day49_habit_tracker_pro/app.py:271-273 | the logs become empty and the habits stay |
| MilestoneRecord.ElapsedDays | day50_milestone_record/app.py:17-22 | the day count is the calendar distance from the start date, counted from 1 |
| MilestoneRecord.ElapsedDaysStep | day50_milestone_record/app.py:22 | the start date is day 1 and the next date is one more |
| MilestoneRecord.MadeDays | day50_milestone_record/app.py:24 | the made days are the elapsed days, capped at 50 |
| MilestoneRecord.BuildRecord | day50_milestone_record/app.py:28-37 | the record holds day 50, today's ISO date, the time, the elapsed and made days, and 50 minus the made days as stopped days, never negative |
| MilestoneRecord.RecordFigures | day50_milestone_record/app.py:24-34 | made and stopped days add up to 50, the clamp at zero never applies, nothing is stopped exactly from day 50 on, and before that the stopped days are 50 minus the elapsed days |
| MilestoneRecord.Milestone.constructor | day50_milestone_record/app.py:62 | the stored record is as found on disk |
| MilestoneRecord.Milestone.Write | day50_milestone_record/app.py:62-73 | today's record is written exactly when none exists; an existing record is kept |
| MilestoneRecord.WriteOnce | day50_milestone_record/app.py:62-73 | a second write, on whatever day, keeps the first record |
| Want100.LoadItem | day51_want100/app.py:46-52 | the loaded item keeps every stored field as it was and adds each missing one of the six with its default |
| Want100.LoadAll | day51_want100/app.py:42-53 | no more items than stored entries, each with all six fields |
| Want100.LoadItems | day51_want100/app.py:37-54 | the "items" entry, when a list, gives its dict entries normalised in order; anything else gives no items |
| Want100.Header | day51_want100/app.py:82-89 | the achieved count is the number of done items and the not-achieved count the number of the others, adding up to the item count; the remaining slots are 100 minus the count, never below 0 |
| Want100.CelebrateMessage | day51_want100/app.py:61-70 | each celebration is chosen exactly for its count: 1, 10, 50, or 100 and more |
| Want100.TabOf | day51_want100/app.py:128-130 | an item's tab is always a category: its own when that is a known category, "その他" otherwise |
| Want100.Tabs | day51_want100/app.py:126 | there is one tab per category |
| Want100.TabsStep | day51_want100/app.py:127-131 | one more item lands at the end of its own tab and nowhere else |
| Want100.BuildTabs | day51_want100/app.py:126-131 | the loop gives every tab the items whose tab it is, in order |
| Want100.OneTabEach | day51_want100/app.py:126-131 | each item is listed under exactly one tab |
| Want100.Wants.constructor | day51_want100/app.py:80 | the list starts as loaded |
| Want100.Wants.Add | day51_want100/app.py:101-119 | a blank text is refused, then a full list; otherwise a fresh undone item with the stripped text is appended, so the list never grows past 100 |
| Want100.Wants.Toggle | day51_want100/app.py:156-166 | only a box that differs from the item changes it: done takes the box's value and done_at the time or None, the done count moves by one, and ticking shows the celebration for the new count |
| Want100.Wants.ClearAll | day51_want100/app.py:183-184 | the list becomes empty |
| TodayOne.LoadItem | day52_today_one/app.py:58-64 | the loaded item keeps every stored field as it was and adds each missing one of the six with its default |
| TodayOne.LoadAll | day52_today_one/app.py:54-65 | no more items than stored entries, each with all six fields |
| TodayOne.LoadItems | day52_today_one/app.py:49-66 | the "items" entry, when a list, gives its dict entries normalised in order; anything else gives no items |
| TodayOne.Counts | day52_today_one/app.py:111-112 | the done count is the number of done items and the todo count the number of todo items, and done plus not-done is the item count |
| TodayOne.BlankUndoneUncounted | day52_today_one/app.py:111-112 | an undone item with a blank text is in neither count, so the two fall short of the total |
| TodayOne.PickOne | day52_today_one/app.py:85-91 | nothing is drawn exactly when the pool is empty; a drawn item is a stored, undone item with a non-blank text in the chosen category |
| TodayOne.EveryPoolItemDrawable | day52_today_one/app.py:85-91 | every item of the pool can be drawn |
| TodayOne.ModSmall | day52_today_one/app.py:91 | a draw below the pool size picks that position |
| TodayOne.FindById | day52_today_one/app.py:94-98 | the loop finds the first item with that id, or reports that none has it |
| TodayOne.CelebrateMessage | day52_today_one/app.py:73-82 | each celebration is chosen exactly for its count: 1, 10, 50, or 100 and more |
| TodayOne.Picker.constructor | day52_today_one/app.py:131-138 | the page starts with the loaded items and no pick |
| TodayOne.Picker.Draw | day52_today_one/app.py:134-136 | the items are unchanged and the pick becomes the drawn item's id, or None for an empty pool |
| TodayOne.Picker.Shown | day52_today_one/app.py:138 | an item is shown only for a truthy pick, and it is an item with that id |
| TodayOne.Picker.MarkDone | day52_today_one/app.py:165-179 | the first item with the shown item's id is stamped done at the time, nothing else changes, the celebration uses the new done count, and the pick is cleared |
| TodayOne.MarkDoneCount | day52_today_one/app.py:169-173 | marking an undone item done raises the done count by exactly one |
| TodayOne.BlankIdNeverShown | day52_today_one/app.py:136-138 | an item stored without an id can be drawn but is never shown, because its id "" is falsy |
| MorningSwitch.Ordinals | day53_morning_switch/app.py:53-54 | one day number per log, in log order |
| MorningSwitch.Days | day53_morning_switch/app.py:50 | the distinct logged days in increasing order, exactly the days some log has, and none exactly when there are no logs |
| MorningSwitch.Run | day53_morning_switch/app.py:51-58 | the run is at least 1 for any logged day and never longer than the day list |
| MorningSwitch.RunMeaning | day53_morning_switch/app.py:51-58 | the run ending at the latest day is made of consecutive days, and the day before it is not adjacent |
| MorningSwitch.RunStep | day53_morning_switch/app.py:55-56 | a day adjacent to the run's end extends it by one |
| MorningSwitch.CalcStreak | day53_morning_switch/app.py:45-59 | no logs give 0; otherwise the backward loop returns the run of consecutive days ending at the latest logged day |
| MorningSwitch.SameDateCountsOnce | day53_morning_switch/app.py:50 | a second log on a logged date leaves the distinct days, and so the streak, unchanged |
| MorningSwitch.InsertPresent | day53_morning_switch/app.py:50 | adding a day already present to the sorted set changes nothing |
| MorningSwitch.Switch.constructor | day53_morning_switch/app.py:83-86 | the page starts with the loaded logs and a stopped timer |
| MorningSwitch.Switch.Record | day53_morning_switch/app.py:121-133 | every press appends one entry with today's date and the stripped memo, whatever is already logged today, and the timer is untouched |
| MorningSwitch.Switch.StartTimer | day53_morning_switch/app.py:88-90 | the timer runs and ends the chosen minutes from now; the logs are untouched |
| MorningSwitch.Switch.StopTimer | day53_morning_switch/app.py:92-94 | the timer stops and forgets its end; the logs are untouched |
| MorningSwitch.Switch.Refresh | day53_morning_switch/app.py:98-113 | the whole seconds left truncated toward zero; at zero or below, which is exactly when less than a second remains, the timer stops |
| Hitokotoyogen.DrawOne | day54_hitokotoyogen/app.py:135-145 | the draw's theme and message come from their lists, its date is today's YYYY-MM-DD text, which reads back as today, and it carries the time |
| Hitokotoyogen.SweetPrefix | day54_hitokotoyogen/app.py:169 | the sweet prefix is the prefix with each full stop, question mark and exclamation mark softened to "…♡" and every other character kept in place |
| Hitokotoyogen.SweetSuffix | day54_hitokotoyogen/app.py:170 | the sweet suffix is the suffix with each question mark and full stop softened to "…♡" and every other character kept in place |
| Hitokotoyogen.Soften | day54_hitokotoyogen/app.py:169-170 | softening never shortens the text |
| Hitokotoyogen.SoftenAppend | day54_hitokotoyogen/app.py:169-170 | softening works character by character: it distributes over concatenation |
| Hitokotoyogen.SweetPrefixSoftens | day54_hitokotoyogen/app.py:169 | the three chained replacements of the prefix soften exactly its full stops, question marks and exclamation marks |
| Hitokotoyogen.SweetSuffixSoftens | day54_hitokotoyogen/app.py:170 | the two chained replacements of the suffix soften exactly its question marks and full stops |
| Hitokotoyogen.VoiceText | day54_hitokotoyogen/app.py:162-175 | in the sweet tone the voice is the softened prefix, the message with a heart and the softened suffix, laid out with blank lines; it is never shorter than its parts and four line breaks |
| Hitokotoyogen.VoiceJoin | day54_hitokotoyogen/app.py:175 | the voice is the prefix, a blank line, the message, a blank line and the suffix joined by line breaks |
| Hitokotoyogen.VoiceLines | day54_hitokotoyogen/app.py:163-175 | with single-line parts the voice splits into five lines: the (softened) prefix, a blank line, the message with a heart in the sweet tone, a blank line and the (softened) suffix |
| Hitokotoyogen.Listed | day54_hitokotoyogen/app.py:217 | the history shown is its first fifty entries, all of it when there are no more |
| Hitokotoyogen.Oracle.constructor | day54_hitokotoyogen/app.py:109-114 | the page starts with no draw, nothing played and the loaded history |
| Hitokotoyogen.Oracle.DrawToday | day54_hitokotoyogen/app.py:135-146 | the current draw becomes the new one, not yet played; the history is untouched |
| Hitokotoyogen.Oracle.Reset | day54_hitokotoyogen/app.py:149-151 | the draw is cleared and nothing is played |
| Hitokotoyogen.Oracle.Show | day54_hitokotoyogen/app.py:177-184 | the voice is typed out exactly the first time, and is marked played |
| Hitokotoyogen.Oracle.Save | day54_hitokotoyogen/app.py:192-201 | the draw goes to the front exactly when no saved draw has the same date and message, so the history never holds such a repeat |
| Hitokotoyogen.Oracle.ClearHistory | day54_hitokotoyogen/app.py:205-207 | the history becomes empty; the draw stays |
| Hitokotoyogen.SaveTwice | day54_hitokotoyogen/app.py:192-201 | a second save of the same draw is refused, leaving what one save leaves |
| KaidanGenerator.NotStartsWith | day55_kaidan_generator/app.py:101-107 | text differing from a placeholder within both does not begin with it |
| KaidanGenerator.FillPlain | day55_kaidan_generator/app.py:101-107 | formatting copies text without an opening brace unchanged, in front of whatever follows |
| KaidanGenerator.FillStep | day55_kaidan_generator/app.py:101-107 | formatting copies a character other than an opening brace |
| KaidanGenerator.FillNoBreak | day55_kaidan_generator/app.py:101-107 | formatting puts in no line break when neither the template nor the values hold one |
| KaidanGenerator.ClimaxPool | day55_kaidan_generator/app.py:90-95 | the soft pool up to level 2, both pools at level 3, and the hard pool from level 4 |
| KaidanGenerator.ClimaxBands | day55_kaidan_generator/app.py:90-95 | levels 1 and 2 never reach a hard climax, and levels 4 and 5 never a soft one |
| KaidanGenerator.KeywordOr | day55_kaidan_generator/app.py:99 | the keyword is the stripped input when not blank, and is never blank |
| KaidanGenerator.PlaceOr | day55_kaidan_generator/app.py:146 | the place is the stripped input when not blank, and is never blank |
| KaidanGenerator.Lines | day55_kaidan_generator/app.py:100-108 | the story has seven base lines |
| KaidanGenerator.BaseParts | day55_kaidan_generator/app.py:100-108 | the drawn templates give seven lines |
| KaidanGenerator.Parts | day55_kaidan_generator/app.py:98-117 | seven lines, or eight from level 4 with the extra line at index 3 before the first escalation; the whisper and the climax come third and second from last, filled with the defaulted keyword |
| KaidanGenerator.StoryLines | day55_kaidan_generator/app.py:98-119 | with single-line inputs the story splits back into exactly its parts: seven lines, or eight from level 4 |
| KaidanGenerator.GenerateKaidan | day55_kaidan_generator/app.py:98-119 | the story opens with the filled opening template and closes with the filled ending template |
| KaidanGenerator.BaseSingleLine | day55_kaidan_generator/app.py:100-108 | the seven base lines are single lines when the place, time and keyword are |
| KaidanGenerator.LinesSingleLine | day55_kaidan_generator/app.py:100-108 | lines filled from single-line templates and values are single lines |
| KaidanGenerator.DrawnSingleLine | day55_kaidan_generator/app.py:112-116 | none of the drawn templates holds a line break |
| KaidanGenerator.StripNoBreak | day55_kaidan_generator/app.py:99 | stripping keeps a text free of line breaks |
| KaidanGenerator.WhisperSpeaksKeyword | day55_kaidan_generator/app.py:99-105 | the whisper, when drawn, speaks the stripped keyword, or "ねえ" when none was given |
| KaidanGenerator.FillWhisper | day55_kaidan_generator/app.py:105 | filling the whisper template puts the keyword between its two halves |
| HollowMindTest.Count | day65_hollow_mind_test/app.py:63-70 | a letter's score never exceeds the number of answers |
| HollowMindTest.CountsAddUp | day65_hollow_mind_test/app.py:63-70 | each answer is counted under exactly one letter, so the scores add up to the number of answers |
| HollowMindTest.Tally | day65_hollow_mind_test/app.py:63-70 | the loop leaves each letter's score at the number of answers with that letter |
| HollowMindTest.Diagnose | day65_hollow_mind_test/app.py:74-94 | the first type exactly when A is not below B and C, the second exactly when A falls short and B is not below A and C, the third exactly when C beats both |
| HollowMindTest.DiagnoseMaximal | day65_hollow_mind_test/app.py:74-94 | the type names a letter with the highest score, and the earliest such letter |
| HollowMindTest.Results.constructor | day65_hollow_mind_test/app.py:107 | the list starts as loaded |
| HollowMindTest.Results.Save | day65_hollow_mind_test/app.py:108-115 | one result with the time, the type name and the answers is appended |
| HollowMindTest.Latest | day65_hollow_mind_test/app.py:122 | the ten latest results, newest first |
| HollowMindTest.SavedShownFirst | day65_hollow_mind_test/app.py:108-122 | a result saved last is listed first |
| NightReset.BuildResult | day68_night_reset/app.py:70-88 | the whisper is one of the five; the mood is "protect" exactly up to 1 check, "slightly" exactly for 2 or 3 and "well" exactly above 3; the tip comes from the low pool up to 1 check and from the ok pool above; the memo line is the note line |
| NightReset.Night.constructor | day68_night_reset/app.py:99 | a fresh page shows no result over the loaded history |
| NightReset.Night.Finish | day68_night_reset/app.py:112-115 | the count is the number of ticked boxes, between 0 and 5, and the session keeps it with its result; the history is untouched |
| NightReset.Night.Save | day68_night_reset/app.py:139-150 | one row with the time, the count, the boxes, the stripped note and the shown mood, whisper and tip is appended; the result stays |
| NightReset.Night.Clear | day68_night_reset/app.py:152-154 | the result is dropped and the history kept |
| NightReset.MoodBands | day68_night_reset/app.py:72-80 | the mood follows the count upward: more checks never lose "well", fewer never lose "protect" |
| OneThingTomorrow.PickOne | day69_one_thing_tomorrow/app.py:108-123 | on a near-zero day the task is an entry of that energy's pool; otherwise the drawn domain task is kept as it is when it says "だけ", and else followed by one of the energy's modifiers in full-width brackets; the line is one of the five and the memo line is the note line |
| OneThingTomorrow.KeptWhenOnly | day69_one_thing_tomorrow/app.py:113-119 | off a near-zero day the drawn task is kept unchanged exactly when it already says "だけ", so every task says "だけ" or ends with a bracketed modifier |
| OneThingTomorrow.Planner.constructor | day69_one_thing_tomorrow/app.py:134 | a fresh page shows no result over the loaded history |
| OneThingTomorrow.Planner.Decide | day69_one_thing_tomorrow/app.py:148-150 | the session keeps the picked result; the history is untouched |
| OneThingTomorrow.Planner.Save | day69_one_thing_tomorrow/app.py:165-175 | one row with the time, the choices, the stripped note and the shown task and line is appended; the result stays |
| OneThingTomorrow.Planner.Clear | day69_one_thing_tomorrow/app.py:177-179 | the result is dropped and the history kept |
| WeeklyMinGoal.PickWeekGoal | day70_weekly_min_goal/app.py:112-122 | a recovery week's goal is an entry of its own pool; any other week's goal is one of the domain's goals followed by one of the energy's modifiers in full-width brackets; the line is one of the five and the memo line is the note line |
| WeeklyMinGoal.GoalBracket | day70_weekly_min_goal/app.py:113-118 | a goal ends in "）" exactly when the week is not a recovery week, so the two kinds of goal are never confused |
| WeeklyMinGoal.Planner.constructor | day70_weekly_min_goal/app.py:133 | a fresh page shows no result over the loaded history |
| WeeklyMinGoal.Planner.Decide | day70_weekly_min_goal/app.py:151-153 | the session keeps the picked goal; the history is untouched |
| WeeklyMinGoal.Planner.Save | day70_weekly_min_goal/app.py:168-178 | one row with the time, this ISO week's id, the choices, the stripped note and the shown goal and line is appended; the result stays |
| WeeklyMinGoal.Planner.Clear | day70_weekly_min_goal/app.py:181-183 | the result is dropped and the history kept |
| WeeklyReview.DoneList | day71_weekly_review/app.py:77 | the done list keeps each non-blank item exactly as often as it is typed, and no blank item |
| WeeklyReview.DoneListAppend | day71_weekly_review/app.py:77 | the done list of two runs of items is the two done lists in order |
| WeeklyReview.DoneListOne | day71_weekly_review/app.py:77 | a single item is listed, unchanged, exactly when it is not blank |
| WeeklyReview.Count | day71_weekly_review/app.py:77-81 | the count is the number of non-blank texts among the five items and the free text |
| WeeklyReview.CountRange | day71_weekly_review/app.py:67-81 | with five item fields the count lies in 0..6, and it is 6 exactly when every item and the free text are filled |
| WeeklyReview.LineFor | day71_weekly_review/app.py:83 | every count, however large, selects one of Luna's lines, the one at the count modulo five |
| WeeklyReview.LinePeriodic | day71_weekly_review/app.py:83 | counts five apart get the same line |
| WeeklyReview.CopyTextLines | day71_weekly_review/app.py:96 | split at line breaks, the copy text is the header with the count followed by exactly the done items, when at least one item is done and none holds a line break |
| WeeklyReview.HeaderNoBreak | day71_weekly_review/app.py:96 | the header "今週の成果：<count>個" holds no line break |
| WeeklyReview.HeaderAndLines | day71_weekly_review/app.py:96 | a single-line header, a line break and single-line rows joined by line breaks split back into the header followed by the rows |
| MoneyLog.ParseMonthKeyRoundTrip | day72_money_log/app.py:40-41 | a month key holds the year and the month and nothing else: it reads back as exactly that pair |
| MoneyLog.MonthKeySame | day72_money_log/app.py:40-41 | two dates share a month key exactly when they share year and month |
| MoneyLog.MonthKey | day72_money_log/app.py:40-41 | the key is the year's decimal digits, a dash, and two digits reading the month |
| MoneyLog.Ledger.constructor | day72_money_log/app.py:52 | the ledger starts with the loaded rows |
| MoneyLog.Ledger.Add | day72_money_log/app.py:73-88 | a row is appended exactly when the amount is positive, with the date in ISO form and the stripped memo; otherwise the rows are unchanged; rows with positive amounts and readable dates stay so |
| MoneyLog.RowMonth | day72_money_log/app.py:101-117 | a row has a month exactly when its date reads back as an ISO date |
| MoneyLog.MonthSum | day72_money_log/app.py:101 | this month's total exists exactly when every row's date reads back; one unreadable date makes the comprehension raise |
| MoneyLog.MonthSumBy | day72_money_log/app.py:101 | for any reading of a row's month, the total exists exactly when every row's month can be read |
| MoneyLog.TodayWithinMonth | day72_money_log/app.py:100-101 | with amounts that are not negative, today's total never exceeds this month's |
| MoneyLog.TodaySum | day72_money_log/app.py:100 | the total is 0 when no row is dated today, and not negative when no amount is |
| MoneyLog.TodaySumAppend | day72_money_log/app.py:100 | today's total over two runs of rows is the sum of their totals, and one row adds its amount exactly when dated today |
| MoneyLog.AddTo | day72_money_log/app.py:119 | adding an amount to a category gives that category its old total (or 0) plus the amount, adds its key, and leaves every other category alone |
| MoneyLog.CatSumsKeys | day72_money_log/app.py:111-119 | a category has a total exactly when some row of the month carries it |
| MoneyLog.CatSumsValue | day72_money_log/app.py:111-119 | each category's entry is the sum of that month's amounts in the category |
| MoneyLog.CatTotalZero | day72_money_log/app.py:111-119 | a category no row of the month carries totals zero |
| MoneyLog.CategoryTotals | day72_money_log/app.py:111-119 | the loop over the rows, which skips unreadable dates and other months, yields the per-category sums |
| MoneyLog.CatSums | day72_money_log/app.py:111-119 | a category has a total exactly when some row of the month with a readable date carries it, and that total is the sum of those rows' amounts |
| MoneyLog.TotalRemove | day72_money_log/app.py:111-119 | the sum over the category map is one entry plus the sum of the rest, whichever entry is taken |
| MoneyLog.TotalUpdate | day72_money_log/app.py:119 | setting one category's entry changes the map's sum by the new value less the old one |
| MoneyLog.CatSumsTotal | day72_money_log/app.py:101-119 | when every date reads back, the per-category totals add up to the month's total |
| MoneyLog.MonthRows | day72_money_log/app.py:138-145 | the filtered rows are exactly the rows whose date reads back and falls in the shown month, in file order |
| MoneyLog.MonthView | day72_money_log/app.py:138-148 | the view holds exactly the month's rows, dated newest first, with rows of equal date in file order |
| MoneyLog.MonthViewMembers | day72_money_log/app.py:138-148 | a row is in the month view exactly when it is stored and its date falls in that month |
| MoneyLog.RemarkFor | day72_money_log/app.py:167-174 | the remark is "zero" exactly at 0, the first band below 5000 yen, the second from 5000 below 20000, the last from 20000 |
| MoneyLog.RemarkMonotone | day72_money_log/app.py:167-174 | on totals that are not negative, a larger month never gets an earlier remark |
| MemoryGame.MakeBoard | day73_memory_game/app.py:31-49 | dealing raises exactly when there are fewer images than pairs; otherwise the board has two cards per pair and, as a bag, is the sampled images twice over |
| MemoryGame.PairsOnBoard | day73_memory_game/app.py:43-48 | with distinct images sampled at distinct positions, every picked image lies on the board exactly twice |
| MemoryGame.RcToIdx | day73_memory_game/app.py:52-53 | a cell's index lies on the board, and its row and column are recovered from it by division and remainder |
| MemoryGame.RcToIdxOnto | day73_memory_game/app.py:178-181 | every board position is the index of exactly one cell, so the row-by-column loop reaches every card |
| MemoryGame.Game.constructor | day73_memory_game/app.py:59-71 | a first session holds the dealt board, no card matched or open, no moves, the start time and no lock, in a valid state |
| MemoryGame.Game.InitGame | day73_memory_game/app.py:158-169 | the size is stored first; when dealing raises nothing else changes; otherwise the new board of size squared cards starts with nothing matched or open, no moves, the new start time and no lock |
| MemoryGame.Game.ClearedBoardIsClosed | day73_memory_game/app.py:74-90 | once every card is matched no card can be clicked |
| MemoryGame.Game.HandleClick | day73_memory_game/app.py:93-100 | a clickable card is opened and a refused click changes nothing; the move count rises exactly when a second card opens, and the board is locked exactly while two cards are open; the board and matches are untouched |
| MemoryGame.Game.EvaluateOpened | day73_memory_game/app.py:103-121 | with two cards open, both become matched exactly when their images are equal and either way both are turned away; the lock is always released, matches only ever turn on, and moves and the board stay |
| MemoryGame.Game.CardImagePath | day73_memory_game/app.py:124-132 | a card shows its face exactly when it is matched or open, and the back otherwise |
| PaymentReminder.Step | day74_payment_reminder/app.py:43-49 | a month or a year step gives a valid, strictly later date whose day is clamped to no more than the old one; any other kind leaves the date as it is |
| PaymentReminder.NextDateBounds | day74_payment_reminder/app.py:40-50 | a recurring payment falls due today or later, a one-off keeps its date, a date not before today is kept, and the day of the month never grows |
| PaymentReminder.NextDateFirst | day74_payment_reminder/app.py:43-49 | for a recurring payment the next date is the first date of the stepping sequence that is not before today: every earlier step is still before today |
| PaymentReminder.NextDate | day74_payment_reminder/app.py:40-50 | the next date is a valid date; a recurring payment falls due today or later; any other kind, or a date not before today, is returned as it is |
| PaymentReminder.ClampingCompounds | day74_payment_reminder/app.py:45 | month steps compound from the clamped date: 31 January steps to 28 February and then to 28 March, not 31 March |
| PaymentReminder.CalcNext | day74_payment_reminder/app.py:40-50 | the stepping loop, which terminates, returns the next due date |
| PaymentReminder.RowDays | day74_payment_reminder/app.py:97-108 | a recurring payment is never shown overdue; a one-off shows the days from today to its own date |
| PaymentReminder.Unsorted | day74_payment_reminder/app.py:95-108 | the display before sorting has one row per stored payment, in stored order |
| PaymentReminder.Display | day74_payment_reminder/app.py:95-111 | the display is a permutation of the stored payments' rows, ordered by days left, with equal days in stored order |
| PaymentReminder.SortRows | day74_payment_reminder/app.py:111 | the sort by days is a stable permutation into non-decreasing days |
| PaymentReminder.DisplaySource | day74_payment_reminder/app.py:95-111 | every shown row is the row of the stored payment its source position names |
| PaymentReminder.BuildDisplay | day74_payment_reminder/app.py:95-111 | the display loop and the sort produce the sorted display |
| PaymentReminder.TotalsSplit | day74_payment_reminder/app.py:116-120 | the two totals split the amounts due within 60 days, overdue rows counting towards this month |
| PaymentReminder.SumBetweenPerm | day74_payment_reminder/app.py:116-120 | a total does not depend on the order of the rows |
| PaymentReminder.SumBetweenRemove | day74_payment_reminder/app.py:116-120 | a total is the total without one row plus that row's share |
| PaymentReminder.Totals | day74_payment_reminder/app.py:113-120 | the loop yields the amounts due within 30 days (overdue included) and the amounts due after 30 and within 60 days |
| PaymentReminder.TotalsOfStored | day74_payment_reminder/app.py:111-120 | the shown totals equal those of the stored payments in stored order |
| PaymentReminder.Badge | day74_payment_reminder/app.py:129 | red exactly within 3 days, yellow exactly after 3 and within 7, green exactly after 7 |
| PaymentReminder.Reminder.constructor | day74_payment_reminder/app.py:60 | the list starts with the loaded payments |
| PaymentReminder.Reminder.Add | day74_payment_reminder/app.py:74-83 | a payment with a name is appended; an empty name adds nothing |
| PaymentReminder.Reminder.DeleteAt | day74_payment_reminder/app.py:137-140 | the stored payment at the shown position is removed, as written |
| PaymentReminder.Reminder.DeleteShown | day74_payment_reminder/app.py:137-140 | the payment the shown row displays, and exactly one copy of it, is removed; the rest keep their order |
| PaymentReminder.DeleteAtWrongRow | day74_payment_reminder/app.py:137-138 | with a payment due in ten days stored before one due today, the first shown row's button removes the other payment |
| SentaiMatch.KeptPairs | day75_sentai_match/app.py:37-42 | no more pairs than rows, and every kept pair has two non-blank names |
| SentaiMatch.KeptPairsMeaning | day75_sentai_match/app.py:37-42 | a pair is loaded exactly when some row has both cells non-blank after stripping and holds that pair |
| SentaiMatch.LoadPairs | day75_sentai_match/app.py:27-46 | loading fails exactly when the header lacks either column or no usable row remains; otherwise it yields the usable rows' pairs in file order |
| SentaiMatch.MoreThanOne | day75_sentai_match/app.py:62-63 | a set has more than one element exactly when it holds two different ones |
| SentaiMatch.PartnerMap | day75_sentai_match/app.py:55-60 | the map has a key for exactly the names on one side, each mapped to the set of names paired with it |
| SentaiMatch.ClashFromMap | day75_sentai_match/app.py:62-65 | a name with more than one partner in the map is exactly two pairs agreeing on that side and differing on the other |
| SentaiMatch.HasClash | day75_sentai_match/app.py:55-67 | the duplicate list of one side is non-empty exactly when two pairs clash on that side |
| SentaiMatch.RepeatScan | day75_sentai_match/app.py:71-78 | rows are reported repeated exactly when some pair occurs twice |
| SentaiMatch.ValidatePairs | day75_sentai_match/app.py:49-82 | the problems are reported in the order team clash, ranger clash, repeated row, each exactly when it occurs, and the data is fine exactly when there is none |
| SentaiMatch.AnswerMapMeaning | day75_sentai_match/app.py:96 | every team of the pool has an answer, the ranger of its last pair |
| SentaiMatch.AnswerMapKeys | day75_sentai_match/app.py:96 | only teams of the pool have an answer |
| SentaiMatch.PoolSize | day75_sentai_match/app.py:89-93 | a positive n asks for the smaller of n and the number of pairs; otherwise every pair |
| SentaiMatch.Match.constructor | day75_sentai_match/app.py:88-107 | the pool is a sub-bag of the pairs of the asked size, the answer map is built from it, each side's names are a shuffle of the pool's, nothing is selected and every counter is zero |
| SentaiMatch.Match.PickSentai | day75_sentai_match/app.py:115-118 | the team is selected unless the board is locked; nothing else changes |
| SentaiMatch.Match.PickRanger | day75_sentai_match/app.py:121-124 | the ranger is selected unless the board is locked; nothing else changes |
| SentaiMatch.Match.EvaluateSelection | day75_sentai_match/app.py:127-150 | without both selections nothing happens; otherwise one more try, a match removing every copy of both names or a miss leaving the lists, the selection cleared and the lock released; every try stays a match or a miss |
| SentaiMatch.Match.ClearSelection | day75_sentai_match/app.py:199-202 | both selections are dropped and nothing else changes |
| SentaiMatch.Match.ClearBanner | day75_sentai_match/app.py:205-256 | the banner shows exactly when no team name remains, with the number of pairs asked, the tries and the misses; the misses never exceed the tries, which exceed them by the pairs matched |
| RoutineCheck.Record | day81_routine_check/app.py:53-63 | after the checkbox loop the day's map has its old keys plus every routine |
| RoutineCheck.CountChecked | day81_routine_check/app.py:65-66 | the number of ticked routines never exceeds the number of routines |
| RoutineCheck.RecordValue | day81_routine_check/app.py:57-63 | with distinct routines each routine's entry for today is the value of its own box |
| RoutineCheck.CountCheckedSame | day81_routine_check/app.py:53-66 | the count depends only on the entries of the listed routines |
| RoutineCheck.CompletedMatchesMap | day81_routine_check/app.py:51-66 | with distinct routines the loop's counter equals the number of routines today's map records as ticked |
| RoutineCheck.Percent | day81_routine_check/app.py:75-80 | the percentage lies in 0..100; it is 0 with no routines or none ticked, 100 exactly when every routine is ticked, and below 100 otherwise |
| RoutineCheck.WithoutEverywhere | day81_routine_check/app.py:122-124 | every date keeps its map minus the deleted routine, and no date is added or lost |
| RoutineCheck.PendingStep | day81_routine_check/app.py:122-124 | handling one date of the deletion loop drops the routine from that date only, whether or not it was there |
| RoutineCheck.Tracker.constructor | day81_routine_check/app.py:14-22 | the tracker starts with the loaded routines and ticks |
| RoutineCheck.Tracker.OpenToday | day81_routine_check/app.py:35-38 | today has a map afterwards; an existing one is kept and a missing one is created empty; the routines are untouched |
| RoutineCheck.Tracker.TickLoop | day81_routine_check/app.py:51-68 | today's map records every routine's box, other dates are untouched, and the count is the number of ticked boxes |
| RoutineCheck.Tracker.Add | day81_routine_check/app.py:101-106 | a routine is appended exactly when it is non-empty and not yet listed; the ticks are untouched and a list without repeats keeps none |
| RoutineCheck.Tracker.Delete | day81_routine_check/app.py:117-127 | a listed routine leaves the list, at its first place, and every date's map; an unlisted name changes nothing |
| RoutineCheck.RemoveFirstGone | day81_routine_check/app.py:103-120 | since additions keep the list without repeats, a deleted routine is no longer listed anywhere |
| EnergyMeter.AvgScore | day83_Energy_Meter/app.py:70-76 | a check-in has an average exactly when it is done and has all three scores; the average times three is their sum, and slider scores give an average in [0, 10] |
| EnergyMeter.Present | day83_Energy_Meter/app.py:81 | the present averages are no more than the check-ins, and none is present exactly when every check-in lacks an average |
| EnergyMeter.PresentBounded | day83_Energy_Meter/app.py:81-85 | averages in [0, 10] sum to between 0 and ten times their number |
| EnergyMeter.DayMode | day83_Energy_Meter/app.py:79-92 | the day is undecided, with no average, exactly when no check-in yields one; otherwise the day's average is the mean of the present averages, and the mode is "攻め" exactly from 7, "守り" exactly from 4.5 below 7, "回復" exactly below 4.5 |
| EnergyMeter.DayAverageBounds | day83_Energy_Meter/app.py:79-92 | with slider scores the day's average lies in [0, 10] |
| EnergyMeter.MeanBounds | day83_Energy_Meter/app.py:85 | a mean of values in [0, 10] lies in [0, 10] |
| EnergyMeter.FindEntry | day83_Energy_Meter/app.py:41-45 | the position found holds the first entry with that date, and none is found exactly when no entry has it |
| EnergyMeter.EnergyLog.constructor | day83_Energy_Meter/app.py:14-24 | a newly created store holds no entries |
| EnergyMeter.EnergyLog.GetOrCreateToday | day83_Energy_Meter/app.py:48-62 | the result is the first entry with today's date; an existing one leaves the entries unchanged, otherwise one entry with three empty check-ins is appended; dates that were unique stay unique |
| EnergyMeter.EnergyLog.SavePart | day83_Energy_Meter/app.py:182-205 | the chosen part becomes a done check-in with the three scores, the stripped note and the time, whose average is their sum over three; the other parts and entries, the date and the creation time stay, and the update time is now |
| EnergyMeter.EnergyLog.Reset | day83_Energy_Meter/app.py:166-171 | all three check-ins of the entry are emptied, so the day is undecided again; other entries, the date and the creation time stay, and the update time is now |
| ActionSelector.NewEntry | day84_action_selector/app.py:50-64 | a new entry carries the date, is undecided and not done, and has no scores, pick, review or closing time |
| ActionSelector.FindEntry | day84_action_selector/app.py:40-44 | the position found holds the first entry with that date, and none is found exactly when no entry has it |
| ActionSelector.FindEntryAppend | day84_action_selector/app.py:40-44 | appending never changes where an earlier entry is found, and an appended entry with a new date is found at the end |
| ActionSelector.ModeFromScores | day84_action_selector/app.py:75-81 | the mean times three is the sum, and the mode is "攻め" exactly from 7.0, "守り" exactly from 4.5 below 7.0, "回復" exactly below 4.5 |
| ActionSelector.ModeBySum | day84_action_selector/app.py:75-81 | for whole-number scores the bands are sums: at least 21, 14 to 20, below 14 |
| ActionSelector.Pool | day84_action_selector/app.py:84-106 | exactly the three modes have a pool, each of five actions |
| ActionSelector.Boost | day84_action_selector/app.py:115-129 | an action's boost lies in 0..2: 2 for development or posting actions exactly when the goals name that theme, 1 for study actions exactly when the goals name study, 1 for rest and very light actions exactly in recovery mode, and 0 for any other category |
| ActionSelector.Base | day84_action_selector/app.py:110 | the base list is the mode's pool, or empty for an unknown mode |
| ActionSelector.BuildSuggestions | day84_action_selector/app.py:109-131 | the suggestions are a permutation of the mode's pool (empty for an unknown mode) ordered by decreasing boost, with the pool's order kept among equal boosts |
| ActionSelector.Suggest | day84_action_selector/app.py:131 | the sort by the negated boost is a stable permutation into decreasing boost |
| ActionSelector.RecoveryFirst | day84_action_selector/app.py:100-105 | in recovery mode, whatever the goals, every rest or very light action comes before any other |
| ActionSelector.RecoveryPoolCategories | day84_action_selector/app.py:99-105 | the recovery pool holds only rest, very light, tidying and family actions |
| ActionSelector.Journal.constructor | day84_action_selector/app.py:13-23 | a newly created store holds no entries |
| ActionSelector.Journal.GetOrCreateToday | day84_action_selector/app.py:47-67 | afterwards today's entry is found at the returned position; an existing one leaves the entries unchanged, otherwise exactly one new entry is appended |
| ActionSelector.Journal.ScoreDay | day84_action_selector/app.py:199-212 | the entry gets the mode of its scores and the three scores; nothing else on it or on any other entry changes |
| ActionSelector.Journal.ChooseMode | day84_action_selector/app.py:213-215 | the chosen mode, which has a pool, is stored; scores and other entries stay |
| ActionSelector.Journal.SavePick | day84_action_selector/app.py:224-242 | the picked suggestion's category and text, the stripped reason and the saving time are stored; the saved action belongs to the mode's pool; other entries stay |
| ActionSelector.Journal.Reset | day84_action_selector/app.py:175-184 | the pick, its reason, the review, the timestamps and the done flag are cleared while date, mode and scores stay; other entries are untouched |
| ActionSelector.Journal.CloseDay | day84_action_selector/app.py:251-256 | the done flag, the stripped review and the closing time are written on this entry only |
| Calendar.DaysInMonth | day74_payment_reminder/app.py:45 | a month has 28 to 31 days, and 29 exactly for February of a leap year |
| Calendar.Next | day49_habit_tracker_pro/app.py:113 | the next day is a valid date whose ordinal is one more |
| Calendar.Prev | day49_habit_tracker_pro/app.py:125 | the previous day is a valid date whose ordinal is one less |
| Calendar.AddDays | day41_yohaku/app.py:181 | adding n days gives a valid date whose ordinal is n more |
| Calendar.OrdinalInjective | day48_continuity_viewer/app.py:63 | two valid dates with the same ordinal are the same date, so day differences tell dates apart |
| Calendar.LexLessOrdinal | day74_payment_reminder/app.py:43 | comparing dates field by field is comparing their ordinals |
| Calendar.WeekdayOf | day37_unki_kakeibo/app.py:115 | a weekday lies in 0..6 |
| Calendar.Weekday | day37_unki_kakeibo/app.py:115 | a date's weekday lies in 0..6, Monday being 0 |
| Calendar.WeekdayNext | day37_unki_kakeibo/app.py:115 | the next day's weekday is one more, wrapping from Sunday to Monday |
| Calendar.AddMonths | day74_payment_reminder/app.py:45 | adding k months moves the month index by exactly k and clamps the day to the target month's length, giving a valid date |
| Calendar.AddYears | day74_payment_reminder/app.py:47 | adding k years keeps the month, moves the year by k and clamps 29 February to 28 outside leap years |
| Calendar.MonthOrder | day74_payment_reminder/app.py:43-47 | a date in a later month lies after every date of an earlier month |
| Calendar.IsoWeek1Monday | day70_weekly_min_goal/app.py:108 | the first ISO week of a year starts on a Monday within three days of 1 January |
| Calendar.IsoYearLength | day70_weekly_min_goal/app.py:108 | consecutive ISO years start 364 or 371 days apart, so every ISO year has 52 or 53 weeks |
| Calendar.IsoCalendar | day70_weekly_min_goal/app.py:108 | the ISO year is within one of the date's year, the week lies in 1..53 and the weekday in 1..7, the date is that many weeks and days after the ISO year's first Monday, and it falls before the next ISO year's first Monday |
| Calendar.IsoOf | day70_weekly_min_goal/app.py:108 | an ordinal within three days of a year's ISO weeks gets the ISO year within one of that year, week 1..53 and weekday 1..7, lying that far past the ISO year's first Monday and before the next one's |
| Calendar.IsoNear | day70_weekly_min_goal/app.py:108 | the case split gives week 1..53, the ordinal's weekday, an ISO year within one of the given year with the ordinal that far past its first Monday; an ordinal assigned to the earlier or the given year lies before the following year's first Monday, and one assigned to the later year is in its week 1 |
| Calendar.IsoNearIsIsoDate | day70_weekly_min_goal/app.py:108 | the case split's result is the ISO week date of the ordinal, including that the ordinal falls before the next ISO year's first Monday |
| DateText.Iso | day72_money_log/app.py:97 | the ISO text of a date has ten characters |
| DateText.IsoShape | day72_money_log/app.py:97 | the ISO text is the four-digit year, the two-digit month and the two-digit day joined by dashes |
| DateText.Digits2Value | day70_weekly_min_goal/app.py:109 | a two-digit field is digits only and is worth its number |
| DateText.Digits4Value | day72_money_log/app.py:97 | a four-digit year field is digits only and is worth its number |
| DateText.MakeDate | day72_money_log/app.py:114 | a date is made exactly when Python accepts those fields |
| DateText.FromIso | day72_money_log/app.py:114 | a text that reads back gives a date Python supports |
| DateText.FromIsoIso | day72_money_log/app.py:114 | every Python date's ISO text reads back as that date |
| DateText.IsoInjective | day72_money_log/app.py:97-100 | different dates have different ISO texts |
| DateText.DatetimeDate | day40_kaukamo/app.py:92 | the date read from a timestamp is a date Python supports |
| DateText.DatetimeDateIso | day40_kaukamo/app.py:92 | a timestamp written with seconds precision reads back as its date |
| DateText.MonthField | day38_hatsubaibi/app.py:118 | the month field takes at most two characters |
| DateText.DayField | day38_hatsubaibi/app.py:118 | the day field takes at most two characters |
| DateText.StrptimeYmd | day38_hatsubaibi/app.py:118-128 | a text strptime accepts gives a date Python supports |
| DateText.StrptimeIso | day38_hatsubaibi/app.py:118-128 | strptime accepts every ISO text and reads the same date |
| DateText.StrptimeIsoShape | day38_hatsubaibi/app.py:118-128 | on text of the ISO shape strptime and fromisoformat agree |
| DateText.WeekIdSame | day70_weekly_min_goal/app.py:106-109 | two dates share a week id exactly when they share ISO year and week |
| DateText.WeekTextInjective | day70_weekly_min_goal/app.py:109 | the year and the two-digit week can be read back from the week text |
| NoteText.NoteLine | day68_night_reset/app.py:82 | the memo line is empty exactly when the notes are blank; otherwise it holds the stripped notes between the brackets, six characters longer |
| PyText.StripShape | day12_jikanwari/app.py:37-40 | the stripped text is a slice of the text, empty or neither starting nor ending with whitespace |
| PyText.Strip | day12_jikanwari/app.py:37-40 | the stripped text is never longer, and is empty or neither starts nor ends with whitespace |
| PyText.StripSlice | day12_jikanwari/app.py:40 | the stripped text sits inside the text at a found position |
| PyText.StripIdempotent | day68_night_reset/app.py:82 | stripping twice is stripping once |
| PyText.OrElse | day36_Schedule/app.py:139 | `v or d` on text gives v when it is non-empty and d otherwise |
| PyText.BlankIffAllSpace | day12_jikanwari/app.py:37 | a text strips to nothing exactly when all its characters are whitespace |
| PyText.NormalizeWs | day38_hatsubaibi/app.py:135-136 | the normalised text has no run of two whitespace characters and no whitespace at either end |
| PyText.CollapseWsCollapsed | day38_hatsubaibi/app.py:136 | after the substitution no two whitespace characters are adjacent, and the text starts with whitespace exactly when the input did |
| PyText.CollapseWs | day38_hatsubaibi/app.py:136 | the substitution never lengthens the text, and gives empty text exactly for empty text |
| PyText.CollapseWsFixed | day38_hatsubaibi/app.py:136 | text already free of whitespace runs is left unchanged by the substitution |
| PyText.StripKeepsCollapsed | day38_hatsubaibi/app.py:136 | stripping collapsed text leaves normalised text |
| PyText.NormalizeWsIdempotent | day38_hatsubaibi/app.py:135-136 | normalising twice is normalising once |
| PyText.Lower | day84_action_selector/app.py:113 | lower-casing keeps the length and turns exactly the ASCII capitals into small letters |
| PyText.Split | day36_Schedule/app.py:49 | splitting gives at least one part and no part holds the separator |
| PyText.SplitJoin | day36_Schedule/app.py:49 | joining the parts with the separator gives the text back |
| PyText.JoinSplit | day71_weekly_review/app.py:96 | splitting a join of parts free of the separator gives the parts back |
| PyText.JoinEnds | day55_kaidan_generator/app.py:119 | a join begins with its first part and ends with its last |
| PyText.SplitCount | day36_Schedule/app.py:49 | there is one part more than separators |
| PyText.SplitTwo | day36_Schedule/app.py:49 | two separator-free texts around one separator split into exactly those two |
| PyText.ReplaceChar | day54_hitokotoyogen/app.py:169-170 | replacing a character removes it (unless the replacement holds it), adds no new characters, changes nothing when absent, and grows the length by the replacement's extra length per occurrence |
| PyText.ReplaceCharAppend | day54_hitokotoyogen/app.py:169-170 | replacing distributes over concatenation |
| PyText.ReplaceCharOne | day54_hitokotoyogen/app.py:169-170 | a single character becomes the replacement exactly when it is the replaced character |
| PyText.NatToString | day71_weekly_review/app.py:96 | the decimal form is digits only, without a leading zero, and worth the number |
| PyText.ZeroPadded | day35_study_timer/app.py:70 | the zero-padded form is digits only, worth the number, at least the width, and exactly the width when the number fits |
| PyText.HourMinute | day12_jikanwari/app.py:121-122 | the `%H:%M` text has five characters with a colon in the middle, and its fields read back as the hours and minutes |
| PyText.ParseInt | day36_Schedule/app.py:50 | a text that reads as a number is not blank |
| PyText.ParseIntToString | day36_Schedule/app.py:50 | every number's decimal form reads back as that number |
| PyText.ParseIntZeroPadded | day36_Schedule/app.py:46-55 | a zero-padded number reads back as that number |
| PyText.QuoteField | day38_hatsubaibi/app.py:473-474 | a field with a comma, a quote or a line break is wrapped in quotes; any other is left as it is |
| PyText.ParseQuotedDoubled | day38_hatsubaibi/app.py:474 | a quoted field with its quotes doubled reads back as the original text, leaving the rest of the line |
| PyText.ParseFieldQuoted | day38_hatsubaibi/app.py:472-475 | every written field reads back as its value, leaving the rest of the line |
| PyText.CsvLineRoundTrip | day38_hatsubaibi/app.py:470-476 | a written record read by the one-record reader gives back exactly its fields, even fields holding line breaks |
| PyText.ParseCsvLine | day38_hatsubaibi/app.py:470-476 | a line read back has at least one field and at most one more than its length |
| PyNum.Trunc | day35_study_timer/app.py:73 | `int(x)` truncates towards zero: it is the whole part of x, below or above it by less than one |
| PyNum.TruncNonPositive | day35_study_timer/app.py:73-74 | the truncated time left is at most zero exactly when less than one second remains |
| PyJson.Str | day43_self_pass/app.py:50-54 | a string value is read as itself |
| PyJson.StrOf | day43_self_pass/app.py:50-54 | a scalar value is read as its text |
| PyJson.Get | day43_self_pass/app.py:50-54 | `d.get(k, default)` gives the stored value when the key is present and the default otherwise |
| PyList.IndexOf | day81_routine_check/app.py:120 | the position holds the element and no earlier position does |
| PyList.RemoveFirst | day81_routine_check/app.py:120 | removing drops exactly the first occurrence: the elements before it stay and the later ones move up by one |
| PyList.RemoveFirstMultiset | day81_routine_check/app.py:120 | removing takes exactly one copy of the element out of the list's bag |
| PyList.Filter | day71_weekly_review/app.py:77 | the comprehension keeps only elements that pass, each from the list, and never more than the list |
| PyList.FilterMultiset | day71_weekly_review/app.py:77 | every passing element is kept as often as it occurs and every other element is dropped |
| PyList.FilterAppend | day71_weekly_review/app.py:77 | the comprehension distributes over concatenation, so it keeps the list's order |
| PyList.FilterHead | day46_thanks_2025/app.py:84-95 | the first element kept is an element of the list before which nothing passes |
| PyList.FilterPerm | day41_yohaku/app.py:218-231 | permuting the list permutes what the comprehension keeps |
| PyList.FilterComplement | day51_want100/app.py:82-89 | the counts of elements passing a test and failing it add up to the length |
| PyList.FilterStricter | day51_want100/app.py:82 | a stricter test keeps no more elements |
| PyList.FilterUpdateCount | day51_want100/app.py:163 | replacing one element changes the count of passing elements by the two elements' verdicts |
| PyList.FilterTwice | day38_hatsubaibi/app.py:356-358 | two comprehensions in a row keep what passes both |
| PyList.FilterAll | day71_weekly_review/app.py:77 | a comprehension that every element passes keeps the list |
| PyList.FilterKeepsLength | day71_weekly_review/app.py:77 | a comprehension that keeps as many elements as the list has passed every element |
| PyList.FilterEmpty | day46_thanks_2025/app.py:110-111 | a comprehension is empty exactly when no element passes |
| PyList.FilterSame | day38_hatsubaibi/app.py:356-358 | comprehensions with tests that agree everywhere keep the same elements |
| PyList.FilterWhen | day38_hatsubaibi/app.py:356-358 | a comprehension applied only when a condition holds keeps what passes the first test and, when on, the second |
| PyList.RemoveAll | day75_sentai_match/app.py:140-141 | the value no longer occurs in the result |
| PyList.RemoveAllMultiset | day75_sentai_match/app.py:140-141 | every occurrence of the value goes and every other element stays, as often as it occurred |
| PyList.CountTrue | day68_night_reset/app.py:113 | the number of ticked boxes never exceeds the number of boxes |
| PyList.Take | day43_self_pass/app.py:114 | the slice has n elements, or the whole list when shorter, and they are its first elements |
| PyList.Shuffle | day73_memory_game/app.py:48 | the shuffle keeps the length and the bag of elements |
| Sorting.FlipTotal | day43_self_pass/app.py:88 | sorting in reverse uses the flipped order, again a strict total order |
| Sorting.SortBy | day43_self_pass/app.py:88 | `sorted` gives a permutation of the list, ordered by the key, with equal keys in input order |
| Sorting.SortUnique | day43_self_pass/app.py:88 | a stable sorted permutation is unique: it is the result of `sorted` |
| Sorting.IntLessTotal | day74_payment_reminder/app.py:111 | `<` on integers is a strict total order |
| Sorting.StrOrderTotal | day38_hatsubaibi/app.py:371 | Python's string comparison is a strict total order |
| Sorting.PairOrderTotal | day43_self_pass/app.py:88 | comparing tuples lexicographically is a strict total order when each field's order is |
| Sorting.TakeSorted | day43_self_pass/app.py:114 | the first n of a sorted list are sorted, form a sub-multiset of the list, and rank no lower than anything left out, each left-out element counted with its multiplicity |
| Sorting.BagRestNotBefore | day43_self_pass/app.py:114 | in a sorted concatenation nothing in the second part sorts before anything in the first |
| Sorting.FilterSorted | day42_shinaikoto/app.py:159 | filtering a sorted list keeps it sorted |
| Sorting.InsertUnique | day53_morning_switch/app.py:50 | inserting into an increasing list keeps it increasing, holding the old values and the new one |
| Sorting.SortedSet | day53_morning_switch/app.py:50 | `sorted(set(xs))` is increasing, no longer than xs, and holds exactly xs's values |

## Left out

- Rendering: every widget call, CSS/HTML, `st.rerun`, and the `session_state` plumbing itself. The state is class fields and the handlers are methods.
- File I/O and decoding: `load_*`/`save_*`, `json.loads`/`json.dump` and `csv.DictReader` on files.
  - Loaders are modelled on the decoded value.
  - day74_payment_reminder's loader raises on a corrupt file; that raise is not modelled, because its input never reaches the model.
- Network and foreign calls:
  - day38_hatsubaibi's URL fetch and OGP scraping; only its `normalize_ws` is modelled.
  - day29's OpenAI calls.
  - day17's subprocess launcher.
- pandas and matplotlib: day37_unki_kakeibo's ledger frames, `to_df`/`to_dataframe`/`week_df` in day83_Energy_Meter and day84_action_selector, the CSV export through `DataFrame.to_csv`, and day12_jikanwari's table.
- Clock, sleep and animation: countdown rendering, `time.sleep`, `st_autorefresh`, the typewriter effect in day54_hitokotoyogen, and elapsed-time displays (day73_memory_game, day35_study_timer).
  - The clock is a parameter of the operations that read it.
- Randomness and ids: the pseudo-random generator itself is not modelled. Every draw is a supplied index (for `shuffle`, the sequence of swap indices CPython draws). Every uuid is a supplied string.
  - day44_reward_gacha seeds the generator with the date; the model states only that the draw is a function of that seed.
- Apps outside the modelled core: the pure random text generators, the message lookup tables, and the apps whose only logic is an echo or a flag.
- Displays and ordering of history lists, which change nothing stored:
  - the history expanders of day54, day55, day68, day69, day70 and day71;
  - day48_continuity_viewer's sorted list of dates;
  - day53_morning_switch's streak message bands and its 30-log list;
  - day42_shinaikoto's past-logs window;
  - day72_money_log's category display order, month selector and 60-row cap;
  - day75_sentai_match's statistics line;
  - the copy-paste texts of day68, day69 and day70.
- Edit forms that only reassign the fields the user typed: day38_hatsubaibi's and day40_kaukamo's edit/update forms.
  - Their delete-by-id is modelled where it is named.
- day71_weekly_review's save button is nested inside another button's branch, so it never fires across reruns. It is not modelled, and neither is its stored log.
- day41_yohaku's `load_logs` and its clear-all button.
- day51_want100 and day52_today_one: the loaders are modelled on a decoded JSON object. A file that does not parse is read as the default `{"items": []}`. A file that parses to a list, a number or a string makes `raw.get("items", [])` (day51_want100/app.py:39, day52_today_one/app.py:51) raise `AttributeError`, which is not modelled; neither is the `TypeError` an unhashable category raises.
- day52_today_one's pending-list display and its detection of the wants file path.
- day37_unki_kakeibo: the receipt image write and its display, and `%Y` for years below 1000.
- day18_simple_game's background colour and HTML.
- day33_otoshidama's `load_data`/export, and a rule given as an empty (falsy) dict, which the model reads as missing.
- day31_souji's checkbox widgets; their values are the `boxes` parameter.
- day73_memory_game's scan of the cards directory; the images are a parameter.
- day75_sentai_match: the mode selector's text-to-count mapping (`n` is a parameter) and the initial `ensure_game`.
- Yohaku.Summary: the average is the exact mean rounded to the nearest tenth, an exact half going to the even tenth (Yohaku.RoundTenths). Python's `round(sum / len, 1)` at day41_yohaku/app.py:202 rounds the binary double nearest the mean, so when the mean is exactly a half-tenth the two can differ: 20 days summing to 1009 show 50.5 in Python and 50.4 here, and a mean of 7/20 shows 0.3 in Python and 0.4 here. Means that are not a half-tenth round the same in both.
- Hatsubaibi.ExportRoundTrip: the round trip goes through the one-record reader PyText.ParseCsvLine. The import at day38_hatsubaibi/app.py:205 feeds `csv.DictReader` with `csv_text.splitlines()`, which cuts a quoted field holding a line break into two records, so an exported memo with a line break does not import back as it was.
- Kaukamo.ExportRoundTrip: the same holds for the import at day40_kaukamo/app.py:143: a name, url or memo holding a line break does not survive `splitlines()`.
- PyText.CsvLineRoundTrip: holds for one record given whole to the reader. Splitting the CSV text at line breaks before reading, as both importers do, is not modelled.
- HabitTracker.Streak: when every day back to 0001-01-01 is done, the loop at day49_habit_tracker_pro/app.py:121-126 steps `cur` below `date.min` and raises `OverflowError`. The model (and HabitTracker.CalcStreak) stops there and returns the count instead.
- PyJson.StrOf: reads a nested list or object as "", where Python's `str()` gives its repr (such as "['a']"). The loaders that apply `str()` to stored fields, for example day42_shinaikoto/app.py:57-61, are modelled only for scalar values.
- StudyTimer.FmtMmss: the digits are proved only below 100 minutes; above that only the length bound is stated.
- SelfPass.LoadLog: the loader at day43_self_pass/app.py:48-55 keeps each stored value as it is. The model's fields are text, so it reads a value that is not a string as text. The contract states the fields only for string values and missing keys. When such a value meets a string date, `sorted` at app.py:88 raises `TypeError`; that error is not modelled.
- SimpleGame.Game.Restart: the restart button is shown only after a game over; when the game is not over, the model treats it as a no-op.
- HabitTracker.LoadLogs: requires the stored ids and statuses to be scalars; nested values inside a day's map are not modelled.
- StressChecker.Advice: the contract states only that each band carries three pieces of advice, not their wording.
- UnkiKakeibo.UnkiFor: only the kind of the day's fortune is proved; its hint text is not.
- RoutineCheck.Percent: computed on exact reals. Python's `int((c / t) * 100)` on floats can be one lower: 29 of 100 gives 28 there and 29 here. The contract states only the bounds and the endpoints, which hold either way.
- PyText.ParseInt: reads ASCII digits only. Python's `int()` also reads other Unicode decimal digits, such as full-width "１２", so the model rejects inputs that Python accepts. This carries over to Otoshidama.SafeInt, Schedule.HhmmFields and Schedule.ParseHhmm.
- PyText.Lower: lowers the ASCII letters A-Z only. Python's `lower()` also lowers full-width and other non-ASCII letters, so the keyword filters of Kaukamo, Hatsubaibi and ActionSelector.Keywords compare those letters case-sensitively in the model.
- DateText.FromIso: reads exactly `YYYY-MM-DD` with ASCII digits. The other forms that `date.fromisoformat` accepts since Python 3.11 are read as errors: `YYYYMMDD`, week dates, and non-ASCII digits. This carries over to Yohaku.Recent, MoneyLog.RowMonth and Kaukamo.DaysAged.
- DateText.DatetimeDate: reads a date alone, or a date, one separator and `HH:MM:SS`. It reads other `datetime.fromisoformat` forms as errors, such as "2025-01-05T10:00", fractions of a second and UTC offsets.
- DateText.StrptimeYmd: reads ASCII digits only. The `\d` of `strptime`'s pattern also matches other Unicode digits.
- Kaukamo.ParsePrice: `isdigit()` is modelled on ASCII digits only, so the model rejects a full-width price, which Python accepts and `int()` reads. `isdigit()` is also true for "²", and `int()` then raises `ValueError` at day40_kaukamo/app.py:105. That raise is not modelled either.
- PyJson.Json: has no floating-point case. A stored number such as a price written as `12800.0` cannot be represented, so the loaders are modelled only on files holding whole numbers.
- EnergyMeter.DayMode and ActionSelector.ModeFromScores: the averages are exact reals, so IEEE rounding at the 4.5 and 7.0 boundaries is not modelled. For whole-number scores, ActionSelector.ModeBySum gives the exact integer bands.

## Findings

| source | as written | input that shows it | evidently intended | confidence | as-written member | corrected member |
|---|---|---|---|---|---|---|
| day74_payment_reminder/app.py:137-138 | the delete button of the i-th shown row calls `rows.pop(i)` on the stored list, but the shown list is sorted by days left | a payment due in 10 days stored before one due today: the first shown row is the one due today, and its button deletes the other payment | delete the payment that the clicked row shows | not executed | PaymentReminder.DeleteAtWrongRow | PaymentReminder.Reminder.DeleteShown |
