# Tour-Bot survey model

Tour-Bot is a Telegram bot written with aiogram. It asks a traveller seven questions, one step
at a time, then stores the finished request in a database table and a spreadsheet. The
questions are destination, departure date, nights, adults, children, budget and an optional
comment. An admin can list, search, delete, export and count the stored requests, and can
broadcast a message to every user who filed one.

This project models the core of the bot in Dafny and proves properties of the model:

- **Survey state machine.** Each user has an FSM context: an optional state string and a map
  of answers keyed by step (`Fsm.FsmContext`). The seven steps are declared in `SurveyStates`.
  - Every handler is a method over that context: `/start`, the "start survey" button, the six
    answer steps, the comment/skip step and "back".
  - The handlers keep one invariant, `Survey.WellFormed`:
    - every stored answer passed its step's check;
    - the answered steps are a prefix of the declaration order;
    - a user at step k has answered every step before k.
- **Validators.**
  - `Validators`: integer ranges, budget normalisation and the departure-date check.
  - `Dates`: the `dd.mm.yyyy` calendar parser, with month lengths and leap years.
  - `PyText`: the Python string and integer semantics these rely on (`strip`, `split`, `int`,
    `str`, `replace`).
- **Dispatch** (`Dispatch`). This is how one update travels through the wiring of `main.py`:
  - the i18n middleware;
  - the throttle, which applies only to the messages a handler takes (`/start`, or a text at a
    survey step), never to button presses or to a text no handler takes;
  - the `/start` router before the survey router;
  - the router's state filters.

  It is given both as a pure transition function over snapshots and as methods that call the
  handlers. The invariant holds after any sequence of updates.
- **Smaller pieces:**
  - the progress bar and the inline keyboards (`Keyboards`);
  - the per-user throttle (`Throttling`);
  - language choice and key-fallback lookup (`I18n`);
  - the database URL rewrite and the constants (`Settings`);
  - the `requests` table with its auto-increment ids (`Models`);
  - the spreadsheet row (`GoogleSheets`).
- **Admin commands** (`Admin`), over the model's table:
  - the authorisation filter and the order the handlers are registered in;
  - the id argument of `/search` and `/delete`;
  - delete or not-found;
  - the CSV export header and rows;
  - the ten newest requests for `/requests`;
  - today's requests;
  - the counts and average budget of `/stats`;
  - the broadcast mode and its send-and-tally loop.

Outside effects are parameters:

- **Clocks.** `now: Clock` for the date step is a date plus the time since its midnight.
  `seconds: real` is the throttle's `time.time()`. `ticks: int` is the creation time of a row.
- **Other services.** `commitOk` is the outcome of the database commit, `sheetsOk` whether the
  spreadsheet is reachable, and `notifyOk` whether the admin notification goes out. The
  broadcast's `copy_message` succeeds for user `u` when `delivers(u)` holds.
- **Language and missing files.** A translator carries the loaded tables and the chosen
  language. A missing locale file is `None`.

## Model

| member | source | states |
|---|---|---|
| SurveyStates.Index | states/survey.py:5-11 | every step has a 1-based position in the declaration, and the declaration holds that step at that position |
| SurveyStates.StepNamed | states/survey.py:3-11 | a stored state string that names a step is that step's `SurveyStates:<attr>` string |
| SurveyStates.Next | states/survey.py:5-11 | every step but the comment has a successor, and it is the next one declared |
| SurveyStates.Prev | states/survey.py:5-11 | every step but the destination has a predecessor, and it is the one declared just before |
| SurveyStates.DeclarationShape | states/survey.py:5-11 | exactly seven members, pairwise distinct, every step among them, each followed by its successor |
| SurveyStates.StateNamesDistinct | states/survey.py:5-11 | two steps have the same state string only if they are the same step, and the string maps back to its step |
| SurveyStates.NextInOrder | states/survey.py:5-11 | the forward order is destination, departure date, nights, adults, children, budget, comment |
| SurveyStates.NextPrev | states/survey.py:5-11 | `t` follows `s` exactly when `s` precedes `t` |
| Fsm.BroadcastIsNotAStep | handlers/admin.py:304 | the broadcast-mode state string is not the state of any survey step |
| Fsm.FsmContext.constructor | main.py:35 | a user not seen before has no state and no data |
| Fsm.FsmContext.SetState | handlers/survey.py:26 | only the state changes |
| Fsm.FsmContext.UpdateData | handlers/survey.py:20 | one key is written; the other keys and the state are kept |
| Fsm.FsmContext.Clear | handlers/survey.py:203 | no state and no data are left |
| PyText.Strip | handlers/survey.py:20 | the result is a part of the text (never longer) that neither starts nor ends with white space |
| PyText.StripLeft | handlers/survey.py:20 | the longest suffix not starting with white space; everything cut off is white space |
| PyText.StripRight | handlers/survey.py:20 | the longest prefix not ending with white space; everything cut off is white space |
| PyText.StripIdempotent | handlers/survey.py:53 | stripping twice is stripping once, so `int()` stripping again changes nothing |
| PyText.StripNoSpace | handlers/survey.py:20 | a text without white space is left unchanged |
| PyText.StripSlice | handlers/survey.py:20 | `strip()` cuts only white space: the result is a slice of the text with nothing but white space before and after it |
| PyText.StripPaddedBy | handlers/survey.py:20 | any white-space prefix and suffix put around a text strip away: `strip(p + t + q) == strip(t)` |
| PyText.Find | config/settings.py:19 | the first index where the pattern occurs, or none when it occurs nowhere |
| PyText.ReplaceFirstAtPrefix | config/settings.py:19 | when the text starts with the target, replacing its first occurrence rewrites only that prefix |
| PyText.RemoveAll | handlers/survey.py:116 | the character is gone, nothing new appears, and a text without it is unchanged |
| PyText.ShowNat | handlers/survey.py:62 | `str(n)` is non-empty decimal digits with value `n`, without a leading zero unless `n` is 0 |
| PyText.ParseShow | handlers/survey.py:53 | `int(str(n)) == n` for every integer |
| PyText.Words | handlers/admin.py:233 | `split()` gives non-empty tokens with no white space in them |
| PyText.WordsCons | handlers/admin.py:233 | a word followed by white space or the end is split off as the first token |
| PyText.Split | handlers/survey.py:32 | `split(sep)` gives at least one part, none containing the separator |
| PyText.JoinSplit | handlers/survey.py:32 | joining the parts with the separator gives the input back |
| PyText.DigitsValueLeadingZero | handlers/survey.py:32 | a leading zero does not change the value of a digit string |
| Settings.DatabaseUrl | config/settings.py:13-26 | the URL is never empty and never starts with either of the rewritten schemes |
| Settings.LegacySchemeRewritten | config/settings.py:18-19 | `postgres://` has only its prefix replaced by `postgresql+asyncpg://` |
| Settings.PlainSchemeRewritten | config/settings.py:20-21 | `postgresql://` has only its prefix replaced by `postgresql+asyncpg://` |
| Settings.OtherUrlsKept | config/settings.py:15-24 | any other non-empty URL is kept; an unset or empty variable gives the local SQLite URL |
| Settings.DatabaseUrlIdempotent | config/settings.py:18-21 | rewriting an already rewritten URL changes nothing |
| Settings.AdminChatId | config/settings.py:9 | an unset variable gives 0; the decimal text of any integer gives that integer |
| I18n.Init | middlewares/i18n.py:9-13 | exactly the `ru` and `en` tables are loaded, each from its own file |
| I18n.SelectLanguage | middlewares/i18n.py:30-36 | English exactly when a user is present with a language code starting with `en`, Russian otherwise |
| I18n.Middleware | middlewares/i18n.py:30-44 | the translator holds the loaded tables and the language chosen for the sender |
| I18n.LookupFallback | middlewares/i18n.py:39-41 | a missing key or a language without a table shows the key itself; a present key shows its template, formatted only when keyword arguments are given |
| I18n.MissingLocalesShowKeys | middlewares/i18n.py:16-22 | with neither locale file present, every lookup shows its key, whoever the user is |
| I18n.LanguageHasTable | middlewares/i18n.py:10-13 | the chosen language always has a loaded table |
| Keyboards.KeyboardCallbacks | keyboards/inline.py:3-20 | the main menu sends only `start_survey`, the back keyboard only `back`, and the skip keyboard `skip` then `back`, in two one-button rows |
| Keyboards.FilledSymbol | keyboards/inline.py:24-25 | the filled symbol is never the blank circle, and it is `emoji_list[current - 1]` for steps 1 to 7 |
| Keyboards.Cells | keyboards/inline.py:26 | exactly `count` cells; cell i (1-based) is filled when i < current, blank otherwise |
| Keyboards.ProgressBar | keyboards/inline.py:22-27 | `total` cells as above, then a space and `current/total` |
| Keyboards.CellsFilledCount | keyboards/inline.py:26 | step k shows exactly k - 1 filled cells, capped at the total |
| Keyboards.FirstAndLastBars | keyboards/inline.py:22-27 | the first prompt's bar has no filled cell; the last has six black cells and one blank |
| Throttling.Decide | middlewares/throttling.py:25-29 | throttled exactly when less than the throttle time has passed; the wait is positive and ends when the throttle time is up |
| Throttling.ThrottlingMiddleware.constructor | middlewares/throttling.py:10-13 | the throttle time is stored and no user has a timing |
| Throttling.ThrottlingMiddleware.Call | middlewares/throttling.py:21-36 | a dropped message leaves the timings unchanged; a passed one records `now` for the sender only |
| Throttling.ThrottleWindow | middlewares/throttling.py:25-36 | after a message passes at t, the same user is dropped before t + throttle time and let through from then on |
| Throttling.OtherUsersUnaffected | middlewares/throttling.py:34 | recording one user's time changes no other user's verdict |
| Throttling.UnseenUser | middlewares/throttling.py:25 | a user never seen counts as last seen at time 0 |
| Throttling.DefaultSpacing | middlewares/throttling.py:10 | with the default 1.0 s, two messages at least a second apart both pass |
| Dates.DaysInMonth | handlers/survey.py:32 | every month has 28 to 31 days, and exactly February of a leap year has 29 |
| Dates.ParseDate | handlers/survey.py:32 | every parsed date is a date `datetime` can represent |
| Dates.ParsedDateLength | handlers/survey.py:32 | text that parses as a date is 8 to 10 characters long |
| Dates.Pad2Digits | handlers/survey.py:32 | a two-digit field is two digits with value n |
| Dates.Pad4Digits | handlers/survey.py:32 | a four-digit year field is four digits with value n |
| Dates.ParsePadded | handlers/survey.py:32 | `dd.mm.yyyy` parses to that date exactly when the date exists |
| Dates.FormatParse | handlers/survey.py:32 | formatting a valid date and parsing it back gives the same date |
| Validators.ParseInRange | handlers/survey.py:53-57 | a value is returned exactly when `int()` succeeds and the value is within the bounds, inclusive |
| Validators.ShowInRange | handlers/survey.py:53-57 | the decimal text of any integer is accepted, with that value, exactly when it is in range |
| Validators.PaddedInRange | handlers/survey.py:53 | any white-space prefix and suffix around the text leave the verdict unchanged |
| Validators.RangeBoundaries | handlers/survey.py:55-97 | nights 3 and 21, adults 1 and 20, children 0 and 10 are accepted; one beyond each bound is refused |
| Validators.NonNumbersRejected | handlers/survey.py:52-68 | blank text, and any text holding a decimal point, is refused by every range |
| Validators.DecimalPointRejected | handlers/survey.py:53 | `int()` refuses any text with a decimal point |
| Validators.NormaliseBudget | handlers/survey.py:116 | the normal form has no space and no rouble sign, and only characters of the text |
| Validators.ParseBudget | handlers/survey.py:112-137 | a budget is returned exactly when the normal form is an integer of at least `MIN_BUDGET` |
| Validators.SeparatorIgnored | handlers/survey.py:116 | one space or rouble sign between two parts of the text is dropped: the budget reads the same as the joined parts |
| Validators.NormalShow | handlers/survey.py:116 | an amount, bare or followed by a space and the rouble sign, normalises to its digits |
| Validators.BudgetWithCurrency | handlers/survey.py:116-118 | any amount, with or without ` ₽`, reads as that amount exactly when it reaches the minimum |
| Validators.BudgetExamples | handlers/survey.py:116-118 | `10 000₽` and `10000` are 10000; `9999` is refused |
| Validators.CheckDate | handlers/survey.py:31-47 | invalid exactly when the stripped text does not parse; an accepted date stores the stripped text, which parses to that date |
| Validators.DateAcceptance | handlers/survey.py:34 | a parsed date is accepted exactly when it is a later day, or today at midnight exactly |
| Validators.FutureDateAccepted | handlers/survey.py:32-38 | any later day written `dd.mm.yyyy` is accepted and its text is stored |
| Validators.TodayRejected | handlers/survey.py:34 | today's date is refused as past at any moment after midnight |
| Validators.PastDateRejected | handlers/survey.py:34-36 | earlier days are refused as past |
| Validators.NonexistentDateRejected | handlers/survey.py:32-47 | a day beyond its month's length is refused as invalid, not as past |
| Validators.CalendarExamples | handlers/survey.py:32 | 29.02.2023 and 31.04.2030 are invalid; 29.02.2024 parses |
| Survey.AnsweredBeforeComment | handlers/survey.py:158-169 | at the comment step every earlier answer is stored, so the record's `data[...]` lookups cannot fail |
| Survey.Answer | handlers/survey.py:17-137 | whatever a step accepts is admissible for that step |
| Survey.WellFormedAt | handlers/survey.py:17-137 | at a survey step the invariant means: admissible answers, in order, with every earlier step answered |
| Survey.AdvanceKeeps | handlers/survey.py:20-131 | storing an accepted answer and moving to the next step keeps the invariant |
| Survey.StoreKeepsOrder | handlers/survey.py:20-131 | storing the current step's answer keeps the answered steps a prefix of the order |
| Survey.StoreKeepsAdmissible | handlers/survey.py:20-131 | storing an admissible answer keeps every answer admissible |
| Survey.NextReady | handlers/survey.py:20-131 | with the current step answered, the next step is ready to ask |
| Survey.ProcessDestination | handlers/survey.py:17-26 | any text is stored stripped, even when that is empty, with the reply echoing the raw text under bar 2; the state moves to the date step |
| Survey.AcceptedDateAdmissible | handlers/survey.py:38 | an accepted date stores the stripped text, which passes the date step's check |
| Survey.ProcessDate | handlers/survey.py:28-47 | an invalid or past date gets its own reply and changes nothing; an accepted one stores the stripped text, shows bar 3 and moves to nights |
| Survey.ProcessNights | handlers/survey.py:49-68 | outside 3..21 or not an integer gives `nights_invalid` and changes nothing; otherwise the value is stored, bar 4 shown, state adults |
| Survey.ProcessAdults | handlers/survey.py:70-89 | 1..MAX_TRAVELERS is stored with bar 5 and state children; anything else gives `adults_invalid` and changes nothing |
| Survey.ProcessChildren | handlers/survey.py:91-110 | 0..10 is stored with bar 6 and state budget; anything else gives `children_invalid` and changes nothing |
| Survey.AnswerReplyShape | handlers/survey.py:17-137 | a step's reply shows the next progress bar exactly when the step accepts the answer, with the skip keyboard after the budget and the back keyboard otherwise |
| Survey.ProcessBudget | handlers/survey.py:112-137 | the normalised amount of at least MIN_BUDGET is stored with bar 7, the skip keyboard and state comment; otherwise `budget_invalid` names the minimum and nothing changes |
| Survey.AnswerKinds | handlers/survey.py:161-171 | complete answers hold text for destination and date, and integers for the four numeric steps |
| Survey.RecordIsValid | handlers/survey.py:161-171 | the new row carries the sender's id and username and passes every check the survey made |
| Survey.StoreComment | handlers/survey.py:155 | only the comment key is written, and the invariant holds |
| Survey.Commit | handlers/survey.py:160-187 | the row gets the next id, which the counter then moves past, and is appended; the spreadsheet gets the same row exactly when reachable; failures of the sheet and the notification are caught |
| Survey.ProcessComment | handlers/survey.py:139-203 | typed text is stored stripped and skip stores `Нет комментариев`; a failed commit leaves the user at the comment step with no row and no reply; a successful one stores the row, advances the id counter by one, sends the summary and clears the FSM |
| Survey.StateMapShape | handlers/survey.py:211-219 | the back map lists every step once, in declaration order, with its predecessor |
| Survey.Unlisted | handlers/survey.py:222-228 | a state matching no entry, None included, has no predecessor |
| Survey.Listed | handlers/survey.py:222-226 | a state matching an entry has that entry's predecessor |
| Survey.FindPrev | handlers/survey.py:221-226 | the loop over the map finds the predecessor of the current state |
| Survey.BackPrompt | handlers/survey.py:241-254 | the prompt for the step gone back to shows that step's bar and the back keyboard |
| Survey.HandleBack | handlers/survey.py:205-256 | from the second step on, the state moves back one step and the answers stay; otherwise the main menu is shown and the FSM cleared |
| Start.StartWithPayload | handlers/start.py:10 | `/start`, with or without a deep-link payload, is the start command |
| Start.CmdStart | handlers/start.py:10-17 | the FSM is cleared in any state and the welcome text comes with the main menu |
| Start.StartSurvey | handlers/start.py:19-29 | the state becomes the destination step, the stored answers are kept, and bar 1 is shown with the back keyboard |
| Models.FindById | handlers/admin.py:238-239 | the row found carries the id; none is found exactly when no row has it |
| Models.Without | handlers/admin.py:282-283 | exactly the rows with other ids remain |
| Models.WithoutIncreasing | database/models.py:11 | deleting keeps the ids increasing |
| Models.WithoutRemovesOne | handlers/admin.py:275-283 | with unique ids, deleting a stored id removes exactly that row; deleting any other id changes nothing |
| Models.RequestStore.constructor | database/models.py:8-11 | an empty table whose id sequence starts at 1 |
| Models.RequestStore.Add | database/models.py:11-21 | the row gets a fresh id, larger than every stored one, and the insert-time clock, and is appended |
| Models.RequestStore.Delete | handlers/admin.py:275-283 | the row with the id, if any, is returned and removed; the id sequence is untouched |
| Models.InsertNewest | handlers/admin.py:151 | inserting into newest-first rows keeps them newest first and adds exactly that row |
| Models.SortNewestFirst | handlers/admin.py:151 | `ORDER BY created_at DESC` gives a newest-first permutation of the rows |
| Admin.CommandNamed | handlers/admin.py:31-304 | a word stands for a command only when it is a slash and that command's name |
| Admin.CommandNamedName | handlers/admin.py:31-361 | every command's own `/name` stands for that command, so the nine names are distinct |
| Admin.CommandOf | handlers/admin.py:31-304 | a recognised command is the first word of the text, a slash and the command's name |
| Admin.CommandRecognised | handlers/admin.py:31-361 | `/name`, alone or followed by white space and arguments, is recognised as that command |
| Admin.NonAdminRouting | handlers/admin.py:397-404 | a non-admin reaches no admin handler and is told "no access" exactly for `/admin`, `/stats`, `/requests` and `/export` |
| Admin.AdminRouting | handlers/admin.py:17-26 | the admin reaches every command's handler, is never told "no access", and in broadcast mode a non-command text reaches the broadcast handler |
| Admin.NonAdminCommand | handlers/admin.py:398-404 | a non-admin's `/admin`, `/stats`, `/requests` or `/export`, with any arguments, gets "no access"; the other admin commands get no reply |
| Admin.AdminCommandRuns | handlers/admin.py:31-361 | the admin's `/name`, with any arguments, runs that command's handler; only `/help_admin` in broadcast mode goes to the broadcast handler registered before it |
| Admin.RouteAdminAsWritten | handlers/admin.py:307 | as registered, the broadcast text handler is reached by nobody |
| Admin.BroadcastTextUnrouted | handlers/admin.py:307 | the admin in broadcast mode who sends `hello` reaches no handler as registered, but the broadcast handler when it is filtered by FSM state |
| Admin.RoutingsAgree | handlers/admin.py:31-404 | for other users, outside broadcast mode and for every command but `/help_admin`, the two routings agree |
| Admin.DefaultAdmin | config/settings.py:9 | with no admin id configured, only user 0 is the admin |
| Admin.ParseIdArg | handlers/admin.py:232-236 | fewer than two words give no id; an id is `int()` of the second word; no id means fewer than two words or a second word `int()` refuses |
| Admin.IdArgParsed | handlers/admin.py:233 | a command followed by the decimal text of any integer yields that integer |
| Admin.IdArgParsedWithRest | handlers/admin.py:233 | words after the id are ignored |
| Admin.IdArgAnySpelling | handlers/admin.py:233 | the second word is read exactly as `int()` reads it, so `007` and `+5` are ids too |
| Admin.IdArgMissing | handlers/admin.py:233-236 | a bare command has no id, so it gets the usage reply |
| Admin.CmdSearch | handlers/admin.py:227-261 | usage exactly when the id is missing or not an integer; otherwise the stored row with that id, or not-found when there is none |
| Admin.CmdDelete | handlers/admin.py:264-290 | usage leaves the table alone; an unknown id gives not-found with the table untouched; a known id removes exactly that row |
| Models.OrText | handlers/admin.py:173 | a non-empty value is kept; None and empty text become the fallback |
| Admin.ExportRow | handlers/admin.py:169-182 | one cell per header column |
| Admin.ExportRowColumns | handlers/admin.py:169-182 | column by column: id, user id, username or `N/A`, the answers, comment or `Нет`, creation time |
| Admin.ExportRows | handlers/admin.py:169-182 | one data row per request, in the same order |
| Admin.CmdExport | handlers/admin.py:147-182 | no file for an empty table; otherwise the fixed header and the rows of a newest-first permutation of the table |
| Admin.Recent | handlers/admin.py:120-127 | at most ten rows, newest first, drawn from the table, none older than a row left out |
| Admin.PrefixIsNewest | handlers/admin.py:124-127 | a prefix of newest-first rows is at least as new as all the rest |
| Admin.DayStart | handlers/admin.py:60 | today's midnight is at most now and less than a day before |
| Admin.Since | handlers/admin.py:62 | exactly the rows created at or after the start, each as often as in the table |
| Admin.TodayRows | handlers/admin.py:197-214 | exactly the rows created since today's midnight, as a multiset, newest first; so the count shown is the number of those rows |
| Admin.SinceMonotone | handlers/admin.py:59-78 | counting from a later start never counts more |
| Admin.WindowsNested | handlers/admin.py:59-78 | today's count is at most the week's, and the week's at most the month's |
| Admin.CmdStats | handlers/admin.py:51-89 | the period counts are the numbers of rows since midnight, seven days and thirty days ago, with today ≤ week ≤ month ≤ total = number of rows; unique users are the number of distinct user ids, at most the total; the total budget is the sum of the budgets, 0 for an empty table; the average times the count gives the total budget |
| Admin.AverageTimesCount | handlers/admin.py:85 | the average is the mean: times the count it gives back the total |
| Admin.SumBounds | handlers/admin.py:81-82 | with every budget in [lo, hi], the total lies in [n·lo, n·hi] |
| Admin.AverageWithin | handlers/admin.py:84-85 | the average budget lies between the smallest and the largest budget |
| Admin.DistinctUserIds | handlers/admin.py:317-318 | each user who filed a request appears exactly once |
| Admin.NoUsersNoRows | handlers/admin.py:320-323 | there are no recipients exactly when the table is empty |
| Admin.DistinctCount | handlers/admin.py:88-89 | there are never more unique users than requests |
| Admin.DistinctIsUsers | handlers/admin.py:88 | the distinct ids number exactly the users who filed a request |
| Admin.CmdBroadcast | handlers/admin.py:293-304 | the sender enters broadcast mode; stored data is kept |
| Admin.CountDelivered | handlers/admin.py:335-346 | no more deliveries than recipients |
| Admin.Tally | handlers/admin.py:326-346 | every recipient is attempted once, in order; successes are the deliveries, and success + failed is the number of recipients |
| Admin.ProcessBroadcast | handlers/admin.py:307-358 | `/cancel` stops with no send; an empty table stops with no send; otherwise every distinct user is attempted once and the counts are tallied; broadcast mode ends in every case |
| GoogleSheets.SheetRow | services/google_sheets.py:39-51 | the row has eleven cells |
| Admin.SheetRowIsExportRow | services/google_sheets.py:39-51 | the spreadsheet row is the CSV export row: same columns, order and fallbacks |
| GoogleSheets.Worksheet.constructor | services/google_sheets.py:37 | an empty worksheet |
| GoogleSheets.SaveToSheets | services/google_sheets.py:9-57 | when the service is reachable exactly one row is appended; otherwise nothing is, and the failure is reported to the caller |
| Dispatch.RouteText | main.py:51-52 | `/start` wins in any state; otherwise a message reaches the handler of the survey step the user is at, or none |
| Dispatch.RoutePress | main.py:51-52 | `start_survey` and `back` are handled in any state, `skip` only at the comment step |
| Dispatch.BackKeeps | handlers/survey.py:205-236 | going back keeps the invariant |
| Dispatch.FinishKeeps | handlers/survey.py:155-203 | the comment step keeps the invariant whether or not the commit succeeds |
| Dispatch.TransitionKeeps | main.py:39-52 | every update keeps the invariant |
| Dispatch.RunKeeps | main.py:39-52 | after any sequence of updates the stored answers are admissible, in order and complete up to the current step |
| Dispatch.IdleValid | main.py:35 | a user not seen before satisfies the invariant |
| Dispatch.StartResets | handlers/start.py:10-17 | `/start`, with or without a payload, resets the context in every state |
| Dispatch.RejectedAnswerKeepsContext | handlers/survey.py:52-137 | an answer the step refuses leaves the context exactly as it was |
| Dispatch.AcceptedAnswerAdvances | handlers/survey.py:20-131 | an accepted answer is stored under its step and the next step is asked |
| Dispatch.BackGoesToPrevious | handlers/survey.py:211-236 | back from any step but the first goes to the step before, answers kept |
| Dispatch.AnswerThenBack | handlers/survey.py:20-236 | an accepted answer followed by back returns to the same step with the answer kept |
| Dispatch.BackThenAnswer | handlers/survey.py:20-236 | back lands on the step before with the answers kept; a new accepted answer there overwrites only that step's answer and leads forward to the step again |
| Dispatch.BackFromFirstStep | handlers/survey.py:228-234 | back at the first step, or outside the survey, clears the context |
| Dispatch.SkipOutsideComment | handlers/survey.py:140 | skip outside the comment step reaches no handler and changes nothing |
| Dispatch.TextOutsideSurvey | main.py:51-52 | a text other than `/start`, outside any survey step, changes nothing |
| Dispatch.CommitRetry | handlers/survey.py:173-203 | after a failed commit the user is still at the comment step and a second comment can finish the survey |
| Dispatch.ProcessAnswer | handlers/survey.py:17-137 | the handler of the current step: a refused answer changes nothing; an accepted one is stored and the state moves to the next step; the reply is that step's reply (`Survey.AnswerReply`) |
| Dispatch.OnText | main.py:39-52 | a message past the throttle changes the context as the transition function says; the table gets one valid row with the next id, the id counter grows by one, and the spreadsheet gets that row when reachable, only when the message finishes the survey with a successful commit, and none of them changes otherwise; the answer is the welcome for `/start`, the step's reply, the summary after a commit, and nothing after a failed commit or for a text no handler takes |
| Dispatch.OnPress | main.py:40-52 | a button press likewise, with the same table, id counter and spreadsheet effects for skip; the answer is the first question for start_survey, the summary after a committed skip, the earlier step's prompt or the main menu for back, and nothing for an unhandled press or a failed commit |
| Dispatch.IgnoredTextUntouched | main.py:41 | a text no handler takes (not `/start`, outside any survey step) never meets the inner throttling middleware, is never dropped, gets no answer and leaves the context as it was |
| Dispatch.Handle | main.py:39-52 | only a message some handler takes meets the throttle; a dropped one gets the notice with the seconds left and changes neither the context, the table, the id counter, the spreadsheet nor the timings; any other update makes the transition with its answer and its table, id counter and spreadsheet effects; a message that passes records its time for the sender, and nothing else changes the timings; the invariant and the table's validity hold afterwards |

## Left out

- Polling, the bot session, the engine and session setup of `database/database.py` and `main.py`: these are I/O. A handler is a sequential, atomic step; `await` and `run_in_executor` are not modelled.
- `notify_admin`: `services/notification.py` defines no such function, so the import in `handlers/survey.py` has nothing to bind. The notification is an abstract effect: the flag `notifyOk`, whose failure is caught like the source's `try`.
- `services/notification.py`: its `send_to_sheets` is not called anywhere, so it is not part of this model.
- `database/__init__.py` and `middlewares/__init__.py`: they import modules that do not exist, and there is nothing to model.
- The admin router is not registered in `main.py`. `Dispatch` therefore routes only the start and survey routers, and `Admin` is modelled on its own.
- Formatting libraries are not modelled: HTML texts, `str.format`, `strftime`, csv quoting, the UTF-8 BOM, the export file name, and the texts of `/admin` and `/help_admin`.
  - A creation time stays a clock value in every row.
  - A translated message is a template plus its keyword arguments.
- Telegram calls are not modelled: `edit_text` and `answer` are not told apart, `callback.answer()` is omitted, and the broadcast status message is omitted.
- Messages without text, such as photos or stickers: every message in the model has a text. In the source `message.text.strip()` raises on them.
- Locale file loading: a locale file is a parsed table or missing.
- SQL aggregation beyond counts and filters over the table is not modelled. The other queries read the model's table; SQLite's reuse of a deleted row's id is not modelled.
- Throttling.Decide: the wait is the exact remaining time, not the value rounded to one decimal that the notice shows.
- Throttling.ThrottlingMiddleware.Call: time is a real parameter; floating-point `time.time()` is not modelled.
- Admin.CmdStats: the average is an exact real quotient, without float division or the `:,` formatting, and the top-5 destinations are not computed.
- Admin.DistinctUserIds: the order in which the database returns distinct ids is not specified by the source; the model fixes one order.
- Models.SortNewestFirst: the order of rows with equal creation times is not stated.
- Start.IsStart: the first word must be exactly `/start`; the form `/start@botname`, which aiogram's command filter also accepts, is not recognised.
- Admin.CommandOf: the form `/cmd@botname`, which aiogram's `Command` filter also accepts, is not recognised. In the source, in broadcast mode, the admin's `/stats@botname` still runs `/stats`, and a non-admin's `/admin@botname` gets the no-access reply. The model broadcasts the first text and leaves the second unhandled.
- Admin.CmdSearch, Admin.CmdDelete: an id beyond the range of the database's `Integer` column makes the query raise, and the handler then sends no reply. The range is 32 bits on PostgreSQL and 64 bits on SQLite. The model searches its table and answers not-found.
- Survey.Commit, Survey.ProcessComment: the `Integer` columns of `database/models.py` are not bounded in `Survey.ValidFields`. On PostgreSQL they are 32 bits, so a Telegram user id of 2^31 or more fails every commit. So does a budget above 2147483647, which `Validators.ParseBudget` accepts since it has no upper bound. The model leaves this to the `commitOk` parameter and does not tie `commitOk` to the values.

- PyText.PyInt: only an optional sign and ASCII digits. Python's `int()` also takes underscores and Unicode digits.
- Dates.ParseDate: only one- or two-digit day and month and a four-digit year of ASCII digits. `strptime`'s other leniencies, such as space-padded fields, are not modelled.
- Survey.Admissible: the comment step's stored value is only required to be a text, not compared with the comment that was sent.
- Models.FitsDeclaredLengths: the destination's 200-character limit is not checked by the survey. A database that refuses an over-long value is the failed-commit path (`commitOk` false).
- The three clocks (`Clock` for the date step, `seconds` for the throttle, `ticks` for the creation time) are separate parameters, and the model does not relate them.

## Findings

| source | as written | input that shows it | evidently intended | confidence | as-written member | corrected member |
|---|---|---|---|---|---|---|
| handlers/admin.py:307 | `process_broadcast` is registered with the filter `F.state == "broadcast_waiting"`. That tests an attribute of the message, which has none, so no message ever reaches the handler. | The admin sends `/broadcast`, then the text `hello` while the FSM state is `broadcast_waiting`: no handler runs and nothing is sent. | Filter on the FSM state (a state filter for `broadcast_waiting`), so that the next admin message is broadcast. | not executed; relies on aiogram's magic filter treating a missing attribute as no match | Admin.RouteAdminAsWritten, Admin.BroadcastTextUnrouted | Admin.RouteAdmin, with Admin.AdminRouting and Admin.ProcessBroadcast |
