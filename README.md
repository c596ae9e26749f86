# ai-tracker core, modelled in Dafny

ai-tracker is a productivity web app: a task board, a focus room with a breathing exercise and
a countdown, dashboard statistics built from recorded focus sessions, an AI chat coach, a
workflow editor, and a route guard in front of the signed-in pages. Most of it is UI over a
hosted database and an LLM API. This project models the self-contained rules inside it:

- `StatsCalculator` (stats.dfy): `calculateStats`, the reduction from focus sessions to total
  minutes, completed sessions and distinct active days, with the local-date conversion as a
  function parameter `dayKey`.
- `Chat` (chat.dfy): the `useChat` hook as a class whose fields are the transcript, the draft,
  the loading flag and the dictation flag. A submit is one method call that runs the whole turn
  against a given reply (a failure, or a list of text chunks) and returns every transcript it
  publishes. Speech recognition is a flag saying whether a recognizer exists, plus one method
  per event.
- `FocusPage` (focus_page.dfy): the focus page's intent, breathing, focus, completion and
  reflection machine; one `Tick` is one second of the interval. Also the saved duration and the
  integrity-score rule.
- `FocusRoom` (focus_room.dfy): the focus room's IDLE, SETUP, ACTIVE and COMPLETE machine, and
  `formatTime`.
- `Breathing` (breathing.dfy): the inhale, hold, exhale cycle counter, as pure step functions
  and as a class whose `Fire` is one timeout.
- `FocusTimer` (focus_timer.dfy): the timer's `MM:SS` read-out and status label.
- `StatsOverview` (stats_overview.dfy): the value strings of the four dashboard cards.
- `TaskBoard` (task_board.dfy): toggle, optimistic prepend, replace-by-id and the today/wishlist
  partition, as list functions and as a class `Board` holding the task list.
- `WorkflowForm` (workflow_form.dfy): the new-workflow form's action list edits and the
  suggestion rule. The rows are objects because the page edits a row in place.
- `RouteGuard` (route_guard.dfy): the redirect decision of `middleware.ts` and `proxy.ts`, and
  their path matcher.
- Support modules: `Wrappers` (`Option`), `Text` (JavaScript `trim`, `padStart`, decimal
  rendering with its parse-back), `JsMath` (`Math.floor`, `Math.round` and the truncating `%`
  on integers), `Seqs` (filter and sum over sequences, with their permutation lemmas).

Clocks, random ids and the network are parameters: message ids, temporary task ids, timestamps
and replies are passed in by the caller.

## Model

| member | source | states |
|---|---|---|
| StatsCalculator.CalculateStats | src/lib/stats-calculator.ts:9-33 | empty input gives all zeros; at most one completed session per input session; distinct days never exceed completed sessions, and are zero exactly when no session is completed |
| StatsCalculator.StatsMeaning | src/lib/stats-calculator.ts:18-22 | sessionsCompleted is the number of sessions flagged completed; totalFocusMinutes is the floor of the completed sessions' seconds (a missing duration counting 0) over 60 |
| StatsCalculator.FilterCountMasked | src/lib/stats-calculator.ts:18-21 | filtering then counting or summing equals summing a per-session mask over the whole list |
| StatsCalculator.DayKeys | src/lib/stats-calculator.ts:25 | the key set is no larger than the list and holds every session's day key |
| StatsCalculator.DayKeysMembers | src/lib/stats-calculator.ts:25-26 | a key is in the set exactly when some session has it |
| StatsCalculator.DayKeysPermutation | src/lib/stats-calculator.ts:25-26 | reordering the sessions leaves the day set unchanged |
| StatsCalculator.StatsPermutation | src/lib/stats-calculator.ts:18-26 | reordering the sessions leaves the whole result unchanged |
| StatsCalculator.StatsIgnoreIncomplete | src/lib/stats-calculator.ts:18 | appending an incomplete session changes nothing |
| StatsCalculator.StatsAddCompleted | src/lib/stats-calculator.ts:18-26 | appending a completed session adds one to the count, its seconds to the total, and a day only if its key is new |
| StatsCalculator.MinutesNonNegative | src/lib/stats-calculator.ts:21-22 | non-negative durations give non-negative minutes |
| StatsCalculator.MaskedSumNonNegative | src/lib/stats-calculator.ts:21 | non-negative durations give a non-negative completed-seconds total |
| StatsCalculator.ExampleEmpty | src/lib/stats-calculator.test.ts:6-13 | no sessions give 0, 0, 0 |
| StatsCalculator.ExampleTotalMinutes | src/lib/stats-calculator.test.ts:15-23 | two completed 1500 s sessions give 50 minutes and 2 sessions |
| StatsCalculator.ExampleIgnoresIncomplete | src/lib/stats-calculator.test.ts:25-33 | 1500 s completed plus 3000 s incomplete give 25 minutes and 1 session |
| StatsCalculator.ExampleUniqueDays | src/lib/stats-calculator.test.ts:35-43 | two sessions on one day and one on the next give a streak of 2 |
| Chat.Concat | src/hooks/use-chat.tsx:95-96 | the assistant text is as long as all the decoded chunks together |
| Chat.ConcatAppend | src/hooks/use-chat.tsx:92-96 | the text of two chunk runs is the text of the first followed by the second |
| Chat.ConcatPrefix | src/hooks/use-chat.tsx:92-102 | the assistant text after k chunks is a prefix of the final text |
| Chat.AppendDictation | src/hooks/use-chat.tsx:28 | the result starts with the draft, ends with the transcript, and has a single space between them exactly when the draft is non-empty |
| Chat.AfterTurn | src/hooks/use-chat.tsx:83-102 | a reply with a body adds one assistant message holding all chunks in order; every other ending adds nothing; earlier messages are kept |
| Chat.ChatController.constructor | src/hooks/use-chat.tsx:12-16 | empty transcript and draft, both flags down |
| Chat.ChatController.InputChange | src/hooks/use-chat.tsx:60-62 | the draft becomes the typed value, nothing else changes |
| Chat.ChatController.Submit | src/hooks/use-chat.tsx:64-109 | a blank draft changes nothing and sends nothing; otherwise the request carries the old transcript plus the untrimmed user message, the draft is cleared, loading ends false, the last published transcript after k chunks ends in one assistant message of the first k chunks, and the final transcript is AfterTurn |
| Chat.ChatController.SendTurn | src/hooks/use-chat.tsx:68-109 | the user message holds the draft as typed after the old transcript and is what is sent; the draft is cleared, loading ends false, and the final transcript is AfterTurn, with the transcript after k chunks published in order |
| Chat.ChatController.StreamChunks | src/hooks/use-chat.tsx:86-102 | one assistant message is opened after the transcript; after k chunks the published transcript ends in that message holding the first k chunks in arrival order, earlier messages unchanged, and the last one holds them all |
| Chat.ChatController.ToggleListening | src/hooks/use-chat.tsx:45-58 | no recognizer: alert and no change; listening: stop and flag down; otherwise start and flag up |
| Chat.ChatController.OnResult | src/hooks/use-chat.tsx:26-30 | called only on a controller with a recognizer; the transcript joins the draft and listening stops |
| Chat.ChatController.OnError | src/hooks/use-chat.tsx:32-35 | called only on a controller with a recognizer; listening stops, the draft is kept |
| Chat.ChatController.OnEnd | src/hooks/use-chat.tsx:37-39 | called only on a controller with a recognizer; listening stops, the draft is kept |
| Chat.StreamExample | src/hooks/use-chat.tsx:92-102 | chunks "Hel", "lo", "!" build "Hel", "Hello", "Hello!" |
| FocusPage.TickValue | src/app/focus/page.tsx:34-37 | a tick lowers a positive countdown by exactly 1 and never goes below 0 |
| FocusPage.Countdown | src/app/focus/page.tsx:31-50 | from t seconds the countdown shows t - k after k ticks, reaching 0 exactly at the t-th tick |
| FocusPage.CountdownStaysZero | src/app/focus/page.tsx:34-35 | once at zero, further ticks keep it at zero |
| FocusPage.SavedDuration | src/app/focus/page.tsx:69-75 | the full duration when completed, the elapsed time when ended early; within [0, duration] when 0 <= timeLeft <= duration |
| FocusPage.PriorScore | src/app/focus/page.tsx:87 | a missing or zero stored score reads as 100, any other value as itself |
| FocusPage.NewScore | src/app/focus/page.tsx:87-92 | completed gives min(100, s + 2), ended early gives max(0, s - 5), where s is the prior score; a score in [0, 100] stays in [0, 100] |
| FocusPage.EarlyEndsFromFull | src/app/focus/page.tsx:87-92 | n early endings from a fresh score leave 100 - 5n, for n up to 20 |
| FocusPage.EarlyEndsRebound | src/app/focus/page.tsx:87-92 | twenty early endings reach 0, and the twenty-first reads that 0 as 100 and saves 95 |
| FocusPage.FocusRoomPage.constructor | src/app/focus/page.tsx:18-25 | intent state, 25-minute default, timer stopped, nothing saved |
| FocusPage.FocusRoomPage.SetIntent | src/app/focus/page.tsx:156-158 | the intent becomes the typed value |
| FocusPage.FocusRoomPage.ChooseDuration | src/app/focus/page.tsx:164-166 | the duration becomes 25, 50 or 90 minutes in seconds |
| FocusPage.FocusRoomPage.StartBreathing | src/app/focus/page.tsx:53-56 | breathing begins exactly when the trimmed intent is non-empty |
| FocusPage.FocusRoomPage.StartFocus | src/app/focus/page.tsx:58-63 | countdown set to the duration, start time recorded, focus state, timer running |
| FocusPage.FocusRoomPage.Save | src/app/focus/page.tsx:65-80 | with a start time, one row with the intent, the saved duration and the outcome is recorded; without one, nothing |
| FocusPage.FocusRoomPage.Tick | src/app/focus/page.tsx:30-50 | outside an active focus nothing changes; in focus the countdown drops by 1, and on reaching 0 the timer stops, completion shows and one completed session of the full duration is saved |
| FocusPage.FocusRoomPage.EndEarly | src/app/focus/page.tsx:98-103 | the timer stops, reflection shows and one incomplete session of the elapsed time is saved |
| FocusPage.FocusRoomPage.BeginAgain | src/app/focus/page.tsx:226-236 | completion or reflection returns to intent |
| FocusRoom.FormatTime | src/components/focus/focus-room-impl.tsx:60-64 | padded minutes, a colon, padded seconds: at least five characters |
| FocusRoom.FormatTimeIsTimerText | src/components/focus/focus-room-impl.tsx:60-64 | the room's text equals the focus timer's read-out |
| FocusRoom.RenderedFields | src/components/focus/focus-timer.tsx:86 | the first two characters are the minutes field, the ones after the colon the seconds field |
| FocusRoom.FormatTimeShape | src/components/focus/focus-room-impl.tsx:60-64 | below 6000 s the text is five characters, ':' at index 2, two digit fields whose minutes * 60 + seconds give back the input |
| FocusRoom.FocusRoomMachine.constructor | src/components/focus/focus-room-impl.tsx:36-40 | IDLE, empty intention, 25 minutes, 1500 s left |
| FocusRoom.FocusRoomMachine.Settle | src/components/focus/focus-room-impl.tsx:66-76 | a zero countdown forces COMPLETE in any state; otherwise the state is kept |
| FocusRoom.FocusRoomMachine.BeginRitual | src/components/focus/focus-room-impl.tsx:126 | IDLE moves to SETUP |
| FocusRoom.FocusRoomMachine.SetIntention | src/components/focus/focus-room-impl.tsx:149 | the intention becomes the typed value |
| FocusRoom.FocusRoomMachine.ChooseDuration | src/components/focus/focus-room-impl.tsx:156-159 | the duration becomes 15, 25, 45 or 60 minutes |
| FocusRoom.FocusRoomMachine.StartSession | src/components/focus/focus-room-impl.tsx:54-58 | only the empty intention is refused (spaces pass); otherwise duration * 60 seconds and ACTIVE |
| FocusRoom.FocusRoomMachine.Tick | src/components/focus/focus-room-impl.tsx:66-74 | ACTIVE with time left: exactly one second fewer, COMPLETE when it hits 0; otherwise no change |
| FocusRoom.FocusRoomMachine.ToggleBreathing | src/components/focus/focus-room-impl.tsx:237 | flips the guided-breath panel |
| FocusRoom.FocusRoomMachine.ExitRoom | src/components/focus/focus-room-impl.tsx:245 | ACTIVE moves to IDLE with the countdown kept |
| FocusRoom.FocusRoomMachine.ReEnterFlow | src/components/focus/focus-room-impl.tsx:72-73 | "Re-enter Flow" sets IDLE but the zero countdown forces COMPLETE back; every method keeps "COMPLETE exactly when 0 s left", so the room never leaves COMPLETE |
| Breathing.Step | src/components/focus/breathing-circle.tsx:21-30 | inhale to hold to exhale to inhale; the cycle count rises by 1 exactly on exhale to inhale |
| Breathing.RunFromCycleStart | src/components/focus/breathing-circle.tsx:14-30 | k steps from the start of a cycle reach phase k mod 3 and k / 3 more cycles |
| Breathing.NineStepsToComplete | src/components/focus/breathing-circle.tsx:9-30 | from the start a timeout is pending for exactly the first 9 steps, which end at 3 cycles |
| Breathing.Scheduled | src/components/focus/breathing-circle.tsx:14-17 | a timeout is pending only below three cycles, so the step it makes never passes three |
| Breathing.Run | src/components/focus/breathing-circle.tsx:11-30 | the cycle count never falls and never passes three when it starts at most three; nothing happens once no timeout is pending |
| Breathing.CycleNumber | src/components/focus/breathing-circle.tsx:76 | min(cycles + 1, 3), in [1, 3] for a non-negative count |
| Breathing.PhaseText | src/components/focus/breathing-circle.tsx:35-39 | "Inhale...", "Hold...", "Exhale..." for the three phases, and only for them |
| Breathing.EffectAsWritten | src/components/focus/breathing-circle.tsx:11-17 | waits while a timeout is scheduled; at three cycles calls the callback, or throws when the parent passed none |
| Breathing.Effect | src/components/focus/breathing-circle.tsx:11-17 | the guarded call never throws, agrees with the code as written whenever a callback exists, and stops quietly at three cycles without one |
| Breathing.RoomCircleThrows | src/components/focus/focus-room-impl.tsx:218 | the focus room's callback-less circle waits for eight timeouts and throws after the ninth |
| Breathing.RoomCircleStops | src/components/focus/breathing-circle.tsx:14-17 | with the guard, the callback-less circle stops after nine timeouts and a circle with a callback calls it then |
| Breathing.BreathingCircle.constructor | src/components/focus/breathing-circle.tsx:6-8 | inhale, zero cycles, no completion call, and whether the parent passed a callback |
| Breathing.BreathingCircle.Fire | src/components/focus/breathing-circle.tsx:11-33 | one Step, then the guarded effect; the callback is called once, when the third cycle ends |
| FocusTimer.SplitRoundTrip | src/components/focus/focus-timer.tsx:26-27 | for a non-negative time, seconds in [0, 59] and minutes * 60 + seconds gives the time |
| FocusTimer.MinutesPart | src/components/focus/focus-timer.tsx:26 | the largest m with m * 60 <= timeLeft, non-negative for a non-negative time |
| FocusTimer.SecondsPart | src/components/focus/focus-timer.tsx:27 | in [0, 59] for a non-negative time, in [-59, 0] for a negative one, and congruent to the time modulo 60 |
| FocusTimer.StatusLabel | src/components/focus/focus-timer.tsx:89 | "Deep Focus" exactly when active, "Paused" exactly when not |
| FocusTimer.Rendered | src/components/focus/focus-timer.tsx:86 | the minutes field, ":", the seconds field, each recoverable by position |
| FocusTimer.PadTwo | src/components/focus/focus-timer.tsx:28-29 | a padded field has at least two characters |
| FocusTimer.Display | src/components/focus/focus-timer.tsx:26-89 | both fields at least two characters; the label is "Deep Focus" exactly when active, else "Paused" |
| FocusTimer.ParseLeadingZero | src/components/focus/focus-timer.tsx:28-29 | a padding zero does not change the value read back |
| FocusTimer.PadTwoNat | src/components/focus/focus-timer.tsx:28-29 | a number below 100 pads to two digits that read back to it |
| FocusTimer.RenderedShape | src/components/focus/focus-timer.tsx:86 | two two-character fields make five characters with ':' at index 2 |
| FocusTimer.DisplayShape | src/components/focus/focus-timer.tsx:26-86 | below 6000 s the read-out is five characters that read back to the time |
| FocusTimer.DisplayLong | src/components/focus/focus-timer.tsx:26-86 | from 6000 s on the minutes field has three or more characters |
| StatsOverview.IntegrityValue | src/components/dashboard/stats-overview.tsx:19 | the score's digits followed by "%" |
| StatsOverview.SessionsValue | src/components/dashboard/stats-overview.tsx:33 | the decimal digits of the count |
| StatsOverview.StreakValue | src/components/dashboard/stats-overview.tsx:40 | the day count's digits followed by " Days" |
| StatsOverview.HoursPart | src/components/dashboard/stats-overview.tsx:26 | the nearest whole hour: 60 h - 30 <= m < 60 h + 30 |
| StatsOverview.LeftoverMinutes | src/components/dashboard/stats-overview.tsx:26 | JavaScript m % 60: in [0, 59] for m >= 0, in [-59, 0] for m <= 0, congruent to m modulo 60 |
| StatsOverview.FocusTimeValue | src/components/dashboard/stats-overview.tsx:26 | for m >= 0: digits reading back to the rounded hours, "h ", digits reading back to m % 60, "m" |
| StatsOverview.Cards | src/components/dashboard/stats-overview.tsx:14-45 | four cards, in order integrity, focus time, sessions, streak |
| StatsOverview.HoursRoundHalfUp | src/components/dashboard/stats-overview.tsx:26 | the hour part rounds half up (one more than the floor when 30 or more minutes remain); the minute part (`LeftoverMinutes`) is m % 60 in [0, 59] |
| StatsOverview.FocusTimeExactIff | src/components/dashboard/stats-overview.tsx:26 | the two parts add back to m exactly when fewer than 30 minutes remain, else to m + 60 |
| StatsOverview.NinetyMinutes | src/components/dashboard/stats-overview.tsx:26 | 90 minutes render "2h 30m" |
| TaskBoard.ToggledStatus | src/components/dashboard/task-board.tsx:24 | todo exactly when it was done, done for every other status |
| TaskBoard.SetStatusById | src/components/dashboard/task-board.tsx:26-28 | same length; matching tasks get the status, others are kept |
| TaskBoard.ReplaceById | src/components/dashboard/task-board.tsx:59 | same length; matching tasks become the server row, others are kept |
| TaskBoard.ToggleOnlyTarget | src/components/dashboard/task-board.tsx:22-28 | toggling changes only the status of tasks with the id; length, order and other tasks are kept |
| TaskBoard.ToggleTwiceRestores | src/components/dashboard/task-board.tsx:24-28 | toggling a done task and toggling it back restores the list |
| TaskBoard.ReplaceAfterPrepend | src/components/dashboard/task-board.tsx:47-59 | with a fresh temporary id, the server reply replaces exactly the prepended task |
| TaskBoard.ZoneMembership | src/components/dashboard/task-board.tsx:66-67 | today holds exactly the todo and done tasks, wishlist exactly the wishlist tasks, in-progress tasks neither |
| TaskBoard.ZonesKeepOrder | src/components/dashboard/task-board.tsx:66-67 | both zones distribute over concatenation, so they keep list order |
| TaskBoard.ZonesPartition | src/components/dashboard/task-board.tsx:66-67 | today, wishlist and in-progress counts add up to the list length |
| TaskBoard.TodayTasks | src/components/dashboard/task-board.tsx:66 | only todo and done tasks, no more than the board holds |
| TaskBoard.WishlistTasks | src/components/dashboard/task-board.tsx:67 | only wishlist tasks, no more than the board holds |
| TaskBoard.OpenCount | src/components/dashboard/task-board.tsx:78 | the Today badge is at most the Today column length, itself at most the board size |
| TaskBoard.OpenCountIsTodo | src/components/dashboard/task-board.tsx:66-78 | the Today badge counts exactly the todo tasks |
| TaskBoard.Board.constructor | src/components/dashboard/task-board.tsx:17-19 | the given tasks and no open add form |
| TaskBoard.Board.OpenAddForm | src/components/dashboard/task-board.tsx:86 | the add form opens in the zone; tasks unchanged |
| TaskBoard.Board.CancelAdd | src/components/dashboard/task-board.tsx:100 | the add form closes; tasks unchanged |
| TaskBoard.Board.Toggle | src/components/dashboard/task-board.tsx:22-32 | the list becomes SetStatusById with the toggled status, and that status is the update sent |
| TaskBoard.Board.Add | src/components/dashboard/task-board.tsx:34-48 | a blank title changes nothing; otherwise one medium-priority task of the zone's status and the given title is prepended and the form closes |
| TaskBoard.Board.ResolveAdd | src/components/dashboard/task-board.tsx:57-63 | a server row replaces the temporary task; a failure keeps the optimistic task |
| Seqs.RemoveAt | src/app/workflows/new/page.tsx:44-48 | one element fewer; those before the index kept, those after shifted down by one |
| Seqs.RemoveAtMultiset | src/app/workflows/new/page.tsx:44-48 | the rows left are the original multiset less one occurrence of the removed row |
| WorkflowForm.SubmitDisabled | src/app/workflows/new/page.tsx:211 | disabled while pending or while the name or trigger is empty; enabled otherwise, spaces included |
| WorkflowForm.WorkflowAction.constructor | src/app/workflows/new/page.tsx:40 | a row with the given type and description |
| WorkflowForm.NewWorkflowForm.Descriptions | src/app/workflows/new/page.tsx:50-54 | the rows' descriptions in order |
| WorkflowForm.DescriptionsOf | src/app/workflows/new/page.tsx:50-54 | one description per row, in order |
| WorkflowForm.NewWorkflowForm.constructor | src/app/workflows/new/page.tsx:18-25 | an empty form, not suggesting, no tools |
| WorkflowForm.NewWorkflowForm.ToolsLoaded | src/app/workflows/new/page.tsx:29-35 | the tool names are kept when the query returns data |
| WorkflowForm.NewWorkflowForm.AddAction | src/app/workflows/new/page.tsx:37-42 | one new empty "action" row at the end; existing rows kept |
| WorkflowForm.NewWorkflowForm.RemoveAction | src/app/workflows/new/page.tsx:44-48 | exactly the row at the index is removed |
| WorkflowForm.NewWorkflowForm.ChangeAction | src/app/workflows/new/page.tsx:50-54 | the same row objects stay in the list, and only the indexed row's description changes |
| WorkflowForm.NewWorkflowForm.GetSuggestions | src/app/workflows/new/page.tsx:56-85 | no tools: alert, no request, no change; otherwise the tool names are sent, busy is shown while waiting and cleared after, and a non-empty list replaces the whole form with its first entry (actions defaulting to none) |
| RouteGuard.Decide | src/middleware.ts:50-61 | redirect to /login exactly outside demo mode with no session on a protected prefix; to /dashboard exactly with a session on "/login"; pass through otherwise |
| RouteGuard.Middleware | src/middleware.ts:4-62 | crashes exactly when the session lookup throws; in development never redirects to /login; a signed-in "/login" goes to /dashboard; outside development a signed-out protected path goes to /login |
| RouteGuard.Proxy | src/proxy.ts:42-63 | never crashes; a failed session lookup passes through |
| RouteGuard.RunMiddleware | src/middleware.ts:64-66 | paths the matcher excludes pass through |
| RouteGuard.RunProxy | src/proxy.ts:66-68 | excluded paths pass through, and nothing crashes |
| RouteGuard.MatcherSelects | src/middleware.ts:64-66 | every protected path and "/login" run the guard; no "/_next/static" or "/_next/image" path does |
| RouteGuard.Excluded | src/proxy.ts:66-68 | the excluded remainders begin with "_next" or "favicon" and include both `_next` asset prefixes |
| RouteGuard.TailExcluded | src/proxy.ts:66-68 | behind the leading "/", a protected page or "/login" is never excluded and a `_next` asset always is |
| RouteGuard.DemoBypass | src/middleware.ts:50-57 | in development no request is sent to /login, while a signed-in "/login" still goes to /dashboard |
| RouteGuard.ProxyAgreesWithMiddleware | src/proxy.ts:50-59 | outside demo mode, with a successful lookup, the proxy decides as the middleware does |
| RouteGuard.LookupFailure | src/proxy.ts:60-63 | a failed lookup crashes the middleware and passes through the proxy |
| RouteGuard.RedirectsExclusive | src/middleware.ts:52-57 | the two redirect rules never both apply |
| RouteGuard.PrefixMatching | src/middleware.ts:52-57 | "/focusroom" is protected; "/login/x" is not redirected; the signed-in dashboard passes |
| RouteGuard.MatcherExamples | src/middleware.ts:65 | _next/static, _next/image and favicon.ico are excluded; /dashboard and /login run the guard |
| Text.Trim | src/hooks/use-chat.tsx:66 | the result is the slice of the input between a white-space prefix and a white-space suffix, and neither of its ends is white space |
| Text.TrimEmptyIffBlank | src/hooks/use-chat.tsx:66 | the trimmed text is empty exactly when every character is white space |
| Text.PadStart | src/components/focus/focus-timer.tsx:28-29 | the width or the input's length, whichever is larger; the input at the end, fill before it |
| Text.IntToString | src/components/dashboard/stats-overview.tsx:33 | digits exactly for non-negative numbers, a minus sign before the digits otherwise |
| Text.ParseNatToString | src/components/dashboard/stats-overview.tsx:33 | reading the decimal text back gives the number |
| Text.NatToStringLength | src/components/focus/focus-timer.tsx:28-29 | one digit below 10, two up to 99, three or more from 100 |
| JsMath.FloorDiv | src/components/focus/focus-timer.tsx:26 | the largest q with q * b not above a |
| JsMath.Rem | src/components/focus/focus-timer.tsx:27 | JavaScript's %: magnitude below b, the sign of a, and a = trunc(a / b) * b + r |
| JsMath.RoundDiv | src/components/dashboard/stats-overview.tsx:26 | Math.round(a / b): the nearest integer, halves rounded up |
| Seqs.FilterPermutation | src/lib/stats-calculator.ts:18 | filtering a reordered list gives a reordering of the filtered list |
| Seqs.SumPermutation | src/lib/stats-calculator.ts:21 | a sum does not depend on the order of the list |

## Left out

- Database calls: sign-in, session lookup, inserts, updates and the integrity-score read and write are outside the model. Their results are parameters (`SessionLookup`, the server row in `Board.ResolveAdd`, the stored score in `FocusPage.NewScore`), and the page's own `saveSession` is modelled up to the row it would insert.
- FocusPage.FocusRoomPage.Save: the signed-in user check and the profile check are database results and are not modelled; a save is recorded whenever a start time exists.
- The LLM endpoints and their prompt templates: the chat reply and the suggestion reply are given values.
- `fetch`, `ReadableStream` and `TextDecoder`: a reply is a failure, a missing body, or a list of already-decoded chunks; how bytes split across chunks is not modelled.
- Chat.ChatController.Submit: the turn is one atomic call, so the hook's lack of a guard against a second submit while loading shows only as a missing precondition; interleaved turns are not modelled. The loading flag is shown true in the view for the whole turn; the model states only its final value.
- Speech recognition: only its start and stop calls and its result, error and end events are modelled.
- Timers: `setInterval` and `setTimeout` are explicit `Tick` and `Fire` calls. The focus room's random mentor message is left out.
- Breathing.BreathingCircle.Fire: the callback is called again if the effect re-runs with a new callback identity; that re-run is not modelled. The class uses the guarded call (see Findings).
- Local dates: `toDateString()` is the `dayKey` parameter; time zones are outside the model.
- Floating point: the timer's progress ring and the audio volume are not modelled; all arithmetic is on integers.
- Rendering, styling, fullscreen, audio and local storage.
- The workflow form's `handleSubmit` and `createWorkflowAction` are database calls and are not modelled; only the button's disabled rule is.
- WorkflowForm.NewWorkflowForm.GetSuggestions: the JSON reply is assumed to hold distinct row objects, as parsing produces.
- Handlers rendered in only one screen state (the focus-page and focus-room buttons, the row edits of the workflow form) require that state or a valid index, since only those controls call them.
- StatsCalculator.CalculateStats: a null `sessions` argument is not modelled; the model takes a list.
- The middleware's and proxy's cookie callbacks are request plumbing and are not modelled.

## Findings

| source | as written | input that shows it | evidently intended | confidence | as-written member | corrected member |
|---|---|---|---|---|---|---|
| src/components/focus/breathing-circle.tsx:14-17 | at three cycles the effect calls `onComplete()` unconditionally; `onComplete` is a required prop, so the focus room's `<BreathingCircle />` with no `onComplete` (src/components/focus/focus-room-impl.tsx:218) is a TypeScript error, and the call throws when that page runs anyway (under `next dev`, or a build that skips type errors) | "Guided Breath" left open for nine four-second timeouts in the focus room | the circle stops quietly when no callback is given (`onComplete?.()`) | not executed | Breathing.RoomCircleThrows | Breathing.RoomCircleStops |
