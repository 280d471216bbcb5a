# Teams auto-join bot: a verified model of its scheduling core

`auto_join_teams.py` keeps a list of meeting records (`SCHEDULES`). Each record has a date, a start minute and a Microsoft Teams link. The bot does four things with that list:

- It takes commands as LINE text messages through a webhook:
  - `DD HH:MM` moves the meeting on day DD of the current month;
  - `DD <link>` sets that day's link;
  - a bare link sets the link of the next meeting;
  - one of five retry words starts a join of the next meeting at once;
  - anything else is answered with a help text.
- It reminds the user when today's meeting has no link. The reminder runs every two hours by day and every five minutes in the evening.
- It starts a browser join whenever a record's minute comes round. A scheduler thread polls every 20 seconds.
- It drives the browser through a join with at most two attempts, reporting the outcome by LINE.

This project models that core in Dafny:

- **Data.**
  - `clock.dfy`: calendar dates, minutes and clock readings; their order; the "YYYY-MM-DD HH:MM" rendering the code compares.
  - `schedule.dfy`: the records; lookup of the first record for a date; the nearest record that has not started; the day-of-month resolution.
  - `notices.dfy`: the messages the bot pushes and the join requests it starts.
- **Commands.** `commands.dfy` models the text patterns, Python's whitespace set, `str.strip`, and a classifier that tries the patterns in the code's order.
- **Handlers.** `bot.dfy` has the four schedule operations, the text dispatch and the webhook:
  - each is a function on a `World`: the records, the outbox of pushed messages, and the list of joins started;
  - the class `Bot` updates the same state in place with loops shaped like the code's (`found` flag and `break`, early return), and each of its methods is proved equal to the function.
- **Join.** `join.dfy` models the link selection and the retry loop of the automatic join. Each browser attempt is reduced to its outcome.
- **Scheduler.** `runner.dfy` models one pass of the scheduler loop: the reset on a new date, the reminder cadence and the minute triggers.
  - The class `Runner` holds the loop's two variables and the last triggered minute, a field the code does not have. `Runner.PassAsWritten` is one pass of the loop as written. `Runner.Cycle` and the constructor implement the corrected loop described under "## Findings".
  - Lemmas about sequences of passes cover reminder spacing and how often a minute fires.
- **Examples.** `scenarios.dfy` works through concrete November 2025 schedules.

The clock is a parameter everywhere: a `Moment` is the current minute plus the microseconds into it. Dates and times are integer tuples. `Clock.StampInjective` shows that comparing the rendered strings, as the code does, is comparing the tuples.

## Model

| member | source | states |
|---|---|---|
| Clock.DaysInMonth | auto_join_teams.py:169 | months have 28 to 31 days, 29 exactly for February of a leap year; together with `ValidDate` this is what the date parser accepts |
| Clock.BeforeIsStrictTotalOrder | auto_join_teams.py:170-181 | the chronological order of (date, minute) pairs used for `dt >= now` and the sort is irreflexive, asymmetric, transitive and total |
| Clock.StampInjective | auto_join_teams.py:458-460 | two "YYYY-MM-DD HH:MM" renderings are equal exactly when the dates and times are equal |
| Schedule.FindDate | auto_join_teams.py:121-126 | the lookup finds nothing exactly when no record has the date, else the position of the first record with it |
| Schedule.NearestAmong | auto_join_teams.py:166-181 | among a prefix: none exactly when no record in it is at or after now, else a record that is future, has no strictly earlier future record, and comes first among equals |
| Schedule.NearestFuture | auto_join_teams.py:166-181 | raises exactly when some record does not parse; otherwise finds nothing exactly when no record is at or after now, else the first of the earliest future records |
| Schedule.NearestUnique | auto_join_teams.py:178-179 | at most one position is the nearest future record (the stable sort's first element) |
| Schedule.NearestIgnoresUrls | auto_join_teams.py:166-181 | which record is next depends only on dates and times, not on links |
| Schedule.DayNumber | auto_join_teams.py:119 | the day text's value is below 100 and its "%02d" rendering is the text, zero-padded to two digits |
| Schedule.TargetDate | auto_join_teams.py:116-119 | the target date has today's year and month and the given day, rendered zero-padded |
| Schedule.LeadingZeroSameDay | auto_join_teams.py:119 | "5" and "05" resolve to the same date |
| Commands.DigitRun | auto_join_teams.py:220 | the length of the longest run of ASCII digits at the start of the text |
| Commands.SpaceRun | auto_join_teams.py:220 | the length of the longest run of whitespace at the start of the text |
| Commands.TrailingSpaceRun | auto_join_teams.py:216 | the length of the longest run of whitespace at the end of the text |
| Commands.Strip | auto_join_teams.py:216 | the result has no whitespace at either end and is the input with only whitespace removed around it |
| Commands.StripKeepsTrimmed | auto_join_teams.py:216 | text with no whitespace at its ends is unchanged by stripping |
| Commands.StripIdempotent | auto_join_teams.py:216 | stripping twice is stripping once |
| Commands.ClockText | auto_join_teams.py:220 | the rendering of a time is an "HH:MM" text of two digit pairs |
| Commands.ClockOf | auto_join_teams.py:220-222 | a captured "HH:MM" text stands for a time whose rendering is that text; the ranges are not checked |
| Commands.ClockRoundTrip | auto_join_teams.py:220-222 | reading back a rendered time gives the time |
| Commands.RetryWordsStandApart | auto_join_teams.py:241 | no retry word starts with a digit or with the Teams prefix, so no earlier pattern takes it |
| Commands.RetryWordsTrimmed | auto_join_teams.py:216 | stripping keeps each retry word as it is |
| Commands.DaySplit | auto_join_teams.py:220 | a digit run followed by whitespace splits the text into a day, whitespace and the rest |
| Commands.Classify | auto_join_teams.py:220-252 | exactly one command per text. A time command has 1-2 digits, whitespace, then "HH:MM". A day-link command has the day, whitespace, then a link with no whitespace. A next-link command starts with the prefix. Retry holds exactly for the five words. Help holds only for text with neither the prefix nor a retry word |
| Commands.HttpGuardIsRedundant | auto_join_teams.py:221 | a text that starts with a day number never starts with "http", so the extra guard never fires |
| Commands.SplitOfDayCommand | auto_join_teams.py:220-229 | for day + whitespace + tail, the digit and whitespace runs find exactly that day and that whitespace |
| Commands.ClassifiesTimeCommand | auto_join_teams.py:220-223 | every day + whitespace + "HH:MM" text is a time command for that day and time |
| Commands.ClassifiesDayUrlCommand | auto_join_teams.py:227-233 | every day + whitespace + Teams link text is a day-link command |
| Commands.ClassifiesBareLink | auto_join_teams.py:236-238 | a text starting with the Teams prefix is a next-link command for the whole text |
| Bot.TimeUpdate | auto_join_teams.py:111-132 | only the first record with the target date gets the new time; every other record and field is unchanged; one message, confirmation or not-found |
| Bot.UrlUpdate | auto_join_teams.py:135-156 | only the first record with the target date gets the new link; every other record and field is unchanged; one message, confirmation or not-found |
| Bot.NextUrlUpdate | auto_join_teams.py:159-183 | raises exactly when a record does not parse. Otherwise exactly the nearest future record gets the link and past records never do. One message: the updated record's date and time, or the no-future warning exactly when no record is ahead |
| Bot.MissingUrlReminder | auto_join_teams.py:186-195 | at most one warning, sent exactly when a record dated today has an empty link; records unchanged |
| Bot.TimeUpdateReplies | auto_join_teams.py:111-132 | a time update pushes one message after the earlier ones, starts no join and keeps every record's date |
| Bot.UrlUpdateReplies | auto_join_teams.py:135-156 | a link update pushes one message after the earlier ones, starts no join and keeps every record's date |
| Bot.NextUrlUpdateReplies | auto_join_teams.py:159-183 | a next-link update that completes pushes one message after the earlier ones, starts no join and keeps every record's date |
| Bot.HandleText | auto_join_teams.py:216-252 | the text dispatch: handling a text raises exactly when it is a next-link command and some record does not parse; otherwise it pushes exactly one message after the earlier ones, starts at most one join and keeps every record's date |
| Bot.ProcessEvents | auto_join_teams.py:212-258 | the event loop never answers 400. A 200 answer pushes one message per text message. A 500 answer leaves a record that does not parse. Earlier messages are kept, and records keep their dates |
| Bot.ReplyThenRest | auto_join_teams.py:212-258 | a reply to the first message followed by the effect of the remaining events is the effect of the whole request |
| Bot.Webhook | auto_join_teams.py:204-258 | the answer is 400 exactly when the payload has no events, and then nothing changes; otherwise the request has the effect `ProcessEvents` states |
| Bot.TimeCommandSetsTime | auto_join_teams.py:220-223 | any day + whitespace + "HH:MM" message updates that day's time |
| Bot.DayLinkSetsUrl | auto_join_teams.py:227-233 | any day + whitespace + Teams link message updates that day's link |
| Bot.RetryWordStartsJoin | auto_join_teams.py:241-244 | each retry word pushes the retry announcement, starts one join of the next meeting and changes no record |
| Bot.BareLinkSetsNextUrl | auto_join_teams.py:236-238 | a bare Teams link message updates the next meeting's link |
| Bot.HelpChangesNothing | auto_join_teams.py:246-252 | unrecognised text only pushes the help message |
| Bot.Bot.constructor | auto_join_teams.py:40-53 | the bot starts from the configured records with nothing sent or started |
| Bot.Bot.UpdateScheduleTimeByDay | auto_join_teams.py:111-132 | the in-place loop with `found` and `break` leaves the state `TimeUpdate` describes |
| Bot.Bot.UpdateScheduleUrlByDay | auto_join_teams.py:135-156 | the in-place loop leaves the state `UrlUpdate` describes |
| Bot.Bot.UpdateNextScheduleUrl | auto_join_teams.py:159-183 | the in-place update leaves the state `NextUrlUpdate` describes, or nothing changed when it raises |
| Bot.Bot.RemindMissingUrl | auto_join_teams.py:186-195 | the loop with its early return sends what `MissingUrlReminder` describes |
| Bot.Bot.HandleMessage | auto_join_teams.py:212-252 | one message handled in place as `HandleText` describes |
| Bot.Bot.HandleWebhook | auto_join_teams.py:204-258 | the event loop leaves the state and answers the status `Webhook` describes |
| Join.StepFailure | auto_join_teams.py:320-385 | a step whose control is not found is reported with its own message, distinct from the lookup, timeout and session failures |
| Join.StepFailureInjective | auto_join_teams.py:320-385 | different steps are reported with different messages |
| Join.Terminal | auto_join_teams.py:392-407 | the message ending a run is the success message exactly on admission and a failure otherwise; the timeout and session-error messages stand exactly for those outcomes |
| Join.AttemptsFrom | auto_join_teams.py:300-408 | at most `RETRY_LIMIT` attempts. Every attempt before the last ended with a retryable failure. A run stops early only on admission or a host timeout. Exactly one final message: that of the last attempt |
| Join.JoinSpec | auto_join_teams.py:266-408 | at most `RETRY_LIMIT` attempts and at most one message; an attempt is made only with a link |
| Join.RunTarget | auto_join_teams.py:279-298 | a given link is used as is, and the run is the retry loop on it. Otherwise a record that does not parse stops the run with no attempt and no message. With every record parsing, the nearest future record with a link gives the retry loop on that link, and any attempt uses the nearest record's link. With no future record, or an empty nearest link, there is no attempt and one error message |
| Join.ExactlyOneReport | auto_join_teams.py:300-408 | with a link there are 1 to `RETRY_LIMIT` attempts and exactly one message; it is the success message exactly when some attempt was admitted after only retryable failures |
| Join.AllAttemptsFail | auto_join_teams.py:300-387 | if every attempt fails at a step, all attempts are used, the one message is the last step's failure, and there is no success message |
| Join.TimeoutIsTerminal | auto_join_teams.py:389-403 | a host timeout ends the run at that attempt with the timeout message |
| Join.AutoJoinMeeting | auto_join_teams.py:266-408 | the lookup and the `for attempt` loop with its early returns do what `JoinSpec` describes |
| Runner.RemindInterval | auto_join_teams.py:439-445 | no reminders in hours 0-5, every 7200 s in hours 6-16, every 300 s in hours 17-23 |
| Runner.Reset | auto_join_teams.py:428-431 | after the reset the remembered date is today, and a remembered sweep survives only on the same date |
| Runner.RemindState | auto_join_teams.py:428-453 | after the reminder half the remembered date is today and the remembered sweep belongs to it; the sweep is remembered as this reading exactly when it was due, otherwise the reset state is kept; the triggered minute is untouched |
| Runner.RemindWorld | auto_join_teams.py:439-453 | the reminder half changes no record and starts no join; it pushes the missing-link warning exactly when a sweep is due and a record dated today has an empty link |
| Runner.MatchesIsStampEquality | auto_join_teams.py:458-460 | a record matches the current minute exactly when their rendered strings are equal |
| Runner.DueCount | auto_join_teams.py:458-472 | the number of records that start a join this minute is at most the number of records |
| Runner.MatchCount | auto_join_teams.py:458-460 | the number of records that match this minute lies between the number that start a join and the number of records |
| Runner.TriggerAll | auto_join_teams.py:458-472 | records unchanged; one message per matching record; one join per matching record with a link; every join started uses the link of a matching record |
| Runner.NoMatchNoTrigger | auto_join_teams.py:458-460 | records whose minute differs trigger nothing |
| Runner.Announcement | auto_join_teams.py:461-467 | a matching record without a link sends the missing-link warning, one with a link the join announcement |
| Runner.TriggerOne | auto_join_teams.py:459-472 | one record leaves the records alone; it adds its message exactly when it matches, and a join with its link exactly when it matches and has a link |
| Runner.SkipsNonMatching | auto_join_teams.py:458-460 | a record whose minute differs adds nothing to the trigger pass, whatever the other records do |
| Runner.MatchingOnly | auto_join_teams.py:458-460 | the records that match the minute, as many as match, in list order |
| Runner.Announcements | auto_join_teams.py:461-467 | one message per record, in order |
| Runner.TriggerAllAnnounces | auto_join_teams.py:458-472 | the trigger pass adds exactly one message per matching record, in list order |
| Runner.TriggerAllLaunches | auto_join_teams.py:458-472 | the trigger pass starts exactly one join per matching record with a link, in list order |
| Runner.EachMatchFires | auto_join_teams.py:461-472 | a matching record with a link starts a join with that link; one without a link gets the warning |
| Runner.CycleAsWritten | auto_join_teams.py:423-474 | one pass as written: after it, the remembered sweep belongs to today's date |
| Runner.AsWrittenRemindsAlike | auto_join_teams.py:423-453 | the pass as written changes the reminder variables exactly as the corrected pass does, so the spacing lemmas over `StateTrace` cover it too |
| Runner.NextState | auto_join_teams.py:423-474 | after a guarded pass the current minute is remembered as triggered, along with the reminder state |
| Runner.CycleSpec | auto_join_teams.py:423-474 | one pass with the trigger pass guarded by the last triggered minute. It keeps the reminder invariant and never changes records. It runs the triggers exactly when the minute is new, as the pass as written would |
| Runner.NightIsQuiet | auto_join_teams.py:439-447 | between 00:00 and 05:59 there is no sweep and no reminder message |
| Runner.SweepDue | auto_join_teams.py:447-450 | a sweep is never due in an hour without reminders, and always due in an hour with reminders when there was no sweep yet today |
| Runner.Sweeps | auto_join_teams.py:428-450 | a pass sweeps exactly when the hour has an interval and either the date is new, there was no sweep yet today, or that interval has passed since the last sweep |
| Runner.StateTrace | auto_join_teams.py:423-474 | the loop's variables after passes over a sequence of readings keep the reminder invariant and remember the last reading's date and minute |
| Runner.RunTrace | auto_join_teams.py:423-474 | over a sequence of readings the loop's variables evolve independently of the bot, as `StateTrace` describes, and the records never change |
| Runner.BetweenSameMinute | auto_join_teams.py:458-460 | a reading between two readings of one minute is in that minute |
| Runner.TriggersOncePerMinute | auto_join_teams.py:458-474 | with readings in clock order, a pass in a minute an earlier pass already saw starts no join |
| Runner.PassRemembers | auto_join_teams.py:447-453 | within one day a pass remembers its own reading if it sweeps, and otherwise keeps what the earlier passes remembered |
| Runner.LastSweepAtOrAfter | auto_join_teams.py:447-453 | within one day, the remembered sweep is the reading of a sweep at or after any earlier sweep |
| Runner.SweepsSpaced | auto_join_teams.py:428-453 | within one day, in clock order, two sweeps are at least the later hour's interval apart |
| Runner.AsWrittenFiresEveryPoll | auto_join_teams.py:458-474 | as written, every pass in a linked record's minute starts another join with its link |
| Runner.TriggerFrom | auto_join_teams.py:458-472 | the joins a trigger pass starts do not depend on those started before |
| Runner.PollFires | auto_join_teams.py:458-472 | as written, any pass at a poll in the linked record's minute starts exactly one more join of it |
| Runner.TripleFire | auto_join_teams.py:458-474 | polls at :00, :20 and :40 of a record's minute start three joins of it as written |
| Runner.SingleFire | auto_join_teams.py:458-474 | the same three polls start one join with the guarded pass |
| Runner.Runner.constructor | auto_join_teams.py:420-421 | the loop starts with no remembered sweep or date, and the corrected loop with no triggered minute |
| Runner.Runner.Remind | auto_join_teams.py:428-453 | the reset and the sweep leave the variables `RemindState` describes and the bot as `RemindWorld` describes |
| Runner.Runner.PassAsWritten | auto_join_teams.py:423-474 | one pass of the loop as written in place: the reminder half and the unguarded trigger pass leave the state and the bot as `CycleAsWritten` describes |
| Runner.Runner.Cycle | auto_join_teams.py:423-474 | one pass of the corrected loop in place leaves the state and the bot as `CycleSpec` describes |
| Runner.FireDue | auto_join_teams.py:458-472 | the loop over the records leaves the bot as `TriggerAll` describes |
| Scenarios.LinkIsBare | auto_join_teams.py:236 | the example link starts with the Teams prefix and ends in a non-space |
| Scenarios.TimeOfSixteenth | auto_join_teams.py:111-132 | day 16 in November 2025 updates the record of 2025-11-16 and confirms with that date |
| Scenarios.SetTimeOfSixteenth | auto_join_teams.py:220-223 | "16 20:00" sets the 16th's meeting to 20:00 and leaves the 18th's alone |
| Scenarios.TwentiethIsNext | auto_join_teams.py:166-181 | at noon on the 19th, of the 18th, 20th and 27th the 20th is next |
| Scenarios.LinkOnTwentieth | auto_join_teams.py:159-183 | at noon on the 19th a next-link update sets the 20th's link and confirms with its date and time |
| Scenarios.BareLinkGoesToNearest | auto_join_teams.py:236-238 | a bare link then goes to the 20th; the 18th and 27th keep their links |
| Scenarios.HelloGetsHelp | auto_join_teams.py:246-252 | "hello" is answered with the help message only |
| Scenarios.TriggerWithoutLink | auto_join_teams.py:458-465 | at 17:25 on the 18th a linkless record is announced as missing its link and no join starts |
| Scenarios.UncheckedHourIsStored | auto_join_teams.py:220-223 | "16 25:00" is accepted and stores a time no parser accepts |
| Scenarios.UncheckedHourBreaksWebhook | auto_join_teams.py:166-170 | after that, a bare link gets a 500 answer and nothing changes |
| Scenarios.UncheckedHourStopsJoin | auto_join_teams.py:284-287 | after that, an automatic join without a given link stops before any attempt and sends no message |

## Left out

- Selenium is not modelled: Chrome options, XPaths, `WebDriverWait`, `driver.quit` and the settle delay. Each attempt is given as its outcome: a step that failed, another error in the session, a host timeout, or admission.
- The admission polling (`time.time`, the 5-second sleep, the 300-second limit) is reduced to the admitted and timed-out outcomes.
- Flask, ngrok, JSON parsing and HTTP plumbing are not modelled. A payload is `None` (no events) or a list of events. A message event without text counts as the empty text.
- `send_line_message` is an append to the outbox. The LINE push and its transport errors, which are only logged, are not modelled. The message texts are replaced by the `Notice` constructors that carry their data.
- Threads are not modelled. The started joins are recorded as `JoinRequest`s and not run. Concurrency between the webhook, the scheduler and join threads is not modelled, and neither is the `lock`, which the code declares but never takes.
- The wall clock is a parameter. The model reads the clock once per webhook request and passes that reading to every message of the request. `remind_missing_url` reads the clock again, which the model takes to be the same date as the scheduler's reading.
- Stored records are assumed to be canonical "YYYY-MM-DD" and "HH:MM" text with years 1000-9999, so comparing strings is comparing tuples (`Clock.StampInjective`).
- A record whose text does not parse is modelled as a date or time out of range. Malformed text is not modelled.
- Python's `\d` also matches non-ASCII decimal digits. The model takes only ASCII digits, in both the patterns and `int(day_str)`.
- `Runner.ElapsedMicros` measures elapsed time within one day. This is exact because the remembered sweep always belongs to the current date (`Runner.Coherent`). The float in `total_seconds` compares with the integral interval exactly as the integer microseconds do.
- The start-up message of the entry point, the 20-second sleep between passes, and ngrok shutdown are outside the model.
- Three behaviours of the code that a reader might expect otherwise; the model follows the code:
  - a host timeout ends the run at once rather than starting a new attempt;
  - no lock is taken around reads and writes of the records;
  - a day number the month lacks, such as 31 in November, silently gives "not found" instead of an error.
- Join.AutoJoinMeeting: an exception outside the listed steps (for example from `driver.quit` itself) is folded into the session-error outcome of that attempt.

## Findings

| source | as written | input that shows it | evidently intended | confidence | as-written member | corrected member |
|---|---|---|---|---|---|---|
| auto_join_teams.py:458-474 | the loop polls every 20 seconds and fires every record whose "date time" equals the current minute string, with no memory of minutes already fired | a record 2025-11-16 17:25 with a link, polled at 17:25:00, 17:25:20 and 17:25:40: three browser joins of the same meeting and three announcements | each record's minute fires once | high, not executed | Runner.CycleAsWritten (Runner.AsWrittenFiresEveryPoll, Runner.TripleFire, in place Runner.Runner.PassAsWritten) | Runner.CycleSpec (Runner.TriggersOncePerMinute, Runner.SingleFire, used by Runner.Runner.Cycle) |
