# hungry-logs-bot, modelled in Dafny

A model of the core of a Telegram bot that keeps a food log. A user registers by answering six questions. A language model turns those answers into a calorie and macro goal, and the user can later replace that goal by hand or with an assistant. Every free-text message is a meal: the language model classifies it into protein, fat, carbohydrates and calories. The meal is then appended to a CSV log, and the bot replies with the day's totals. Further commands delete the last meal, drop the whole profile, show statistics for a day, a week or four weeks, and list the commands.

The modules follow the program's structure:

- `Values` holds option, field and day values.
- `Text` holds Python's `strip`, `lower`, `split`, `join`, `int` and `str` on strings.
- `Markdown` is the MarkdownV2 escape.
- `Help` is the help command.
- `Tables` is the two CSV tables. It holds the pure queries and the `Store` class whose methods change the tables.
- `Fsm` is aiogram's `FSMContext` as a class.
- `Oracle` holds the language-model calls, as a class that records every request.
- `Session` takes a snapshot of the three objects.
- `Registration` covers the registration and goal-update flow.
- `MealIntake` covers the two meal handlers.
- `MealsDelete`, `Restart` and `Statistics` cover the other command handlers.
- `Dispatch` routes updates as the dispatcher of `app/main.py` does.

Each handler exists in two forms:

- A pure step function on a `World` value: the conversation, the two tables and the calls made so far.
- A method on the objects. Its `ensures` says that the objects afterwards are that function applied to the objects before.

The properties are proved as lemmas about the step functions and the table queries. The looping queries (`get_daily_totals` and the statistics passes) are methods with loop invariants. Each is proved equal to the function that specifies it.

Where the code departs from what one would expect, the model follows the code. The lemmas below make those places explicit:

- An old registration button pressed during a goal update adds a second user row (`StaleConfirmDuplicatesRow`).
- The four-week precheck window ends yesterday, while the buckets include today (`OnlyTodayGivesNoEvents`).
- The means use `int(a / n)`, which truncates toward zero. The model uses that, not floor division (`TruncDiv`).
- `int()` accepts surrounding white space, a sign and `_` between digits, and so does the model (`ParseInt`). The model takes ASCII digits only; see "Left out".
- Registering through the "✏️ Изменить" button offered with the derived goal never writes a profile. The edit handler has no state filter, so the typed goal goes to `accept_goal_callback`, which only updates existing rows (`EditAtRegistrationNeverRegisters`).
- A message without text (a photo, a sticker) sent while collecting is stored as an answer `None`, and the deriver reads it as `"None"`. Sent in the assistant input, it becomes an empty request to the advisor (`NonTextCountsAsAnswer`, `NonTextInAssistantAsksAdvisor`).

## Model

| member | source | states |
|---|---|---|
| Text.Strip | app/handlers/registration.py:263 | no longer than the input, and neither end of a non-empty result is white space |
| Text.StripIsSlice | app/handlers/registration.py:263 | the stripped text is a slice of the input with only white space cut off before and after it |
| Text.Join | app/handlers/help.py:13 | the joined text starts with the first piece and ends with the last |
| Text.Split | app/handlers/registration.py:273 | at least one piece, and no piece holds the separator |
| Text.JoinCons | app/handlers/help.py:13 | joining a piece in front of others puts one separator between it and the rest |
| Text.ParseInt | app/handlers/meals_delete.py:45-49 | `int()` succeeds only on a text that holds a digit |
| Text.Mantissa | app/handlers/statistics.py:14-18 | the unsigned part of a `float()` text has a value only when it holds a digit |
| Text.TruncOfFloatText | app/handlers/statistics.py:14-18 | `int(float(s))` succeeds only on a text that holds a digit |
| Text.TruncOfIntegerText | app/handlers/statistics.py:14-18 | on every text `int()` accepts, `int(float(s))` gives the same number |
| Text.TruncOfDecimalText | app/handlers/statistics.py:14-18 | `int(float("n.f"))` is `n`: the fraction is dropped toward zero, for negative `n` too |
| Text.LStripIsLongestSuffix | app/handlers/registration.py:272-280 | `lstrip` gives the longest suffix that does not start with white space |
| Text.RStripIsLongestPrefix | app/handlers/registration.py:272-280 | `rstrip` gives the longest prefix that does not end with white space |
| Text.StripNoSpace | app/main.py:41 | a text with no white space at either end is its own strip |
| Text.Lower | app/handlers/registration.py:205-206 | `lower` keeps the length and lowers every character on its own |
| Text.Contains | app/handlers/registration.py:207-215 | `sub in s` holds exactly when `sub` occurs at some position |
| Text.IndexOf | app/handlers/registration.py:272-280 | the first position of a character that occurs: it is there and not before |
| Text.SplitLength | app/handlers/registration.py:273-275 | `split` gives one more piece than there are separators |
| Text.SplitJoin | app/handlers/registration.py:273-275 | no piece holds the separator, and joining the pieces gives the text back |
| Text.SplitAtFirst | app/handlers/registration.py:273 | the first piece is the text before the first separator, and the rest is split on |
| Text.SplitOfJoin | app/handlers/registration.py:273-275 | joining pieces without the separator and splitting again gives the pieces back |
| Text.NatToDecimal | app/handlers/meals_delete.py:27 | `str(n)` is a non-empty string of digits |
| Text.DigitsValueOfDecimal | app/handlers/meals_delete.py:27 | the digits of `str(n)` have value `n` |
| Text.DecimalIsDigitString | app/handlers/meals_delete.py:45-49 | `str(n)` passes the digit check of `int()` |
| Text.ParseIntOfNatDecimal | app/handlers/meals_delete.py:45-49 | `int(str(n)) == n` for natural `n` |
| Text.ParseIntOfNegativeDecimal | app/handlers/registration.py:276-280 | `int("-" + str(m)) == -m` |
| Text.ParseIntOfDecimal | app/handlers/meals_delete.py:45-49 | `int(str(n)) == n` for every integer |
| Markdown.EscapeConcat | app/handlers/meals.py:21 | escaping distributes over concatenation |
| Markdown.EscapeOneChar | app/handlers/meals.py:21 | one character gets a backslash in front exactly when the pattern matches it |
| Markdown.EscapeMdV2 | app/handlers/meals.py:19-21 | the output is longer than the input by exactly the number of special characters |
| Markdown.UnescapeEscape | app/handlers/meals.py:21 | dropping the inserted backslashes gives the input back |
| Markdown.EscapeIdentityIffNoSpecial | app/handlers/meals.py:21 | the text is unchanged exactly when it has no special character |
| Markdown.UnderscoreAndStarUnescaped | app/handlers/meals.py:21 | `_` and `*` are not in the pattern and pass through |
| Markdown.DotEscaped | app/handlers/meals.py:21 | a decimal point is escaped |
| Markdown.EscapeNegativeNumber | app/handlers/meals.py:19-21 | a non-string is escaped as `str(value)`, so a minus sign is escaped and the digits are kept |
| Markdown.NoSpecialUnchanged | app/handlers/meals.py:21 | a text without special characters comes out unchanged |
| Help.ShowAllCommands | app/handlers/help.py:10-13 | the loop's text is the header and one line per command, joined by a blank line |
| Help.JoinAfterHead | app/handlers/help.py:13 | joining a head with lines gives the head, then the separator and a line for each line |
| Help.HelpTextShape | app/handlers/help.py:10-13 | the help text starts with the header and is followed by the command lines in list order |
| Help.PrefixedSuffixAt | app/handlers/help.py:13 | after the first `k` lines, the text continues with the separator, line `k` and the lines after it |
| Help.PrefixedLengthCons | app/handlers/help.py:13 | the offset of line `k` is the first line's separator and text plus the offset within the rest |
| Help.JoinSuffixAt | app/handlers/help.py:13 | joined after a head, line `k` follows the head, the lines before it and its separator |
| Help.HelpLineAt | app/handlers/help.py:10-13 | in the help text, command `k`'s line follows the header, the earlier commands and a blank line, and the later commands follow it |
| Help.HelpListsHelpLast | app/services/commands.py:5-13 | the bot's seven commands give seven lines, the last for `/help` |
| Tables.UserExists | app/services/csv_client.py:29-31 | true exactly when some row carries the id |
| Tables.GetUser | app/services/csv_client.py:39-44 | the first row with the id, and `None` exactly when there is none |
| Tables.DailyTotalsConcat | app/services/csv_client.py:56-68 | the totals of two logs in sequence add up |
| Tables.DailyTotalsAppend | app/services/csv_client.py:51-54 | appending a row raises that user's totals for that day by the row's values, and leaves all others |
| Tables.DailyTotalsSingle | app/services/csv_client.py:61-68 | a one-row log gives that row's contribution |
| Tables.DailyTotalsWithoutRows | app/services/csv_client.py:56-68 | with no row of the user on that day, all four totals are 0 |
| Tables.DailyTotalsWithout | app/services/csv_client.py:56-68 | taking a row out takes its contribution out of the totals |
| Tables.MultisetWithout | app/services/csv_client.py:56-68 | removing the same row from two permutations of a log leaves permutations |
| Tables.DailyTotalsOrderFree | app/services/csv_client.py:56-68 | the totals do not depend on the order of the rows |
| Tables.DailyTotalsExample | app/services/csv_client.py:56-68 | two meals of 500 and 700 kcal on one day give 1200 kcal |
| Tables.WithTarget | app/handlers/registration.py:402-404 | same length and ids, and every other user's row unchanged |
| Tables.GetUserAfterTarget | app/handlers/registration.py:402-404 | afterwards `get_user` finds the same row, now with the new goal and targets |
| Tables.Store.constructor | app/services/csv_client.py:9-21 | the store starts with the given tables |
| Tables.Store.AddUser | app/services/csv_client.py:33-37 | one row appended to `users`, and `meals` kept |
| Tables.Store.AddMeal | app/services/csv_client.py:51-54 | one row appended to `meals`, and `users` kept |
| Tables.Store.SaveUsers | app/handlers/restart.py:39-41 | `users` replaced by the given rows |
| Tables.Store.SaveMeals | app/handlers/meals_delete.py:63-67 | `meals` replaced by the given rows |
| Tables.Store.UpdateUserTarget | app/handlers/registration.py:402-412 | on success the caller's rows get the new goal; a raised write changes nothing |
| Tables.Store.GetDailyTotals | app/services/csv_client.py:56-68 | the loop's sums are the totals of exactly that user's rows dated that day |
| Fsm.FsmContext.constructor | app/handlers/registration.py:16-26 | a new context has no state and no data |
| Fsm.FsmContext.SetState | app/handlers/registration.py:80-81 | the state changes and the data stays |
| Fsm.FsmContext.Clear | app/handlers/registration.py:414 | no state and no data afterwards |
| Fsm.FsmContext.UpdateAnswers | app/handlers/registration.py:93-99 | only `answers` and `current` change |
| Fsm.FsmContext.UpdateProfile | app/handlers/registration.py:106-113 | only `profile` changes |
| Fsm.FsmContext.UpdatePendingGoal | app/handlers/registration.py:282-291 | only `pending_goal` changes |
| Fsm.FsmContext.UpdatePendingMeal | app/main.py:48-55 | only `pending_meal` changes |
| Oracle.LanguageModel.constructor | app/services/openai_client.py:10-81 | a model with the given replies and no calls yet |
| Oracle.LanguageModel.GetUserGoal | app/services/openai_client.py:10-46 | the reply to the answers text, with the call recorded; an unparsable reply is `{}` |
| Oracle.LanguageModel.AiAssistantFeedback | app/handlers/registration.py:329 | the reply to (user, request), with the call recorded |
| Oracle.LanguageModel.ParseMealText | app/services/openai_client.py:49-81 | the classifier's reply to (text, user), with the call recorded |
| Oracle.LanguageModel.ParseMealTextRaw | app/services/openai_client.py:49-81 | the same call, with the macros as delivered |
| Registration.StripAll | app/handlers/registration.py:273-275 | one stripped piece for each piece |
| Registration.StartRegistration | app/handlers/registration.py:67-84 | `/start`: a registered user's conversation is cleared, state and data (a buffered meal or a staged goal included); otherwise collecting starts at question 0 with no answers |
| Registration.CollectAnswers | app/handlers/registration.py:87-130 | append the answer and advance; after the sixth, ask the deriver once, stage the profile or clear on an empty one |
| Registration.DeriveProfile | app/handlers/registration.py:100-113 | after the sixth answer: one deriver call with the question blocks; an empty profile clears the state, a non-empty one is staged with state `confirm_goal` |
| Registration.ConfirmGoalCallback | app/handlers/registration.py:134-151 | a staged profile is written as one users row; the state is cleared when the display keys are present and kept when one is missing (building the confirmation text raises, registration.py:143-147); no profile changes nothing |
| Registration.EditGoalCallback | app/handlers/registration.py:154-167 | the state becomes the manual goal input |
| Registration.UpdateGoalCommand | app/handlers/registration.py:171-197 | an unregistered user changes nothing; otherwise the choice menu opens |
| Registration.HandleGoalUpdateChoice | app/handlers/registration.py:201-254 | cancel clears; "вручную" opens the manual input; "ассистент" opens the assistant; anything else changes nothing |
| Registration.ManualGoalInput | app/handlers/registration.py:258-310 | cancel clears; a well-formed `cal/p/f/c` is staged for confirmation; a malformed one changes nothing |
| Registration.HandleAiRequest | app/handlers/registration.py:314-381 | cancel clears; otherwise one advisor call; an error or a missing goal clears the state; a goal is normalised and staged |
| Registration.AcceptGoalCallback | app/handlers/registration.py:385-414 | a staged goal is written through `update_user_target`, and the state is cleared in every case |
| Registration.CancelGoalCallback | app/handlers/registration.py:418-426 | the state is cleared and nothing is written |
| Registration.CollectBeforeLast | app/handlers/registration.py:93-101 | before the last question each answer is appended, `current` goes up, and nothing is called or written |
| Registration.SixAnswersDeriveOnce | app/handlers/registration.py:87-130 | `/start` and six answers call the deriver exactly once with the six question blocks, and write nothing |
| Registration.CollectAllSplit | app/handlers/registration.py:87-130 | answering in two batches is answering in one |
| Registration.StaleConfirmDuplicatesRow | app/handlers/registration.py:134-151 | an old confirm button pressed in the goal-update menu appends a second row for a registered user |
| Registration.NoSlashInDecimal | app/handlers/registration.py:273-275 | `str(n)` holds no `/` and no white space |
| Registration.ManualGoalParts | app/handlers/registration.py:273-275 | the stripped pieces of a goal text are its four numerals, in order |
| Registration.GoalTextStripped | app/handlers/registration.py:263 | a goal text has no white space at either end |
| Registration.GoalTextNotCancel | app/handlers/registration.py:265-269 | a goal text is not read as a cancel |
| Registration.ManualGoalRoundTrip | app/handlers/registration.py:272-291 | every `cal/p/f/c` written out is parsed back to those four targets, negative ones included |
| Registration.ParseManualGoal | app/handlers/registration.py:272-280 | a text is accepted only with exactly three `/`, and gives the user's own goal with four integer targets |
| Registration.Normalize | app/handlers/registration.py:342-358 | each target is `safe_int` of the raw value where that succeeds, and kept as text exactly where `int(float(...))` raised; a given goal name is kept |
| Registration.ManualInputParseErrorKeeps | app/handlers/registration.py:272-280 | in the manual input, any text that is neither a cancel nor a well-formed goal changes nothing |
| Registration.ChooseMethodOutcome | app/handlers/registration.py:201-254 | on any text the panel calls and writes nothing; it clears exactly on a cancel, opens the manual input exactly on "вручную", the assistant exactly on "ассистент" or "ai", and is unchanged otherwise |
| Registration.ManualInputStages | app/handlers/registration.py:282-309 | a well-formed goal is staged with state `confirm_new_goal`, and nothing is written |
| Registration.LeadingSpaceIsStripped | app/handlers/registration.py:263 | a stripped non-empty text does not start with white space |
| Registration.TrailingSpaceIsStripped | app/handlers/registration.py:263 | a stripped non-empty text does not end with white space |
| Registration.NoCancelWordInGoalText | app/handlers/registration.py:265-269 | a goal typed as numbers never reads as a cancel |
| Registration.FirstCharAbsent | app/handlers/registration.py:265 | a text without the first character of `sub` does not contain `sub` |
| Registration.DecimalChars | app/handlers/registration.py:265-269 | `str(n)` is made of digits and `-` |
| Registration.GoalTextChars | app/handlers/registration.py:265-269 | a goal text is made of digits, `-` and `/` |
| Registration.CancelDiscards | app/handlers/registration.py:265-269 | a cancel in the manual or the assistant input clears the state without calling or writing |
| Registration.AcceptCommits | app/handlers/registration.py:402-414 | accepting with a write that succeeds makes the staged goal the one `get_user` finds, and clears the state |
| Registration.AcceptAlwaysClears | app/handlers/registration.py:392-414 | accept always clears the state; a raised write or no staged goal writes nothing |
| Registration.DecimalsOfExample | app/handlers/registration.py:272-280 | the example's numbers as text |
| Registration.ManualGoalExample | app/handlers/registration.py:272-291 | the prompt's example `1900/75/100/250` is the goal text of those four targets, so `ManualGoalRoundTrip` accepts it |
| Registration.ManualGoalShortExample | app/handlers/registration.py:276-280 | three numbers instead of four are a format error |
| Registration.ManualButton | app/handlers/registration.py:215 | the "Вручную" button selects the manual input |
| Registration.AssistantButton | app/handlers/registration.py:234 | the "AI-ассистент" button selects the assistant |
| Registration.AssistantWords | app/handlers/registration.py:207-234 | the lowered button text is no cancel, no manual and is the assistant |
| Registration.AssistantChoiceText | app/handlers/registration.py:205-206 | stripping and lowering the assistant button gives `ai-ассистент` |
| Registration.AssistantStrip | app/handlers/registration.py:205 | the assistant button has no white space at either end |
| Registration.AssistantLower | app/handlers/registration.py:206 | the assistant button lowers to `ai-ассистент` |
| Registration.LowerConcat | app/handlers/registration.py:206 | `lower` distributes over concatenation |
| Registration.CancelButton | app/handlers/registration.py:207-211 | the "❌ Отмена" button cancels |
| MealIntake.AddMealHandler | app/main.py:25-81 | the handler's step; a reply's totals exist exactly when a row was appended, and are that user's totals for the row's day |
| MealIntake.AddMealHandlerVariant | app/handlers/meals.py:24-97 | the variant's step: always one row with coerced macros, and an empty buffer |
| MealIntake.GuardedNoop | app/main.py:28-35 | with a flow active, or for an unregistered user, neither handler calls, buffers or writes |
| MealIntake.ClarificationBuffers | app/main.py:46-52 | a clarification buffers exactly the text sent to the classifier and writes no row |
| MealIntake.TwoClarifications | app/main.py:38-52 | two clarifications in a row leave `t1 + " " + t2` buffered, and the second call sends that text |
| MealIntake.SuccessAppendsOne | app/main.py:53-66 | a classified meal is one row at the end, the buffer is emptied, and that day's totals go up by the row |
| MealIntake.NextMessageAlone | app/main.py:41-55 | after a classified meal, the next message goes to the classifier on its own |
| MealIntake.VariantAlwaysAppends | app/handlers/meals.py:42-97 | the variant appends a row even on a clarification, each macro a number or 0 |
| MealsDelete.LastIndex | app/handlers/meals_delete.py:17-24 | the position of the caller's last row, and `None` exactly when the caller has no row |
| MealsDelete.RemoveAt | app/handlers/meals_delete.py:63-67 | one row shorter, with every other row kept in order |
| MealsDelete.DeleteLastMeal | app/handlers/meals_delete.py:11-37 | the proposal for the caller's last row; nothing changes |
| MealsDelete.ConfirmDelete | app/handlers/meals_delete.py:41-71 | the press resolves its index and deletes that row, and only that row |
| MealsDelete.CancelDelete | app/handlers/meals_delete.py:75-79 | nothing changes |
| MealsDelete.DeletedIsCallers | app/handlers/meals_delete.py:54-61 | whatever the button data, a deleted row is one of the caller's |
| MealsDelete.MalformedKeepsLog | app/handlers/meals_delete.py:45-49 | data whose index is not an integer deletes nothing |
| MealsDelete.NoMealIffNoRow | app/handlers/meals_delete.py:54-61 | with a well-formed index, nothing is deleted exactly when the caller has no row |
| MealsDelete.StaleIndexFallsBack | app/handlers/meals_delete.py:54-61 | an index that no longer names a row of the caller falls back to the caller's last row |
| MealsDelete.ProposeConfirmRoundTrip | app/handlers/meals_delete.py:27-67 | the proposed data, pressed on the same log, deletes the proposed row |
| MealsDelete.ProposalIffRow | app/handlers/meals_delete.py:19-24 | a proposal exists exactly when the caller has a row |
| MealsDelete.RemoveAtTakesOneRow | app/handlers/meals_delete.py:63-67 | deletion takes exactly one row out (as a multiset) and leaves every other user's totals |
| MealsDelete.ConfirmSparesOthers | app/handlers/meals_delete.py:41-71 | a confirm press never changes another user's day totals |
| MealsDelete.ProposalSurvivesAppend | app/handlers/meals_delete.py:54-61 | after newer meals, the press still deletes the shown row, which is no longer the last |
| MealsDelete.AppendThenDeleteRestores | app/handlers/meals_delete.py:17-67 | log a meal, confirm its proposal, and the log is as it was |
| Restart.Without | app/handlers/restart.py:39-46 | no remaining row has the key, and the result is no longer |
| Restart.Only | app/handlers/restart.py:39-46 | the rows with the key: every selected row has it, every row with it is selected, and the result is no longer |
| Restart.RestartProfileCommand | app/handlers/restart.py:12-33 | a registered user's conversation is cleared; otherwise nothing changes |
| Restart.ConfirmRestartCallback | app/handlers/restart.py:35-52 | both tables lose exactly the caller's rows |
| Restart.CancelRestartCallback | app/handlers/restart.py:55-59 | nothing changes |
| Restart.WithoutMembers | app/handlers/restart.py:39-46 | a row survives exactly when it was there and is not the caller's |
| Restart.WithoutKeepsOthers | app/handlers/restart.py:39-46 | every other key keeps all its rows in order |
| Restart.OnlyConcat | app/handlers/restart.py:39-46 | selecting one key distributes over concatenation |
| Restart.WithoutIdempotent | app/handlers/restart.py:39-46 | deleting twice deletes nothing more |
| Restart.WithoutOfClean | app/handlers/restart.py:39-46 | rows without the key are kept as they are |
| Restart.GetUserWithout | app/handlers/restart.py:39-41 | every other user's profile is found as before |
| Restart.DailyTotalsWithoutUser | app/handlers/restart.py:44-46 | every other user's day totals are as before |
| Restart.ConfirmRestartForgets | app/handlers/restart.py:35-52 | afterwards the caller is unregistered with zero totals, and the others and the conversation are untouched |
| Restart.ConfirmRestartIdempotent | app/handlers/restart.py:35-52 | pressing confirm twice is pressing it once |
| Restart.RestartClearsRegistered | app/handlers/restart.py:18-33 | `/restart` clears the conversation exactly for a registered user and writes nothing |
| Statistics.HasNonzeroValues | app/handlers/statistics.py:20-21 | true exactly when some named key holds a number above 0 |
| Statistics.SafeIntOfIntegerText | app/handlers/statistics.py:14-18 | `safe_int` of a text `int()` accepts is that integer |
| Statistics.SafeIntOfDecimalText | app/handlers/statistics.py:14-18 | `safe_int("n.f")` is `n`, the fraction dropped toward zero |
| Statistics.SafeIntOfNoDigit | app/handlers/statistics.py:14-18 | a text without a digit gives the default |
| Statistics.NonzeroIsHasNonzeroValues | app/handlers/statistics.py:20-21 | on a totals dictionary, the check is "some total above 0" |
| Statistics.TruncDiv | app/handlers/statistics.py:95-106 | `int(a / n)` is the quotient truncated toward zero |
| Statistics.NonzeroDays | app/handlers/statistics.py:94 | only days with data are kept, and no more than there were |
| Statistics.NonzeroDaysEmptyIff | app/handlers/statistics.py:94-106 | none is kept exactly when no day has data |
| Statistics.TodayListAddsUp | app/handlers/statistics.py:60-80 | the listed meals add up to the day totals shown |
| Statistics.TodayListRows | app/handlers/statistics.py:66-70 | the listed meals are the caller's meals of today |
| Statistics.DayViewMeaning | app/handlers/statistics.py:60-80 | "no events" exactly when no total is above 0; otherwise the totals and that day's meals |
| Statistics.WeekMeanIffSomeDay | app/handlers/statistics.py:83-109 | a mean is shown exactly when one of the seven days before today has data |
| Statistics.WeekExcludesToday | app/handlers/statistics.py:87-91 | a meal of today does not change the week view |
| Statistics.NonzeroOfSample | app/handlers/statistics.py:94 | two days with data among seven are the two kept |
| Statistics.WeekMeanOverTwoDays | app/handlers/statistics.py:94-106 | the mean divides by the days with data, not by seven |
| Statistics.ShownLines | app/handlers/statistics.py:149-155 | every printed bucket has data |
| Statistics.BucketsTile | app/handlers/statistics.py:121-138 | each of the 28 days up to today lies in exactly one bucket |
| Statistics.BucketsContiguous | app/handlers/statistics.py:121-138 | buckets of seven days meet without gaps, and the current one ends today |
| Statistics.FourWeekMeanOverValidWeeks | app/handlers/statistics.py:111-165 | a view is shown exactly when the precheck finds a day and some bucket has data; the mean is over those buckets |
| Statistics.ShownLinesOrdered | app/handlers/statistics.py:149-155 | the filter keeps the buckets in order |
| Statistics.FourWeeksOldestFirst | app/handlers/statistics.py:149-155 | the printed buckets are the ones with data, oldest first |
| Statistics.OnlyTodayGivesNoEvents | app/services/user_data.py:33-45 | a user whose only meals are today's sees no four-week view |
| Statistics.DayStatsOf | app/handlers/statistics.py:60-80 | the loop computes the day view |
| Statistics.WeekStatsOf | app/handlers/statistics.py:83-109 | the loop computes the week view |
| Statistics.BucketMeanOf | app/handlers/statistics.py:121-138 | the loop's sum and count give the bucket's mean over its days with data |
| Statistics.FourWeekStatsOf | app/handlers/statistics.py:111-165 | the loop computes the four-week view |
| Statistics.ShowStats | app/handlers/statistics.py:46-165 | an unregistered caller sees nothing; otherwise the chosen period's view |
| Dispatch.HandleUpdate | app/main.py:22-30 | the objects take exactly the routed step |
| Dispatch.NeverSetMacros | app/handlers/registration.py:16-26 | no update enters the declared but unused `set_macros` state |
| Dispatch.RunNeverSetMacros | app/handlers/registration.py:16-26 | no sequence of updates enters it |
| Dispatch.MealsChangeOnlyByMealText | app/main.py:25 | only a non-command text with no flow active writes to the meals log |
| Dispatch.UsersChangeOnlyByPress | app/handlers/registration.py:134-151 | only the confirm and the accept presses write to the users table |
| Dispatch.CancelGoalAlwaysClears | app/handlers/registration.py:418-426 | `cancel_goal`, in any state, clears and writes nothing |
| Dispatch.UserExistsAfterAppend | app/services/csv_client.py:29-37 | a registered user stays registered after a row is appended |
| Dispatch.MenuInvariantKept | app/handlers/registration.py:171-197 | each update keeps "the goal menu is open only for a registered user" |
| Dispatch.MenuOnlyForRegistered | app/handlers/registration.py:171-197 | no sequence of updates opens the menu for an unregistered user |
| Dispatch.WithTargetAbsent | app/handlers/registration.py:402-404 | updating the target of a user without a row changes no row |
| Dispatch.UnregisteredStepKeepsUsers | app/handlers/registration.py:385-414 | for a user without a row, every update but `confirm_goal` leaves the users table unchanged |
| Dispatch.UnregisteredRunKeepsUsers | app/handlers/registration.py:385-414 | so does every sequence of updates without a `confirm_goal` press |
| Dispatch.RunConcat | app/main.py:22-30 | running two sequences one after the other is running their concatenation |
| Dispatch.GoalTextIsNoCommand | app/main.py:25 | a goal text starts with a digit or `-`, so it is no command |
| Dispatch.HandleInManualInput | app/handlers/registration.py:258-261 | in the manual input every text but `/start` and `/update_goal` goes to `manual_goal_input` |
| Dispatch.EditThenGoal | app/handlers/registration.py:154-167 | the edit button and then a goal text stage that goal and write nothing |
| Dispatch.RunThree | app/main.py:22-30 | three updates in a row are three handled steps |
| Dispatch.EditAtRegistrationNeverRegisters | app/handlers/registration.py:116-121 | `/start`, six answers, "Изменить", a typed goal and its accept button: the goal is staged, yet the user ends without a row, the users table unchanged and the state cleared |
| Dispatch.Messages | app/handlers/registration.py:87-92 | one update per message, a text update exactly for a message with text |
| Dispatch.RunWhileCollecting | app/handlers/registration.py:87 | while collecting, every message except `/start` goes to `collect_answers`, a message without text included |
| Dispatch.RegistrationDerivesOnce | app/handlers/registration.py:67-130 | routed, `/start` and six messages call the deriver exactly once and write nothing |
| Dispatch.NonTextInAssistantAsksAdvisor | app/handlers/registration.py:314-330 | in the assistant input a message without text is sent to the advisor as an empty request |
| Dispatch.NonTextCountsAsAnswer | app/handlers/registration.py:87-95 | while collecting, a message without text is recorded as `None` and the next question follows |
| Dispatch.NonTextElsewhereIgnored | app/main.py:25 | outside the four text-reading states a message without text changes nothing |
| Dispatch.NonTextOnPanelsChangesNothing | app/handlers/registration.py:200-263 | on the choice panel and in the manual input a message without text changes nothing |

## Left out

- The language-model service is a fixed function from request to reply (`Oracle.Replies`). The network call, the prompts, the JSON parsing and the `eval` fallback in app/services/openai_client.py are not modelled. Only the `{}` result of a failed parse is.
- Floating point is not modelled: macros are integers, and `round` and float formatting are left out. The means use integer `int(a / n)`, which is exact for integer sums.
- Dates are day numbers. `date.today()` and `strftime` become a `today` parameter, and date strings are not parsed.
- Reply texts, keyboards and message edits are not modelled. The exceptions are the MarkdownV2 escape and the help text, whose strings the model computes.
- The CSV text format is not modelled. Rows are typed records, so the `int(...)` and `float(...)` conversions of read values and their failure on malformed files are left out.
- A message without text is one event, `Dispatch.NonText`. What it carries (photo, sticker, caption) is not modelled, since no handler reads it.
- Text.ParseInt: only ASCII digits are accepted. `int()` also accepts other Unicode decimal digits (Arabic-Indic, full-width and the like), which the model rejects.
- Registration.ManualGoalInput: a goal written with non-ASCII Unicode decimal digits, which `int()` accepts, is a format error in the model.
- Text.TruncOfFloatText: `float()` exponents (`"1e3"`), `"inf"` (its `OverflowError` is not caught by `safe_int`) and `"nan"` are not modelled; such texts count as rejected. Float rounding above 2^53 is not modelled either. A numeral beyond the float range (about 309 digits or more) makes `float()` return inf, so `int()` raises an uncaught `OverflowError`; the model gives the exact integer. Non-ASCII Unicode decimal digits, which `float()` accepts, are rejected by the model.
- `RawNum` stands for a value whatever its Python type. A number is `Number(n)` with `n` already truncated, and anything `int(float(...))` raises on is `Other`. Text cells map to it through `Statistics.RawOfText`.
- Registration.Normalize: converts target by target. When any target raises, the source's `except` branch keeps all four raw values, and a numeric one may stay a float. The model has no raw float, so it keeps `int(float(v))` for the targets that convert. The difference shows only in how the value is written to the CSV cell.
- Text.Lower: lowers only ASCII and the Cyrillic block U+0400..U+042F, not all of Unicode; the button and cancel words the handlers compare against lie in that range.
- The meal handler of app/main.py uses the classifier's macros as delivered. An absent macro becomes 0 (`parsed.get(k, 0)`), and a non-numeric one is not modelled.
- Concurrency is not modelled. Handlers run one at a time, so the unsynchronised read-modify-write of the CSV files is out of scope.
- Each conversation is one user's `FSMContext`. Updates from other users do not interleave with it.
- Logging, the Google Sheets client, the admin broadcast, configuration, app/test.py and `set_default_commands` are left out. From app/services/user_data.py only the four-week precheck is modelled.
- Registration.HandleAiRequest: the assistant's goal text is taken as a string. The `.capitalize()` call on a non-string goal, which raises in the source, is not modelled.
- `show_current_goal` (`/goal`) and `stats_menu` only format replies from `get_user`, and are left out.
- app/main.py includes only the registration router. The delete, restart, statistics, help and app/handlers/meals.py handlers are modelled as operations on their own. `Dispatch.Handle` routes only what app/main.py wires up.
- Four names the handlers call are defined nowhere in the repository. As written, each call raises `AttributeError`, or the import fails. The model gives each the behaviour its caller evidently expects, and the four lines below say what that is.
- Tables.Store.SaveUsers: `csv_client.save_users` (app/handlers/restart.py:41) is not defined in app/services/csv_client.py. As written, the `confirm_restart` press raises `AttributeError` before any write, so no row is deleted. The model rewrites the users table with the given rows.
- Tables.Store.SaveMeals: `csv_client.save_meals` (app/handlers/restart.py:46, app/handlers/meals_delete.py:67) is not defined in app/services/csv_client.py either. As written, the `confirm_delete` press raises before the meals log is rewritten, and so does `confirm_restart`. The model rewrites the meals table with the given rows.
- Oracle.LanguageModel.AiAssistantFeedback: `ai_assistant_feedback`, imported at app/handlers/registration.py:8, is not defined in app/services/openai_client.py. As written, importing registration.py fails, and with it app/main.py. The model takes it as a fixed reply, `Oracle.Replies.advise`: an error, or a summary with an optional new goal, as the handler reads it at registration.py:329-340.
- Statistics.PrecheckDays: `safe_float`, imported at app/services/user_data.py:2, is not defined in app/services/csv_client.py. As written, importing user_data.py fails, and with it app/handlers/statistics.py. The model reads `safe_float(x) > 0` as "the integer total is above 0", the meaning its name and its use at user_data.py:41 give it.
- `update_user_target` is called by the accept handler but is not defined in app/services/csv_client.py. `Tables.WithTarget` models it as giving every row of the user the new goal and targets, and `ioError` stands for the exception that call raises.
