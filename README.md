# routine-it: a verified model of the back end's rules

Routine-it is a habit-tracking service. Users keep personal routines and join groups. Group members certify each day's routine, earn ranking points and chat in group rooms. Once a month every user receives a review of their activity.

This project models in Dafny the deterministic rules of that back end:

- how the monthly review is computed, written out and dispatched (`ReviewServiceImpl`);
- the ranking table and its bonus tiers (`RankingServiceImpl`);
- the object keys and checks of the upload/download endpoints (`StorageController`);
- chat-room membership (`ChatRoomServiceImpl`);
- user profiles and accounts (`UserServiceImpl`, `User`, `AuthAccount`);
- the JWT request filter (`JwtAuthenticationFilter`);
- notification texts and the mark-as-read check (`NotificationServiceImpl`).

How external parts appear in the model:

- **Stores.** The Redis store and the JPA repositories are maps: fields of a class where the source updates them in place, parameters where it only reads them.
- **Outside world.** The clock, UUIDs, the AI service, the notification call and the results of S3 calls are parameters.

Modules, one per source file, plus shared ones:

| file | module | models |
|---|---|---|
| wrappers.dfy | Wrappers | `Option`/`Result` |
| text.dfy | Text | decimal rendering and parsing, ASCII letter case, prefixes, `lastIndexOf` |
| calendar.dfy | Calendar | `java.time` dates as day numbers, the `"yyyy-MM"` format, `getPreviousMonth` |
| review_calc.dfy | ReviewCalc | target counts, achievement rate, snapshots and deltas |
| review_message.dfy | ReviewMessage | the fallback message template |
| review_load.dfy | ReviewLoad | `loadAllBatchData` |
| review_dispatch.dfy | ReviewDispatch | batch and single-user dispatch, tally, retry, failure count |
| ranking.dfy | Ranking | the ranking table, streak and participation bonuses, personal rankings |
| storage.dfy | Storage | extension, visibility, keys, delete guard, disposition |
| chat.dfy | Chat | create / join / rejoin / leave, the message guard, room listing |
| users.dfy | Users | `User`, `AuthAccount`, `UserServiceImpl` |
| jwt_filter.dfy | JwtFilter | token extraction, excluded paths, the authentication decision |
| notifications.dfy | Notifications | texts, lookups, mark-as-read |

Where the source loops or updates state, the model is too:

- `calculateMonthlyTargetCount`, the achievement list, the message builder, the tally, the retry pass, the AI attempt loop, the streak walk, the ranking updates and reset, and the nickname search are methods with loops or field updates.
- Each of those methods is proved equal to a specification function.
- The properties the service promises are proved as lemmas about those functions.

## Model

Source paths are relative to the repository root.

| member | source | states |
|---|---|---|
| Calendar.ParseYearField | src/main/java/com/goormi/routine/domain/review/service/ReviewServiceImpl.java:575 | the ISO year field: four unsigned digits in 0..9999, a '+' only before five to ten digits, a '-' before four to ten digits and never for zero, and a value within the YEAR range |
| Calendar.ParseMonthYear | src/main/java/com/goormi/routine/domain/review/service/ReviewServiceImpl.java:575 | a parsed month string is a valid month whose year comes from the year field before the last "-MM" |
| Calendar.GetPreviousMonth | src/main/java/com/goormi/routine/domain/review/service/ReviewServiceImpl.java:573-580 | null exactly when the month does not parse or is January of the first representable year |
| Calendar.YearFieldRoundTrip | src/main/java/com/goormi/routine/domain/review/service/ReviewServiceImpl.java:575-576 | the year-of-era field printed for years 1..999999999 (with '+' beyond 9999) parses back to the year |
| Calendar.FormatParseRoundTrip | src/main/java/com/goormi/routine/domain/review/service/ReviewServiceImpl.java:573-580 | formatting a month of years 1..999999999 as "yyyy-MM" and parsing it back gives the month |
| Calendar.NegativeYearPreviousMonth | src/main/java/com/goormi/routine/domain/review/service/ReviewServiceImpl.java:573-580 | "-0001-01" parses as January of year -1 and its previous month prints as "0003-12" |
| Calendar.ExtendedYearPreviousMonth | src/main/java/com/goormi/routine/domain/review/service/ReviewServiceImpl.java:573-580 | "+10000-01" parses as January of year 10000 and its previous month prints as "9999-12" |
| Calendar.RejectedMonthStrings | src/main/java/com/goormi/routine/domain/review/service/ReviewServiceImpl.java:575 | "+2024-01", "-0000-01", "20240-01" and "2024-13" do not parse |
| Calendar.FirstYearHasNoPreviousMonth | src/main/java/com/goormi/routine/domain/review/service/ReviewServiceImpl.java:573-580 | "-999999999-01" parses, but its previous month leaves the YEAR range, so getPreviousMonth returns null |
| Calendar.PreviousMonthRoundTrip | src/main/java/com/goormi/routine/domain/review/service/ReviewServiceImpl.java:573-580 | for years 1..999999999 the previous month of a formatted month is the formatted preceding month (January to December of the year before) and parses back to it |
| Calendar.PreviousMonthOfYearOne | src/main/java/com/goormi/routine/domain/review/service/ReviewServiceImpl.java:573-580 | with year-of-era formatting the month before "0001-01" prints as "0001-12" |
| Calendar.MonthEnd | src/main/java/com/goormi/routine/domain/review/service/ReviewServiceImpl.java:65 | the month runs from its first day to its end, DaysInMonth days in all |
| ReviewCalc.MonthlyTargetCount | src/main/java/com/goormi/routine/domain/review/service/ReviewServiceImpl.java:525-550 | the count is the number of target days of the month, at most its number of days |
| ReviewCalc.CountTargetDays | src/main/java/com/goormi/routine/domain/review/service/ReviewServiceImpl.java:532-545 | the day-by-day walk counts exactly the days whose weekday index (Sunday 0) has '1' in the mask |
| ReviewCalc.TargetCountBound | src/main/java/com/goormi/routine/domain/review/service/ReviewServiceImpl.java:525-550 | a routine never has more target days than its month has days |
| ReviewCalc.EveryDayMask | src/main/java/com/goormi/routine/domain/review/service/ReviewServiceImpl.java:535-543 | mask "1111111" makes every day of the month a target |
| ReviewCalc.MalformedMaskNoTargets | src/main/java/com/goormi/routine/domain/review/service/ReviewServiceImpl.java:527-530 | a null mask or one whose length is not 7 gives 0 |
| ReviewCalc.CappedRate | src/main/java/com/goormi/routine/domain/review/service/ReviewServiceImpl.java:511 | a routine's rate lies in [0, 100], and is 100 once completions reach the target |
| ReviewCalc.AchievementRate | src/main/java/com/goormi/routine/domain/review/service/ReviewServiceImpl.java:476-523 | the rate lies in [0, 100]; it is 0 without activities or without routine-linked activities |
| ReviewCalc.NoTargetsAchievementRate | src/main/java/com/goormi/routine/domain/review/service/ReviewServiceImpl.java:508-517 | when no linked routine has a positive target the rate is 0 |
| ReviewCalc.AllCompletedAchievementRate | src/main/java/com/goormi/routine/domain/review/service/ReviewServiceImpl.java:504-517 | when every linked routine has a positive target and reached it the rate is 100 |
| ReviewCalc.CalculateAchievementRate | src/main/java/com/goormi/routine/domain/review/service/ReviewServiceImpl.java:476-523 | the loop over routines (one target count each, only positive targets) computes the achievement rate, in [0, 100] |
| ReviewCalc.ComputeDeltas | src/main/java/com/goormi/routine/domain/review/service/ReviewServiceImpl.java:364-384 | without a previous review both deltas are 0; with one they are the score and group differences |
| ReviewCalc.FirstMonthAchievements | src/main/java/com/goormi/routine/domain/review/service/ReviewServiceImpl.java:379-384 | no previous review: the achievements are the first-month line, then the first-score line exactly when the score is positive |
| ReviewCalc.FollowingMonthAchievements | src/main/java/com/goormi/routine/domain/review/service/ReviewServiceImpl.java:368-378 | a previous review: the score line appears iff the score delta is positive, the group line iff the group delta is positive, score line first, no first-month line |
| ReviewCalc.CalculateMonthlyReviewBatch | src/main/java/com/goormi/routine/domain/review/service/ReviewServiceImpl.java:331-407 | the batch snapshot is an error exactly when the month does not parse or the user is not in the preloaded user map |
| ReviewCalc.BatchSnapshotDefaults | src/main/java/com/goormi/routine/domain/review/service/ReviewServiceImpl.java:342-357 | missing score, group and activity entries read as 0; the review is unsent with no message; its rate is in [0, 100] |
| ReviewCalc.TotalAuthCountIsSum | src/main/java/com/goormi/routine/domain/review/service/ReviewServiceImpl.java:393-396 | every displayed count is clamped to be non-negative; the total is the sum of the three kinds whenever that sum is non-negative, and the sum of the three displayed counts when each is |
| ReviewCalc.ClampCount | src/main/java/com/goormi/routine/domain/review/service/ReviewServiceImpl.java:251-264 | a count is clamped into [0, Integer.MAX_VALUE] and kept when it fits |
| ReviewCalc.PreviousReview | src/main/java/com/goormi/routine/domain/review/service/ReviewServiceImpl.java:277-284 | a previous review is only found when the previous month can be computed |
| ReviewCalc.CalculateMonthlyReview | src/main/java/com/goormi/routine/domain/review/service/ReviewServiceImpl.java:244-329 | the single-user review is an error exactly when the month does not parse or the user does not exist |
| ReviewCalc.CorruptPreviousIsFirstMonth | src/main/java/com/goormi/routine/domain/review/service/ReviewServiceImpl.java:277-284 | an unreadable previous record is treated as no previous review: the first line is the first-month line |
| ReviewMessage.TierOf | src/main/java/com/goormi/routine/domain/review/service/ReviewServiceImpl.java:629-640 | the rate tier is ≥90, 80..89, 70..79, 50..69 or below 50, each exactly on its range |
| ReviewMessage.GenerateReviewMessage | src/main/java/com/goormi/routine/domain/review/service/ReviewServiceImpl.java:583-655 | the builder produces the fallback template of the review |
| ReviewMessage.AppendGreeting | src/main/java/com/goormi/routine/domain/review/service/ReviewServiceImpl.java:586-588 | appends the title and greeting section |
| ReviewMessage.AppendScores | src/main/java/com/goormi/routine/domain/review/service/ReviewServiceImpl.java:590-612 | appends the score, group and total lines with their annotations |
| ReviewMessage.AppendDetails | src/main/java/com/goormi/routine/domain/review/service/ReviewServiceImpl.java:614-627 | appends the per-activity section, with the rate only when the personal count is positive and the rate present |
| ReviewMessage.AppendAdvice | src/main/java/com/goormi/routine/domain/review/service/ReviewServiceImpl.java:629-652 | appends the rate sentence, the closing and the footer |
| ReviewMessage.FallbackMessageSections | src/main/java/com/goormi/routine/domain/review/service/ReviewServiceImpl.java:583-655 | the message contains the rate sentence and the closing, starts with the report part and ends with the footer link |
| ReviewMessage.RateSentenceTiers | src/main/java/com/goormi/routine/domain/review/service/ReviewServiceImpl.java:629-643 | each of the five tier sentences (≥90, 80..89, 70..79, 50..69, <50) is chosen exactly on its range, and the no-rate sentence exactly when the rate is null |
| ReviewMessage.SentencesDistinct | src/main/java/com/goormi/routine/domain/review/service/ReviewServiceImpl.java:629-643 | the five tier sentences and the no-rate sentence are pairwise different |
| ReviewMessage.GroupAnnotationIff | src/main/java/com/goormi/routine/domain/review/service/ReviewServiceImpl.java:604-607 | the group line is annotated exactly when groupDifference is non-null and positive, with "+<d>개 그룹 추가!", and the message contains the annotation |
| ReviewMessage.ClosingIff | src/main/java/com/goormi/routine/domain/review/service/ReviewServiceImpl.java:645-649 | the rising closing appears exactly when scoreDifference is non-null and positive |
| ReviewMessage.ScoreAnnotationBySign | src/main/java/com/goormi/routine/domain/review/service/ReviewServiceImpl.java:593-601 | no annotation iff the difference is null; rise/fall marks by sign; "동일" exactly at 0 |
| ReviewMessage.FallbackIgnoresBookkeeping | src/main/java/com/goormi/routine/domain/review/service/ReviewServiceImpl.java:583-655 | the message does not depend on the achievements list, the user id, the stored message or the sent flag |
| ReviewLoad.ToMap | src/main/java/com/goormi/routine/domain/review/service/ReviewServiceImpl.java:729-742 | toMap succeeds exactly when the keys are distinct, and then maps each row's key to its value and holds no other key |
| ReviewLoad.GroupActivityCounts | src/main/java/com/goormi/routine/domain/review/service/ReviewServiceImpl.java:716-724 | the nested per-user, per-type counts exist exactly when no (user, type) repeats, and hold each row's count |
| ReviewLoad.PreviousRecords | src/main/java/com/goormi/routine/domain/review/service/ReviewServiceImpl.java:745-746 | the batch users' records of the previous month, readable or not |
| ReviewLoad.PreviousReviewsAsWritten | src/main/java/com/goormi/routine/domain/review/service/ReviewServiceImpl.java:748-752 | as written: fails exactly when some record is unreadable |
| ReviewLoad.PreviousReviews | src/main/java/com/goormi/routine/domain/review/service/ReviewServiceImpl.java:748-754 | as intended: exactly the readable records, each with its review |
| ReviewLoad.CorruptRecordAbortsLoad | src/main/java/com/goormi/routine/domain/review/service/ReviewServiceImpl.java:748-754 | one unreadable record makes the as-written loader fail, where the intended one drops it |
| ReviewLoad.LoadersAgreeWhenReadable | src/main/java/com/goormi/routine/domain/review/service/ReviewServiceImpl.java:748-754 | with every record readable both loaders give the same map |
| ReviewLoad.LoadAllBatchData | src/main/java/com/goormi/routine/domain/review/service/ReviewServiceImpl.java:713-763 | the batch data exists exactly when no row key repeats and every previous-month record of a batch user is readable (toMap over the parse results throws on the first null), the error then being NullValue; its previous reviews are exactly those records, each with its review |
| ReviewDispatch.MarkSent | src/main/java/com/goormi/routine/domain/review/service/ReviewServiceImpl.java:180-192 | the stored text is the AI text, or the fallback on timeout or error, and the review is marked sent |
| ReviewDispatch.BatchDispatch | src/main/java/com/goormi/routine/domain/review/service/ReviewServiceImpl.java:158-204 | a dispatch succeeds exactly when the month parses, the user exists, the save and the notification succeed; only a successful one notifies |
| ReviewDispatch.AiFailureFallsBack | src/main/java/com/goormi/routine/domain/review/service/ReviewServiceImpl.java:180-194 | every stored batch review is marked sent and carries the snapshot's achievements; a timed-out or failed AI call stores the fallback text |
| ReviewDispatch.FailuresAfterKeys | src/main/java/com/goormi/routine/domain/review/service/ReviewServiceImpl.java:676-679 | after a batch, (u, month) has a failure record iff it had one or u is a batch user whose dispatch failed and whose failure record could be written |
| ReviewDispatch.FailuresAfterOtherMonths | src/main/java/com/goormi/routine/domain/review/service/ReviewServiceImpl.java:676-679 | records of other months are untouched |
| ReviewDispatch.PrepareBatch | src/main/java/com/goormi/routine/domain/review/service/ReviewServiceImpl.java:60-77 | a batch starts exactly when the target month parses, there are users and the preloads succeed, including every previous-month record being readable; an unparseable month and an empty user list are reported as such |
| ReviewDispatch.CorruptPreviousAbortsBatch | src/main/java/com/goormi/routine/domain/review/service/ReviewServiceImpl.java:76-77 | one unreadable previous-month record of a batch user stops the batch in its preload with the load error, before any user is dispatched |
| ReviewDispatch.BatchVerdict | src/main/java/com/goormi/routine/domain/review/service/ReviewServiceImpl.java:107-127 | all sent iff every dispatch succeeded; otherwise success + fail equals the number of users and fail > 0 |
| ReviewDispatch.Tally | src/main/java/com/goormi/routine/domain/review/service/ReviewServiceImpl.java:99-123 | the wait ends in the bare RuntimeException exactly when some dispatch completed exceptionally; otherwise the verdict of the tally |
| ReviewDispatch.ReviewStore.SaveFailedMessage | src/main/java/com/goormi/routine/domain/review/service/ReviewServiceImpl.java:676-679 | the failure record is written when the store accepts it; otherwise the exception escapes and nothing changes |
| ReviewDispatch.ReviewStore.SendReviewBatch | src/main/java/com/goormi/routine/domain/review/service/ReviewServiceImpl.java:657-682 | one dispatch: true iff it succeeded; when it threw, a failure record for (user, month) if that write goes through, otherwise the exception escapes the future; the save and notification as the dispatch left them |
| ReviewDispatch.ReviewStore.SendMonthlyReviewMessages | src/main/java/com/goormi/routine/domain/review/service/ReviewServiceImpl.java:60-128 | a rejected batch changes nothing; otherwise failures, reviews and notifications are those of dispatching every user in order, and the batch ends in the bare RuntimeException when some failure record could not be written, else in the verdict of the tally |
| ReviewDispatch.ReviewStore.SendForMonth | src/main/java/com/goormi/routine/domain/review/service/ReviewServiceImpl.java:64-128 | the same for an explicit target month |
| ReviewDispatch.ReviewStore.DispatchAll | src/main/java/com/goormi/routine/domain/review/service/ReviewServiceImpl.java:96-127 | the dispatch loop ends with the store as the dispatches leave it, in the bare RuntimeException when a dispatch escaped, else in the verdict of the number of successes |
| ReviewDispatch.ReviewStore.EnrichWithAi | src/main/java/com/goormi/routine/domain/review/service/ReviewServiceImpl.java:431-474 | exactly MAX_RETRIES attempts are made; the stored review is the last successfully saved enrichment, or unchanged if none |
| ReviewDispatch.ReviewStore.SendUserReviewMessage | src/main/java/com/goormi/routine/domain/review/service/ReviewServiceImpl.java:131-155 | succeeds iff the id is non-null, the month parses, the user exists and the save and notification succeed; stores the fallback unsent first; never records failures |
| ReviewDispatch.ReviewStore.StoreAndEnrich | src/main/java/com/goormi/routine/domain/review/service/ReviewServiceImpl.java:138-151 | save, notify, then enrich; the error names the first step that failed |
| ReviewDispatch.ReviewStore.RetryFailedMessages | src/main/java/com/goormi/routine/domain/review/service/ReviewServiceImpl.java:207-234 | success + fail equals the number of failed ids; the failure records become the old ones minus exactly the (user, month) records whose re-send and removal both succeeded, the others keeping their values; reviews and notifications are those of the re-sends in order |
| ReviewDispatch.ReviewStore.RetryAll | src/main/java/com/goormi/routine/domain/review/service/ReviewServiceImpl.java:221-230 | the loop continues past failures and counts successes; failures, reviews and notifications are those of re-sending every listed user in order |
| ReviewDispatch.ReviewStore.RetryOne | src/main/java/com/goormi/routine/domain/review/service/ReviewServiceImpl.java:222-229 | one re-send succeeds iff the send and then removeFailedMessage go through, and only then is its record removed; its review write and notification are those of the send, even when the removal fails |
| ReviewDispatch.RetryKeepsOtherReviews | src/main/java/com/goormi/routine/domain/review/service/ReviewServiceImpl.java:221-230 | the retry pass changes no review record outside its own users in the target month |
| ReviewDispatch.ReviewStore.FailedMessageCount | src/main/java/com/goormi/routine/domain/review/service/ReviewServiceImpl.java:237-242 | the count is 0 exactly when no failure record is of the counted month |
| ReviewDispatch.DefaultMonthsDiffer | src/main/java/com/goormi/routine/domain/review/service/ReviewServiceImpl.java:207-242 | without a month argument the count reads the current month while batch and retry use the previous one |
| ReviewDispatch.LastEnrichedIsLatestSuccess | src/main/java/com/goormi/routine/domain/review/service/ReviewServiceImpl.java:437-472 | a stored enrichment comes from the latest attempt whose AI call and save both succeeded |
| ReviewDispatch.NoSuccessKeepsFallback | src/main/java/com/goormi/routine/domain/review/service/ReviewServiceImpl.java:437-472 | with no successful attempt nothing is overwritten |
| ReviewDispatch.ComposeSend | src/main/java/com/goormi/routine/domain/review/service/ReviewServiceImpl.java:136-141 | the first stored review is the computed snapshot with the fallback text and messageSent false |
| Ranking.Initialized | src/main/java/com/goormi/routine/domain/ranking/service/RankingServiceImpl.java:322-346 | a row for the key exists afterwards; existing rows are kept; a new one is the fresh row |
| Ranking.Bumped | src/main/java/com/goormi/routine/domain/ranking/service/RankingServiceImpl.java:242-276 | the key's score becomes its old score (0 if absent) plus the delta; no other row changes |
| Ranking.ResetAll | src/main/java/com/goormi/routine/domain/ranking/service/RankingServiceImpl.java:280-300 | the same keys, each with score 0 and the current month |
| Ranking.InitializeIdempotent | src/main/java/com/goormi/routine/domain/ranking/service/RankingServiceImpl.java:322-346 | initializing twice is initializing once |
| Ranking.ResetKeepsCount | src/main/java/com/goormi/routine/domain/ranking/service/RankingServiceImpl.java:280-300 | the reset keeps the number of rows |
| Ranking.RankingStore.InitializeRanking | src/main/java/com/goormi/routine/domain/ranking/service/RankingServiceImpl.java:322-346 | a null user is rejected and nothing changes; otherwise the table is Initialized |
| Ranking.RankingStore.UpdatePersonalScore | src/main/java/com/goormi/routine/domain/ranking/service/RankingServiceImpl.java:242-256 | the personal row is bumped by the score, created first when absent |
| Ranking.RankingStore.UpdateGroupScore | src/main/java/com/goormi/routine/domain/ranking/service/RankingServiceImpl.java:260-276 | the (user, group) row is bumped by authCount × 10, created first when absent |
| Ranking.RankingStore.UpdateRankingScore | src/main/java/com/goormi/routine/domain/ranking/service/RankingServiceImpl.java:224-238 | a null user or a negative score is rejected; a group row grows by 100 × score, a personal row by score |
| Ranking.RankingStore.TotalScoreByUser | src/main/java/com/goormi/routine/domain/ranking/service/RankingServiceImpl.java:303-318 | a null user is rejected; a user without group rows totals 0 |
| Ranking.RankingStore.PersonalRankings | src/main/java/com/goormi/routine/domain/ranking/service/RankingServiceImpl.java:48-90 | ranks are index + 1 over descending totals; each user with a group row appears once, with its getTotalScoreByUser total; totalParticipants is the list length |
| Ranking.RankingStore.ResetMonthlyRankings | src/main/java/com/goormi/routine/domain/ranking/service/RankingServiceImpl.java:280-300 | an empty table is left alone; otherwise every row is reset and the month recorded |
| Ranking.Streak | src/main/java/com/goormi/routine/domain/ranking/service/RankingServiceImpl.java:349-375 | the streak is the longest prefix whose i-th day is today − i |
| Ranking.ConsecutiveDays | src/main/java/com/goormi/routine/domain/ranking/service/RankingServiceImpl.java:349-375 | the counting loop with its break computes the streak |
| Ranking.StreakFrom | src/main/java/com/goormi/routine/domain/ranking/service/RankingServiceImpl.java:349-375 | any matching prefix bounds the streak from below |
| Ranking.StreakStopsAtRepeat | src/main/java/com/goormi/routine/domain/ranking/service/RankingServiceImpl.java:349-375 | two activities on one day stop the streak |
| Ranking.StreakBonusTiers | src/main/java/com/goormi/routine/domain/ranking/service/RankingServiceImpl.java:58-61 | truncated, the bonus as written is 1 at two days, 15 from thirty days, and 0 otherwise (3 to 29 days included) |
| Ranking.ConsecutiveBonus | src/main/java/com/goormi/routine/domain/ranking/service/RankingServiceImpl.java:433-440 | with the guard corrected to two days and more: between 0 and 15, 0 below two days, 15 from thirty days on |
| Ranking.StreakBonus | src/main/java/com/goormi/routine/domain/ranking/service/RankingServiceImpl.java:58-61 | the bonus added to a score is the (int) truncation of calculateConsecutiveBonus as written, between 0 and 15 |
| Ranking.ConsecutiveBonusAsWritten | src/main/java/com/goormi/routine/domain/ranking/service/RankingServiceImpl.java:433-440 | as written: between 0 and 15 for a non-negative streak, at most 1 up to two days, 0 from three to twenty-nine days, 15 from thirty |
| Ranking.UserBonus | src/main/java/com/goormi/routine/domain/ranking/service/RankingServiceImpl.java:311-316 | the bonus added to each of a user's scores is 15 exactly for a streak of thirty days or more, 1 exactly for a two-day streak, 0 otherwise |
| Ranking.CorrectedStreakBonus | src/main/java/com/goormi/routine/domain/ranking/service/RankingServiceImpl.java:433-440 | the truncated bonus with the corrected guard, between 0 and 15 |
| Ranking.CorrectedStreakBonusTiers | src/main/java/com/goormi/routine/domain/ranking/service/RankingServiceImpl.java:433-440 | with the corrected guard: 0 below two days, half the streak rounded down from two to twenty-nine days (1 up to 14), 15 from thirty |
| Ranking.CorrectedStreakBonusMonotone | src/main/java/com/goormi/routine/domain/ranking/service/RankingServiceImpl.java:433-440 | with the corrected guard a longer streak never earns a smaller bonus |
| Ranking.AsWrittenBonusDrops | src/main/java/com/goormi/routine/domain/ranking/service/RankingServiceImpl.java:433-440 | as written, two days give a bonus of 1 and every streak of three to twenty-nine days gives 0 |
| Ranking.ParticipationBonus | src/main/java/com/goormi/routine/domain/ranking/service/RankingServiceImpl.java:454-490 | the bonus lies in [0, 25] and is 0 for an empty group |
| Ranking.ParticipationTiers | src/main/java/com/goormi/routine/domain/ranking/service/RankingServiceImpl.java:454-490 | the tiers 15/10/5/0 at shares 0.8/0.6/0.4 plus 10/5/0 at sizes 10/5 |
| Ranking.UserSumAfterUpdate | src/main/java/com/goormi/routine/domain/ranking/service/RankingServiceImpl.java:242-276 | an update changes the updated user's total by the delta for a group row, and nobody else's |
| Ranking.GroupTotals | src/main/java/com/goormi/routine/domain/ranking/service/RankingServiceImpl.java:52-63 | one entry per user with a group row, holding that user's sum |
| Ranking.SortDesc | src/main/java/com/goormi/routine/domain/ranking/service/RankingServiceImpl.java:65-67 | the result is sorted by descending total and a permutation of the input |
| Ranking.RankedTotals | src/main/java/com/goormi/routine/domain/ranking/service/RankingServiceImpl.java:65-89 | the ranked list has descending totals, distinct users, each user's total, and exactly the users with group rows |
| Storage.SafeExt | src/main/java/com/goormi/routine/domain/storage/StorageController.java:90-95 | no '.' and no capital in the result; "" when no '.' after index 0; otherwise the lower-cased text after the last '.' |
| Storage.SafeExtOfDotted | src/main/java/com/goormi/routine/domain/storage/StorageController.java:90-95 | stem + "." + ext gives ext lower-cased |
| Storage.SafeExtUpperCase | src/main/java/com/goormi/routine/domain/storage/StorageController.java:90-95 | "photo.JPG" gives "jpg" |
| Storage.SafeExtLastDotOnly | src/main/java/com/goormi/routine/domain/storage/StorageController.java:90-95 | "a.b.png" gives "png" |
| Storage.SafeExtNoExtension | src/main/java/com/goormi/routine/domain/storage/StorageController.java:90-95 | "photo" and ".jpg" give "" |
| Storage.ParseVisibility | src/main/java/com/goormi/routine/domain/storage/StorageController.java:58-63 | PRIVATE exactly for "private" in any letter case; null and unknown values are PUBLIC |
| Storage.PrefixRoundTrip | src/main/java/com/goormi/routine/domain/storage/StorageController.java:58-66 | a visibility's prefix parses back to it |
| Storage.PrefixFor | src/main/java/com/goormi/routine/domain/storage/StorageController.java:64-66 | the prefix is "public" or "private" |
| Storage.ProfileKey | src/main/java/com/goormi/routine/domain/storage/StorageController.java:128-130 | a profile key lies under "<prefix>/users/" and ends in "." and the extension |
| Storage.ProofShotKey | src/main/java/com/goormi/routine/domain/storage/StorageController.java:154-156 | a proof-shot key lies under "<prefix>/proof-shots/" and ends in "." and the extension |
| Storage.GroupRoomKey | src/main/java/com/goormi/routine/domain/storage/StorageController.java:181-183 | a group-room key lies under "group-rooms/" and ends in "." and the extension |
| Storage.ParseVisibilityIgnoresCase | src/main/java/com/goormi/routine/domain/storage/StorageController.java:58-63 | lower- or upper-casing the parameter changes nothing |
| Storage.MakePutUrl | src/main/java/com/goormi/routine/domain/storage/StorageController.java:68-88 | 400 exactly when the lower-cased content type is not an image type; otherwise the key, the signed URL and expMin × 60 |
| Storage.RequestParam | src/main/java/com/goormi/routine/domain/storage/StorageController.java:118-119 | an absent or empty request parameter reads as its defaultValue, a present one as itself |
| Storage.PresignProfilePut | src/main/java/com/goormi/routine/domain/storage/StorageController.java:113-132 | 400 unless the extension is allowed; otherwise makePutUrl of <prefix>/users/<id>/profile/<uuid>.<ext>, with contentType defaulting to image/jpeg and visibility to PRIVATE |
| Storage.PresignProofShotPut | src/main/java/com/goormi/routine/domain/storage/StorageController.java:139-159 | 400 unless the extension of the (default photo.jpg) filename is allowed; otherwise the dated proof-shot key with zero-padded month and day, visibility defaulting to PRIVATE and contentType to image/jpeg |
| Storage.PresignGroupRoomPut | src/main/java/com/goormi/routine/domain/storage/StorageController.java:166-186 | 400 unless the extension of the (default photo.jpg) filename is allowed; otherwise the group-rooms key, contentType defaulting to image/jpeg |
| Storage.DefaultsAccepted | src/main/java/com/goormi/routine/domain/storage/StorageController.java:171-173 | the default filename has the allowed extension jpg and the default content type is accepted |
| Storage.ProfileDefaults | src/main/java/com/goormi/routine/domain/storage/StorageController.java:118-119 | without visibility and content type the profile endpoint issues a "private/…" key |
| Storage.ProofShotDefaults | src/main/java/com/goormi/routine/domain/storage/StorageController.java:143-145 | with no optional parameter the proof-shot endpoint issues a private jpg key |
| Storage.GroupRoomDefaults | src/main/java/com/goormi/routine/domain/storage/StorageController.java:171-175 | with no optional parameter the group-room endpoint issues a jpg key |
| Storage.GroupRoomIgnoresVisibility | src/main/java/com/goormi/routine/domain/storage/StorageController.java:175-184 | the group-room answer is the same for every visibility |
| Storage.DeleteObject | src/main/java/com/goormi/routine/domain/storage/StorageController.java:235-261 | 400 exactly for a null key or one outside "public/" and "private/"; 204 also for a missing object; 500 only on an SDK failure |
| Storage.PrefixedKeysDeletable | src/main/java/com/goormi/routine/domain/storage/StorageController.java:241-243 | profile and proof-shot keys, built under a visibility prefix, pass the delete guard |
| Storage.GroupRoomKeysNotDeletable | src/main/java/com/goormi/routine/domain/storage/StorageController.java:241-243 | group-room keys never pass the delete guard, so they cannot be deleted |
| Storage.IssuedKeyExtension | src/main/java/com/goormi/routine/domain/storage/StorageController.java:122-130 | the extension read back from an issued profile key is the validated one |
| Storage.Disposition | src/main/java/com/goormi/routine/domain/storage/StorageController.java:210-215 | "attachment" exactly when `as` equals "download" ignoring case, else "inline" |
| Storage.DispositionExamples | src/main/java/com/goormi/routine/domain/storage/StorageController.java:210-215 | "DOWNLOAD" downloads; null and "inline" are inline |
| Chat.ActiveUsers | src/main/java/com/goormi/routine/domain/chat/service/ChatRoomServiceImpl.java:212-214 | the users holding an active record of the room |
| Chat.ActivateAddsOne | src/main/java/com/goormi/routine/domain/chat/service/ChatRoomServiceImpl.java:200-224 | activating a non-active user's record adds one to that room's count and no other room's |
| Chat.DeactivateRemovesOne | src/main/java/com/goormi/routine/domain/chat/service/ChatRoomServiceImpl.java:235-240 | deactivating an active record removes one from that room's count and no other room's |
| Chat.ListedRooms | src/main/java/com/goormi/routine/domain/chat/service/ChatRoomServiceImpl.java:85-89 | the active rooms, of the group when one is given, in id order |
| Chat.CountActiveByRoomIds | src/main/java/com/goormi/routine/domain/chat/service/ChatRoomServiceImpl.java:101-106 | the grouped count has entries only for listed rooms with active members |
| Chat.RoomRow | src/main/java/com/goormi/routine/domain/chat/service/ChatRoomServiceImpl.java:113-117 | a missing count becomes 0 and a missing creator nickname "Unknown" |
| Chat.ChatRoomService.CreateRoom | src/main/java/com/goormi/routine/domain/chat/service/ChatRoomServiceImpl.java:46-78 | unknown user, non-member and taken name are refused with nothing changed; otherwise a room is added with the creator as active ADMIN and count 1 |
| Chat.ChatRoomService.JoinRoom | src/main/java/com/goormi/routine/domain/chat/service/ChatRoomServiceImpl.java:190-227 | a former member is reactivated with no capacity check; an active member is refused; a newcomer is refused when the room is full, else added as active MEMBER; every success adds one to the count |
| Chat.ChatRoomService.LeaveRoom | src/main/java/com/goormi/routine/domain/chat/service/ChatRoomServiceImpl.java:231-241 | only an active member may leave; the record turns inactive with leftAt set and the count drops by one |
| Chat.ChatRoomService.MessagesGuard | src/main/java/com/goormi/routine/domain/chat/service/ChatRoomServiceImpl.java:245-251 | messages are readable only by an active member of the room |
| Chat.ChatRoomService.GetRooms | src/main/java/com/goormi/routine/domain/chat/service/ChatRoomServiceImpl.java:82-118 | one row per listed room, each with the defaulted count and creator nickname |
| Chat.RejoinExceedsCapacity | src/main/java/com/goormi/routine/domain/chat/service/ChatRoomServiceImpl.java:200-206 | a full room of at most two takes back a former member and reaches three active members |
| Chat.FindByEmail | src/main/java/com/goormi/routine/domain/chat/service/ChatRoomServiceImpl.java:47-48 | a found account is in the list and has the email; none is found only when no account has it |
| Chat.FindByEmailFirst | src/main/java/com/goormi/routine/domain/chat/service/ChatRoomServiceImpl.java:47-48 | the account found is the first one holding the email |
| Users.Built | src/main/java/com/goormi/routine/domain/user/entity/User.java:46-57 | the builder's defaults: alarm on, dark mode off, role USER, no id, no token |
| Users.WithProfile | src/main/java/com/goormi/routine/domain/user/entity/User.java:67-77 | each non-null argument replaces its field, a null one keeps it, nothing else changes |
| Users.WithSettings | src/main/java/com/goormi/routine/domain/user/entity/User.java:79-86 | the same null-preserving rule for the two flags, nothing else changes |
| Users.WithProfileIdempotent | src/main/java/com/goormi/routine/domain/user/entity/User.java:67-77 | repeating an update changes nothing more; an all-null update changes nothing |
| Users.ProfileAndSettingsCommute | src/main/java/com/goormi/routine/domain/user/entity/User.java:67-86 | profile and settings updates touch disjoint fields and commute |
| Users.User.CreateKakaoUser | src/main/java/com/goormi/routine/domain/user/entity/User.java:92-102 | a fresh user with the given fields, role USER, alarm on, dark mode off |
| Users.User.UpdateProfile | src/main/java/com/goormi/routine/domain/user/entity/User.java:67-77 | the object's state becomes WithProfile of its old state |
| Users.User.UpdateSettings | src/main/java/com/goormi/routine/domain/user/entity/User.java:79-86 | the object's state becomes WithSettings of its old state |
| Users.User.UpdateRefreshToken | src/main/java/com/goormi/routine/domain/user/entity/User.java:88-90 | only the token changes |
| Users.AuthAccount.Deactivate | src/main/java/com/goormi/routine/domain/auth/entity/AuthAccount.java:50-52 | the account turns inactive, nothing else changes |
| Users.AuthAccount.ClearRefreshToken | src/main/java/com/goormi/routine/domain/auth/entity/AuthAccount.java:58-60 | the token becomes null, nothing else changes |
| Users.CandidatesDistinct | src/main/java/com/goormi/routine/domain/user/service/UserServiceImpl.java:94-102 | original + k differs from the original and from original + j for j ≠ k |
| Users.GenerateUniqueNickname | src/main/java/com/goormi/routine/domain/user/service/UserServiceImpl.java:94-102 | the result is free; it is the original when that is free, else original + k for the smallest free k ≥ 1 |
| Users.Greeting | src/main/java/com/goormi/routine/domain/user/service/UserServiceImpl.java:81 | the message is "안녕하세요! " + nickname + "입니다." piece by piece |
| Users.GreetingInjective | src/main/java/com/goormi/routine/domain/user/service/UserServiceImpl.java:81 | different nicknames get different greetings |
| Users.UserService.FindById | src/main/java/com/goormi/routine/domain/user/service/UserServiceImpl.java:31-34 | found exactly when the id is stored; otherwise UserNotFound with the id |
| Users.UserService.UpdateProfile | src/main/java/com/goormi/routine/domain/user/service/UserServiceImpl.java:50-62 | unknown user is refused; a changed nickname that exists is refused with the user untouched; otherwise the null-preserving update |
| Users.UserService.RejectsNickname | src/main/java/com/goormi/routine/domain/user/service/UserServiceImpl.java:53-54 | only a nickname some stored user holds can be refused, and never one equal to the current nickname |
| Users.UserService.SameNicknameAccepted | src/main/java/com/goormi/routine/domain/user/service/UserServiceImpl.java:53-56 | keeping one's nickname, or sending none, always passes the duplicate check |
| Users.UserService.UpdateSettings | src/main/java/com/goormi/routine/domain/user/service/UserServiceImpl.java:66-72 | unknown user is refused; otherwise the null-preserving settings update |
| Users.UserService.CreateUserWithKakao | src/main/java/com/goormi/routine/domain/user/service/UserServiceImpl.java:76-92 | a new user with a nickname nobody held (the Kakao one when free), greeted with it, under the next id, with an active tokenless account |
| Users.UserService.ClearRefreshToken | src/main/java/com/goormi/routine/domain/user/service/UserServiceImpl.java:130-137 | a missing account is refused; otherwise the token is cleared, the account stays active and the stored token is deleted |
| Users.UserService.DeactivateUser | src/main/java/com/goormi/routine/domain/user/service/UserServiceImpl.java:141-149 | a missing account is refused; otherwise the account is inactive with no token and the stored token is deleted |
| JwtFilter.ExtractToken | src/main/java/com/goormi/routine/common/util/JwtAuthenticationFilter.java:51-57 | a token exactly when the header starts with "Bearer ", and then the header is "Bearer " + token |
| JwtFilter.ExtractTokenRoundTrip | src/main/java/com/goormi/routine/common/util/JwtAuthenticationFilter.java:51-57 | "Bearer " + t gives t back |
| JwtFilter.ExtractTokenRejects | src/main/java/com/goormi/routine/common/util/JwtAuthenticationFilter.java:51-57 | "bearer abc", "Bearerabc" and a missing header give no token |
| JwtFilter.ShouldNotFilterExamples | src/main/java/com/goormi/routine/common/util/JwtAuthenticationFilter.java:60-65 | "/auth/kakao" is skipped; "/auth", "/authority/x" and "/api/users" are filtered |
| JwtFilter.ShouldNotFilter | src/main/java/com/goormi/routine/common/util/JwtAuthenticationFilter.java:60-65 | a skipped path is at least six characters long and starts with '/' |
| JwtFilter.ShouldNotFilterSubtree | src/main/java/com/goormi/routine/common/util/JwtAuthenticationFilter.java:60-65 | everything below a skipped path is skipped |
| JwtFilter.ShouldNotFilterDirectories | src/main/java/com/goormi/routine/common/util/JwtAuthenticationFilter.java:60-65 | a path beginning with "/auth", "/swagger-ui" or "/v3/api-docs" is skipped exactly when a '/' follows the name |
| JwtFilter.ParseLong | src/main/java/com/goormi/routine/common/util/JwtUtil.java:75-80 | a parsed subject is a 64-bit value; an empty one does not parse |
| JwtFilter.ParseLongRoundTrip | src/main/java/com/goormi/routine/common/util/JwtUtil.java:75-80 | every 64-bit value parses back from its decimal rendering |
| JwtFilter.ParseLongRejects | src/main/java/com/goormi/routine/common/util/JwtUtil.java:75-80 | "-" and "12a" do not parse |
| JwtFilter.ParseLongOutOfRange | src/main/java/com/goormi/routine/common/util/JwtUtil.java:75-80 | numbers outside the 64-bit range do not parse |
| JwtFilter.Decide | src/main/java/com/goormi/routine/common/util/JwtAuthenticationFilter.java:35-48 | authentication is set iff the token is present, valid, not blacklisted and its subject parses, with that id as principal; cleared iff it is all of that but the subject does not parse; without a token nothing happens |
| JwtFilter.BlacklistedNeverAuthenticates | src/main/java/com/goormi/routine/common/util/JwtAuthenticationFilter.java:35-41 | a blacklisted token leaves the context alone |
| JwtFilter.ValidTokenAuthenticates | src/main/java/com/goormi/routine/common/util/JwtAuthenticationFilter.java:35-41 | a valid token whose subject is a 64-bit id authenticates as that id |
| JwtFilter.DoFilterInternal | src/main/java/com/goormi/routine/common/util/JwtAuthenticationFilter.java:29-49 | the context changes as Decide says, and the chain always continues |
| Notifications.Content | src/main/java/com/goormi/routine/domain/notification/service/NotificationServiceImpl.java:47-72 | an unlisted type gets "" |
| Notifications.ContentDependencies | src/main/java/com/goormi/routine/domain/notification/service/NotificationServiceImpl.java:47-72 | the role-change text ignores the role, the status-change text ignores the status, only the monthly review reads the month |
| Notifications.ContentQuotesSwappedField | src/main/java/com/goormi/routine/domain/notification/service/NotificationServiceImpl.java:51-58 | the role-change text tells statuses apart and the status-change text tells roles apart |
| Notifications.MonthlyReviewNamesReceiver | src/main/java/com/goormi/routine/domain/notification/service/NotificationServiceImpl.java:68-71 | the monthly review text starts with the receiver's nickname |
| Notifications.LookupError | src/main/java/com/goormi/routine/domain/notification/service/NotificationServiceImpl.java:35-45 | no error exactly when sender, receiver, group and the receiver's membership all exist; the sender is looked up first |
| Notifications.NullSenderAlwaysFails | src/main/java/com/goormi/routine/domain/notification/service/NotificationServiceImpl.java:35-36 | a notification with no sender, as the review dispatch sends it, always fails |
| Notifications.Notification.UpdateIsRead | src/main/java/com/goormi/routine/domain/notification/service/NotificationServiceImpl.java:108 | only the read flag changes |
| Notifications.NotificationService.CreateNotification | src/main/java/com/goormi/routine/domain/notification/service/NotificationServiceImpl.java:33-80 | the first failed lookup is the error and nothing is saved; otherwise a fresh unread notification with the type's text is saved under the next id |
| Notifications.NotificationService.UpdateIsRead | src/main/java/com/goormi/routine/domain/notification/service/NotificationServiceImpl.java:97-109 | unknown caller, unknown notification and a caller who is not the receiver are refused; only the receiver sets the flag; receiver, sender, group, type and content of the notification stay as they were |

## Left out

- Concurrency: the executor, the `CompletableFuture` fan-out, the 30-minute wait on all dispatches, the 10-second AI timeout with `cancel(true)` and the `Thread.sleep` backoff. Dispatch runs one user after another; the AI step's answer is a parameter (`AiOk`, `AiTimedOut`, `AiError`).
- The AI service itself (prompt and HTTP call) and the JSON (de)serialisation: a stored review is `Readable(review)` or `Corrupt`.
- The notification call made by the review dispatch is an outcome parameter. `Notifications.NullSenderAlwaysFails` shows that `NotificationServiceImpl` would refuse it.
- `getFailedUserIds` of the Redis store is not among the modelled files. `ReviewDispatch.ReviewStore.RetryFailedMessages` takes that listing as a parameter.
- `ReviewDispatch.ReviewStore.SaveFailedMessage`, `ReviewDispatch.ReviewStore.RetryOne`: a failure-record write or removal that fails changes nothing in the store (no partial write). When a batch dispatch's record write fails, the other dispatches still run to the end before the wait reports the failure, since `allOf` completes only after all of them.
- Repository query semantics (grouped counts, score sums, "active" filters) are given maps and sequences, not derived from stored entities.
- The clock (`LocalDate.now()`, `System.currentTimeMillis()`), UUIDs and the presigner's URL are parameters.
- `Ranking.RankingStore.TotalScoreByUser`, `Ranking.RankingStore.PersonalRankings`: the streak bonus uses each user's activity dates as a given map; the repository query behind it is not modelled.
- Timestamps (`createdAt`, `updatedAt`, the ranking's `updatedAt`) are dropped. Chat `joinedAt`/`leftAt` are optional day numbers: `None` is the entity default the service does not set.
- Integers are unbounded. Java's 32-bit and 64-bit wrap-around of scores, counts and `score * 10` is not modelled, except:
  - the `Integer.MAX_VALUE` clamps of `calculateMonthlyReview`;
  - the 64-bit range of `Long.parseLong`.
- `double` arithmetic is exact `real` arithmetic; `(int)` casts truncate toward zero. So the truncated achievement rate can be one more than Java's: for two routines at 1/17 and 16/17 of their targets the double average is 49.99999999999999, which Java truncates to 49, while the model's exact average is 50.
- The ranking's weighted score, the group weight multiplier, and the participation-rate and average rounding of the display responses are not modelled. They are display values outside the modelled operations.
- Letter case (`toLowerCase`, `toUpperCase`, `equalsIgnoreCase`) is ASCII-only. There is no locale or Unicode case mapping.
- `HashMap` iteration order: the average of the rates does not depend on it. Ties between equal totals in the personal ranking are ordered by insertion, and the source leaves that order to the hash map.
- The catch-all `catch (Exception e)` fallbacks that return 0 on unexpected runtime errors are not modelled. The model has no such errors.
- Operations sitting beside the modelled ones are not modelled:
  - `getMyRooms`, `getRoom` and `getRoomByGroupId`;
  - paging;
  - message contents and reactions;
  - `getNotificationsByReceiver` and `getNotificationsByNotificationType`;
  - `generateTokens`, `getMyProfile`, `getPublicProfile` and `isNicknameExists`;
  - `getMonthlyReview` and `saveReviewToRedis` beyond the map write;
  - the global and top-3 group rankings.
- `Users.UserService.CreateUserWithKakao`: like the source, it leaves `kakaoId` and `email` of the user null. The Kakao id is stored on the account only. `User.java:28-32` maps both columns `nullable = false` (and `kakaoId` unique), so under a NOT NULL schema or Hibernate's nullability check the save at `UserServiceImpl.java:83` would be refused and the call would throw; the model assumes the store accepts the null columns and always succeeds.
- `Users.UserService.RejectsNickname`: `existsByNickname(null)` is taken to be false.
- `Chat.FindByEmail`: the accounts are a list, and an email held by two accounts resolves to the first of them. What the repository does with a duplicate email is not modelled.
- `Boolean` flags of `updateSettings` are `Option<bool>`, and a stored user's flags are plain booleans.
- `Notifications.NotificationService.CreateNotification`: a null id is reported as `UserNotFound`/`GroupNotFound` rather than as the repository's exception on null. The Notification entity is not among the modelled files; its factory is taken to create an unread notification.
- `Storage.PresignProofShotPut`: the date parts are formatted from the given date; the presigned URL is a parameter.
- `JwtFilter.ParseLong`: only ASCII '0'..'9' are digits. `Long.parseLong` reads digits with `Character.digit`, which also accepts the other Unicode decimal digits (so "١٢" parses to 12 there and to `None` here).
- `Calendar.MonthEnd`: for December of year 999999999 the source's `startDate.plusMonths(1)` leaves the YEAR range and throws; the model computes that month's end like any other.
- `JwtFilter.Decide`: JwtUtil's signature validation, TokenService's blacklist and the subject claim are function parameters. `JwtAuthenticationFilterTest` tests a different filter class and is not used.

## Findings

| source | as written | input that shows it | evidently intended | confidence | as-written member | corrected member |
|---|---|---|---|---|---|---|
| src/main/java/com/goormi/routine/domain/review/service/ReviewServiceImpl.java:748-754 | `Collectors.toMap` with `parseReviewData` as value throws on the first null (unparseable) previous review, so the `removeIf(Objects::isNull)` on the next line is never reached and the whole batch aborts | one user whose stored previous-month review does not parse: `map[7 := Corrupt]` | unparseable previous reviews are dropped and the batch goes on, treating that user as in a first month | not executed | ReviewLoad.PreviousReviewsAsWritten, ReviewLoad.CorruptRecordAbortsLoad | ReviewLoad.PreviousReviews |
| src/main/java/com/goormi/routine/domain/ranking/service/RankingServiceImpl.java:433-440 | the guard `consecutiveDays <= 2 && consecutiveDays < 30` gives half a point a day only up to two days, so every streak of three to twenty-nine days earns nothing; its second conjunct is redundant as written | a streak of 10 days: bonus 0, while 2 days give 1 | `consecutiveDays >= 2 && consecutiveDays < 30`: half a point a day from two days, meeting the 15 of thirty days | not executed | Ranking.ConsecutiveBonusAsWritten, Ranking.AsWrittenBonusDrops | Ranking.ConsecutiveBonus, Ranking.CorrectedStreakBonusTiers, Ranking.CorrectedStreakBonusMonotone |
