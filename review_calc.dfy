/** The monthly review computation of ReviewServiceImpl: the per-routine
    target count of a month, the capped achievement rate, and the review
    snapshot with its deltas against the previous month and its achievement
    lines. */
module ReviewCalc {
  import opened Wrappers
  import opened Text
  import opened Calendar

  /** The personal routine an activity points at; `repeatDays` is the
      seven-character Sunday-first mask ("0100100" = Monday and Thursday). */
  datatype Routine = Routine(routineId: int, repeatDays: Option<string>)

  /** A PERSONAL_ROUTINE_COMPLETE activity of the month; `routine` is null for
      an activity not linked to a routine. */
  datatype RoutineActivity = RoutineActivity(routine: Option<Routine>)

  datatype ActivityType = PersonalRoutineComplete | GroupAuthComplete | DailyChecklist

  /** MonthlyReviewResponse. The Integer fields that the message template
      null-checks are Option; `messageContent` is null until a message is set. */
  datatype Review = Review(
    userId: int,
    nickname: string,
    monthYear: string,
    totalScore: int,
    participatingGroups: int,
    personalRoutineAchievementRate: Option<int>,
    totalAuthCount: Option<int>,
    personalRoutineCount: Option<int>,
    groupAuthCount: Option<int>,
    dailyChecklistCount: Option<int>,
    achievements: seq<string>,
    scoreDifference: Option<int>,
    groupDifference: Option<int>,
    messageContent: Option<string>,
    messageSent: bool)

  /** Why a review cannot be computed: the month does not parse
      (LocalDate.parse throws), or the user is unknown. */
  datatype CalcError = BadMonth | UserNotFound(userId: int)

  // ---------------------------------------------------------------------
  // Monthly target count (calculateMonthlyTargetCount)

  /** A day is a target day of a mask when the mask has seven characters
      and holds '1' at the day's Sunday-first weekday index. */
  predicate IsTargetDay(mask: string, day: int) {
    |mask| == 7 && mask[WeekdayIndex(day)] == '1'
  }

  /** The day numbers lo..hi. */
  function Range(lo: int, hi: int): (r: set<int>)
    ensures forall d :: d in r <==> lo <= d <= hi
    ensures lo <= hi + 1 ==> |r| == hi - lo + 1
    decreases hi - lo
  {
    if lo > hi then {} else Range(lo, hi - 1) + {hi}
  }

  /** The target days of a routine between day numbers lo and hi inclusive;
      none at all when the mask is null or not seven characters long. */
  function TargetDaysBetween(repeatDays: Option<string>, lo: int, hi: int): (t: set<int>)
    ensures t <= Range(lo, hi)
  {
    match repeatDays
    case None => {}
    case Some(mask) => set d | d in Range(lo, hi) && IsTargetDay(mask, d)
  }

  function TargetDays(repeatDays: Option<string>, ym: YearMonth): set<int>
    requires ValidMonth(ym)
  {
    TargetDaysBetween(repeatDays, MonthStart(ym), MonthEnd(ym))
  }

  /** The number of target days in the month. */
  function TargetCount(repeatDays: Option<string>, ym: YearMonth): nat
    requires ValidMonth(ym)
  {
    |TargetDays(repeatDays, ym)|
  }

  /** calculateMonthlyTargetCount: a null mask or one that is not seven
      characters long gives 0; otherwise the days of the month are walked. */
  method MonthlyTargetCount(routine: Routine, ym: YearMonth) returns (count: nat)
    requires ValidMonth(ym)
    ensures count == TargetCount(routine.repeatDays, ym)
    ensures count <= DaysInMonth(ym.year, ym.month)
  {
    TargetCountBound(routine.repeatDays, ym);
    if routine.repeatDays.None? || |routine.repeatDays.value| != 7 {
      assert TargetDays(routine.repeatDays, ym) == {};
      return 0;
    }
    count := CountTargetDays(routine.repeatDays, MonthStart(ym), MonthEnd(ym));
  }

  /** The day-by-day walk from `start` to `end`: one increment per day whose
      weekday the mask selects. */
  method CountTargetDays(repeatDays: Option<string>, start: int, end: int) returns (count: nat)
    requires repeatDays.Some? && |repeatDays.value| == 7
    requires start <= end + 1
    ensures count == |TargetDaysBetween(repeatDays, start, end)|
  {
    var mask := repeatDays.value;
    var current := start;
    count := 0;
    while current <= end
      invariant start <= current <= end + 1
      invariant count == |TargetDaysBetween(repeatDays, start, current - 1)|
      decreases end - current
    {
      TargetDaysStep(repeatDays, start, current);
      if mask[WeekdayIndex(current)] == '1' {
        count := count + 1;
      }
      current := current + 1;
    }
  }

  /** Extending the range by one day adds that day exactly when it is a
      target day. */
  lemma TargetDaysStep(repeatDays: Option<string>, lo: int, hi: int)
    requires lo <= hi
    ensures repeatDays.Some? && IsTargetDay(repeatDays.value, hi) ==>
      TargetDaysBetween(repeatDays, lo, hi) == TargetDaysBetween(repeatDays, lo, hi - 1) + {hi}
    ensures !(repeatDays.Some? && IsTargetDay(repeatDays.value, hi)) ==>
      TargetDaysBetween(repeatDays, lo, hi) == TargetDaysBetween(repeatDays, lo, hi - 1)
    ensures hi !in TargetDaysBetween(repeatDays, lo, hi - 1)
  {
  }

  lemma {:induction false} TargetDaysBetweenBound(repeatDays: Option<string>, lo: int, hi: int)
    requires lo <= hi + 1
    ensures |TargetDaysBetween(repeatDays, lo, hi)| <= hi - lo + 1
    decreases hi - lo
  {
    if lo <= hi {
      TargetDaysStep(repeatDays, lo, hi);
      TargetDaysBetweenBound(repeatDays, lo, hi - 1);
      var prev := TargetDaysBetween(repeatDays, lo, hi - 1);
      assert |TargetDaysBetween(repeatDays, lo, hi)| <= |prev| + 1;
    } else {
      assert TargetDaysBetween(repeatDays, lo, hi) == {};
    }
  }

  /** A routine never has more target days than the month has days. */
  lemma TargetCountBound(repeatDays: Option<string>, ym: YearMonth)
    requires ValidMonth(ym)
    ensures TargetCount(repeatDays, ym) <= DaysInMonth(ym.year, ym.month)
  {
    TargetDaysBetweenBound(repeatDays, MonthStart(ym), MonthEnd(ym));
  }

  /** A mask selecting every weekday makes every day of the month a target. */
  lemma EveryDayMask(ym: YearMonth)
    requires ValidMonth(ym)
    ensures TargetCount(Some("1111111"), ym) == DaysInMonth(ym.year, ym.month)
  {
    var all := Range(MonthStart(ym), MonthEnd(ym));
    forall d | d in all ensures IsTargetDay("1111111", d) {
      assert "1111111"[WeekdayIndex(d)] == '1';
    }
    assert TargetDays(Some("1111111"), ym) == all;
  }

  /** A null mask, or one of the wrong length, has no target days. */
  lemma MalformedMaskNoTargets(repeatDays: Option<string>, ym: YearMonth)
    requires ValidMonth(ym)
    requires repeatDays.None? || |repeatDays.value| != 7
    ensures TargetCount(repeatDays, ym) == 0
  {
    assert TargetDays(repeatDays, ym) == {};
  }

  // ---------------------------------------------------------------------
  // Achievement rate (calculatePersonalRoutineAchievementRate)

  /** The routine ids of the linked activities, in list order, repeats kept. */
  function LinkedIds(acts: seq<RoutineActivity>): (ids: seq<int>)
    ensures |ids| <= |acts|
  {
    if acts == [] then []
    else (if acts[0].routine.Some? then [acts[0].routine.value.routineId] else [])
         + LinkedIds(acts[1..])
  }

  /** First occurrences only: the keys of groupingBy, one per routine. */
  function Distinct(s: seq<int>): (r: seq<int>)
    ensures forall x :: x in r <==> x in s
    ensures forall i, j :: 0 <= i < j < |r| ==> r[i] != r[j]
  {
    if s == [] then []
    else
      var d := Distinct(s[..|s| - 1]);
      assert forall x :: x in s <==> x in s[..|s| - 1] || x == s[|s| - 1];
      if s[|s| - 1] in d then d else d + [s[|s| - 1]]
  }

  function RoutineIds(acts: seq<RoutineActivity>): seq<int> {
    Distinct(LinkedIds(acts))
  }

  /** The routine of the first activity linked to `id` (groupingBy keeps
      list order, and the source reads the routine of the group's first
      activity). */
  function FirstRoutine(acts: seq<RoutineActivity>, id: int): (r: Routine)
    requires id in LinkedIds(acts)
    ensures r.routineId == id
  {
    if acts[0].routine.Some? && acts[0].routine.value.routineId == id then acts[0].routine.value
    else FirstRoutine(acts[1..], id)
  }

  /** The number of activities linked to routine `id`. */
  function CountFor(acts: seq<RoutineActivity>, id: int): nat {
    if acts == [] then 0
    else (if acts[0].routine.Some? && acts[0].routine.value.routineId == id then 1 else 0)
         + CountFor(acts[1..], id)
  }

  function MinReal(a: real, b: real): real {
    if a <= b then a else b
  }

  /** Math.min(100.0, completions / target * 100). */
  function CappedRate(completions: nat, target: nat): (r: real)
    requires target > 0
    ensures 0.0 <= r <= 100.0
    ensures completions >= target ==> r == 100.0
  {
    MinReal(100.0, completions as real / target as real * 100.0)
  }

  /** The rates of the routines in `ids` whose month has a positive target. */
  function RatesOf(acts: seq<RoutineActivity>, ids: seq<int>, ym: YearMonth): (rs: seq<real>)
    requires ValidMonth(ym)
    requires forall id :: id in ids ==> id in LinkedIds(acts)
    ensures |rs| <= |ids|
    ensures forall k :: 0 <= k < |rs| ==> 0.0 <= rs[k] <= 100.0
  {
    if ids == [] then []
    else
      var id := ids[|ids| - 1];
      var rest := RatesOf(acts, ids[..|ids| - 1], ym);
      var target := TargetCount(FirstRoutine(acts, id).repeatDays, ym);
      if target > 0 then rest + [CappedRate(CountFor(acts, id), target)] else rest
  }

  function Sum(rs: seq<real>): real {
    if rs == [] then 0.0 else Sum(rs[..|rs| - 1]) + rs[|rs| - 1]
  }

  /** A sum of values in [0, 100] lies in [0, 100 * count]. */
  lemma {:induction false} SumBounds(rs: seq<real>)
    requires forall k :: 0 <= k < |rs| ==> 0.0 <= rs[k] <= 100.0
    ensures 0.0 <= Sum(rs) <= 100.0 * |rs| as real
  {
    if rs != [] {
      SumBounds(rs[..|rs| - 1]);
    }
  }

  /** A sum of values that are all 100 is 100 * count. */
  lemma {:induction false} SumAllFull(rs: seq<real>)
    requires forall k :: 0 <= k < |rs| ==> rs[k] == 100.0
    ensures Sum(rs) == 100.0 * |rs| as real
  {
    if rs != [] {
      SumAllFull(rs[..|rs| - 1]);
    }
  }

  function Average(rs: seq<real>): (a: int)
    requires forall k :: 0 <= k < |rs| ==> 0.0 <= rs[k] <= 100.0
    ensures 0 <= a <= 100
  {
    if rs == [] then 0
    else
      SumBounds(rs);
      (Sum(rs) / |rs| as real).Floor
  }

  /** The achievement rate of a month's personal-routine activities: the
      truncated average of the capped per-routine rates. */
  function AchievementRate(acts: seq<RoutineActivity>, ym: YearMonth): (rate: int)
    requires ValidMonth(ym)
    ensures 0 <= rate <= 100
    ensures acts == [] ==> rate == 0
    ensures LinkedIds(acts) == [] ==> rate == 0
  {
    if acts == [] then 0
    else
      var ids := RoutineIds(acts);
      if ids == [] then 0 else Average(RatesOf(acts, ids, ym))
  }

  /** No routine with a positive target: the rate is 0. */
  lemma {:induction false} NoTargetsRateZero(acts: seq<RoutineActivity>, ids: seq<int>, ym: YearMonth)
    requires ValidMonth(ym)
    requires forall id :: id in ids ==> id in LinkedIds(acts)
    requires forall id :: id in ids ==> TargetCount(FirstRoutine(acts, id).repeatDays, ym) == 0
    ensures RatesOf(acts, ids, ym) == []
  {
    if ids != [] {
      NoTargetsRateZero(acts, ids[..|ids| - 1], ym);
    }
  }

  lemma NoTargetsAchievementRate(acts: seq<RoutineActivity>, ym: YearMonth)
    requires ValidMonth(ym)
    requires forall id :: id in LinkedIds(acts) ==> TargetCount(FirstRoutine(acts, id).repeatDays, ym) == 0
    ensures AchievementRate(acts, ym) == 0
  {
    if acts != [] && RoutineIds(acts) != [] {
      NoTargetsRateZero(acts, RoutineIds(acts), ym);
    }
  }

  /** Every routine done at least as often as its target: the rate is 100. */
  lemma {:induction false} AllCompletedRates(acts: seq<RoutineActivity>, ids: seq<int>, ym: YearMonth)
    requires ValidMonth(ym)
    requires forall id :: id in ids ==> id in LinkedIds(acts)
    requires forall id :: id in ids ==> TargetCount(FirstRoutine(acts, id).repeatDays, ym) > 0
    requires forall id :: id in ids ==> CountFor(acts, id) >= TargetCount(FirstRoutine(acts, id).repeatDays, ym)
    ensures |RatesOf(acts, ids, ym)| == |ids|
    ensures forall k :: 0 <= k < |ids| ==> RatesOf(acts, ids, ym)[k] == 100.0
  {
    if ids != [] {
      AllCompletedRates(acts, ids[..|ids| - 1], ym);
    }
  }

  lemma AllCompletedAchievementRate(acts: seq<RoutineActivity>, ym: YearMonth)
    requires ValidMonth(ym)
    requires LinkedIds(acts) != []
    requires forall id :: id in LinkedIds(acts) ==> TargetCount(FirstRoutine(acts, id).repeatDays, ym) > 0
    requires forall id :: id in LinkedIds(acts) ==>
      CountFor(acts, id) >= TargetCount(FirstRoutine(acts, id).repeatDays, ym)
    ensures AchievementRate(acts, ym) == 100
  {
    var ids := RoutineIds(acts);
    assert LinkedIds(acts)[0] in ids;
    AllCompletedRates(acts, ids, ym);
    AverageAllFull(RatesOf(acts, ids, ym));
  }

  lemma AverageAllFull(rs: seq<real>)
    requires rs != []
    requires forall k :: 0 <= k < |rs| ==> rs[k] == 100.0
    ensures Average(rs) == 100
  {
    SumAllFull(rs);
    assert Sum(rs) / |rs| as real == 100.0;
  }

  /** calculatePersonalRoutineAchievementRate: one target count per routine,
      the capped rates collected in a list, their average truncated. */
  method CalculateAchievementRate(acts: seq<RoutineActivity>, ym: YearMonth) returns (rate: int)
    requires ValidMonth(ym)
    ensures rate == AchievementRate(acts, ym)
    ensures 0 <= rate <= 100
  {
    if acts == [] {
      return 0;
    }
    var ids := RoutineIds(acts);
    if ids == [] {
      return 0;
    }
    var rates: seq<real> := [];
    var i := 0;
    while i < |ids|
      invariant 0 <= i <= |ids|
      invariant rates == RatesOf(acts, ids[..i], ym)
    {
      assert ids[..i + 1][..i] == ids[..i];
      var routine := FirstRoutine(acts, ids[i]);
      var target := MonthlyTargetCount(routine, ym);
      if target > 0 {
        rates := rates + [CappedRate(CountFor(acts, ids[i]), target)];
      }
      i := i + 1;
    }
    assert ids[..|ids|] == ids;
    rate := Average(rates);
  }

  // ---------------------------------------------------------------------
  // Snapshot (calculateMonthlyReviewBatch, calculateMonthlyReview)

  const FirstMonthText: string := "루틴잇 첫 달 도전 완료! 🎉"

  function ScoreUpText(diff: int, previous: int, current: int): string {
    "지난 달보다 " + IntStr(diff) + "점 향상! (" + IntStr(previous) + " → " + IntStr(current) + ")"
  }

  function GroupUpText(diff: int): string {
    "새로운 그룹 " + IntStr(diff) + "개 참여로 도전 영역 확장!"
  }

  function FirstScoreText(score: int): string {
    "첫 달 " + IntStr(score) + "점 달성!"
  }

  /** The month-over-month part of a review. */
  datatype Deltas = Deltas(scoreDifference: int, groupDifference: int, achievements: seq<string>)

  /** The deltas and achievement lines for a current score and group count,
      given the previous month's review if one was found. */
  function DeltasOf(previous: Option<Review>, score: int, groups: int): Deltas {
    match previous
    case Some(p) =>
      var sd := score - p.totalScore;
      var gd := groups - p.participatingGroups;
      Deltas(sd, gd,
        (if sd > 0 then [ScoreUpText(sd, p.totalScore, score)] else [])
        + (if gd > 0 then [GroupUpText(gd)] else []))
    case None =>
      Deltas(0, 0, [FirstMonthText] + (if score > 0 then [FirstScoreText(score)] else []))
  }

  /** The deltas and the achievements list, built by appends. */
  method ComputeDeltas(previous: Option<Review>, score: int, groups: int) returns (d: Deltas)
    ensures d == DeltasOf(previous, score, groups)
    ensures previous.None? ==> d.scoreDifference == 0 && d.groupDifference == 0
    ensures previous.Some? ==> d.scoreDifference == score - previous.value.totalScore
    ensures previous.Some? ==> d.groupDifference == groups - previous.value.participatingGroups
  {
    var scoreDifference := 0;
    var groupDifference := 0;
    var achievements: seq<string> := [];
    if previous.Some? {
      scoreDifference := score - previous.value.totalScore;
      groupDifference := groups - previous.value.participatingGroups;
      if scoreDifference > 0 {
        achievements := achievements + [ScoreUpText(scoreDifference, previous.value.totalScore, score)];
      }
      if groupDifference > 0 {
        achievements := achievements + [GroupUpText(groupDifference)];
      }
    } else {
      achievements := achievements + [FirstMonthText];
      if score > 0 {
        achievements := achievements + [FirstScoreText(score)];
      }
    }
    d := Deltas(scoreDifference, groupDifference, achievements);
  }

  function Max0(x: int): (r: int)
    ensures r >= 0 && r >= x
    ensures x >= 0 ==> r == x
  {
    if x >= 0 then x else 0
  }

  /** The review both paths build once the inputs are gathered. */
  function ComposeReview(userId: int, nickname: string, monthYear: string,
                         personal: int, groupAuth: int, checklist: int,
                         score: int, groups: int, rate: int, previous: Option<Review>): Review
  {
    var d := DeltasOf(previous, score, groups);
    Review(userId, nickname, monthYear, score, groups, Some(rate),
      Some(Max0(personal + groupAuth + checklist)), Some(Max0(personal)),
      Some(Max0(groupAuth)), Some(Max0(checklist)),
      d.achievements, Some(d.scoreDifference), Some(d.groupDifference), None, false)
  }

  /** The maps loadAllBatchData preloads for the whole batch. */
  datatype BatchData = BatchData(
    activityCounts: map<int, map<ActivityType, int>>,
    scores: map<int, int>,
    activeGroupCounts: map<int, int>,
    previousReviews: map<int, Review>)

  /** calculateMonthlyReviewBatch as a value: the review of `userId`, or the
      reason it cannot be computed. `nicknames` is the preloaded user map and
      `routineActs` the month's personal-routine activities per user. */
  function BatchSnapshot(userId: int, monthYear: string, nicknames: map<int, string>,
                         batch: BatchData, routineActs: map<int, seq<RoutineActivity>>): Result<Review, CalcError>
  {
    match ParseMonthYear(monthYear)
    case None => Err(BadMonth)
    case Some(ym) =>
      if userId !in nicknames then Err(UserNotFound(userId))
      else
        var counts := GetOrDefault(batch.activityCounts, userId, map[]);
        Ok(ComposeReview(userId, nicknames[userId], monthYear,
          GetOrDefault(counts, PersonalRoutineComplete, 0),
          GetOrDefault(counts, GroupAuthComplete, 0),
          GetOrDefault(counts, DailyChecklist, 0),
          GetOrDefault(batch.scores, userId, 0),
          GetOrDefault(batch.activeGroupCounts, userId, 0),
          AchievementRate(GetOrDefault(routineActs, userId, []), ym),
          Get(batch.previousReviews, userId)))
  }

  /** calculateMonthlyReviewBatch, with the achievements list built in place. */
  method CalculateMonthlyReviewBatch(userId: int, monthYear: string, nicknames: map<int, string>,
                                     batch: BatchData, routineActs: map<int, seq<RoutineActivity>>)
    returns (r: Result<Review, CalcError>)
    ensures r == BatchSnapshot(userId, monthYear, nicknames, batch, routineActs)
    ensures r.Err? <==> ParseMonthYear(monthYear).None? || userId !in nicknames
  {
    var parsed := ParseMonthYear(monthYear);
    if parsed.None? {
      return Err(BadMonth);
    }
    var counts := GetOrDefault(batch.activityCounts, userId, map[]);
    var personal := GetOrDefault(counts, PersonalRoutineComplete, 0);
    var groupAuth := GetOrDefault(counts, GroupAuthComplete, 0);
    var checklist := GetOrDefault(counts, DailyChecklist, 0);
    if userId !in nicknames {
      return Err(UserNotFound(userId));
    }
    var score := GetOrDefault(batch.scores, userId, 0);
    var groups := GetOrDefault(batch.activeGroupCounts, userId, 0);
    var rate := CalculateAchievementRate(GetOrDefault(routineActs, userId, []), parsed.value);
    var previous := Get(batch.previousReviews, userId);
    var review := BuildReview(userId, nicknames[userId], monthYear, personal, groupAuth, checklist,
                              score, groups, rate, previous);
    r := Ok(review);
  }

  /** The response builder both paths end with: the counts clamped at 0, the
      deltas and achievements against the previous review, not yet sent. */
  method BuildReview(userId: int, nickname: string, monthYear: string,
                     personal: int, groupAuth: int, checklist: int,
                     score: int, groups: int, rate: int, previous: Option<Review>) returns (review: Review)
    ensures review == ComposeReview(userId, nickname, monthYear, personal, groupAuth, checklist,
                                    score, groups, rate, previous)
  {
    var d := ComputeDeltas(previous, score, groups);
    review := Review(userId, nickname, monthYear, score, groups, Some(rate),
      Some(Max0(personal + groupAuth + checklist)), Some(Max0(personal)),
      Some(Max0(groupAuth)), Some(Max0(checklist)),
      d.achievements, Some(d.scoreDifference), Some(d.groupDifference), None, false);
  }

  /** Missing preloaded entries read as 0, the total counts all three kinds,
      and the user map decides whether there is a review at all. */
  lemma BatchSnapshotDefaults(userId: int, monthYear: string, nicknames: map<int, string>,
                              batch: BatchData, routineActs: map<int, seq<RoutineActivity>>)
    requires ParseMonthYear(monthYear).Some?
    ensures BatchSnapshot(userId, monthYear, nicknames, batch, routineActs).Err?
            <==> userId !in nicknames
    ensures userId in nicknames ==>
      var r := BatchSnapshot(userId, monthYear, nicknames, batch, routineActs).value;
      && (userId !in batch.scores ==> r.totalScore == 0)
      && (userId !in batch.activeGroupCounts ==> r.participatingGroups == 0)
      && (userId !in batch.activityCounts ==>
            r.totalAuthCount == r.personalRoutineCount == r.groupAuthCount == r.dailyChecklistCount == Some(0))
      && r.nickname == nicknames[userId]
      && r.messageContent.None? && !r.messageSent
      && 0 <= r.personalRoutineAchievementRate.value <= 100
  {
  }

  /** Math.max(…, 0) on the counts: every displayed count is non-negative,
      the total is the sum of the three kinds whenever that sum is, and with
      non-negative counts the total is the sum of the three displayed
      counts. */
  lemma TotalAuthCountIsSum(userId: int, nickname: string, monthYear: string,
                            personal: int, groupAuth: int, checklist: int,
                            score: int, groups: int, rate: int, previous: Option<Review>)
    ensures var r := ComposeReview(userId, nickname, monthYear, personal, groupAuth, checklist,
                                   score, groups, rate, previous);
      && r.totalAuthCount.Some? && r.personalRoutineCount.Some?
      && r.groupAuthCount.Some? && r.dailyChecklistCount.Some?
      && r.totalAuthCount.value >= 0 && r.personalRoutineCount.value >= 0
      && r.groupAuthCount.value >= 0 && r.dailyChecklistCount.value >= 0
      && (personal + groupAuth + checklist >= 0 ==> r.totalAuthCount.value == personal + groupAuth + checklist)
      && (personal >= 0 && groupAuth >= 0 && checklist >= 0 ==>
            r.totalAuthCount.value == r.personalRoutineCount.value + r.groupAuthCount.value
                                      + r.dailyChecklistCount.value)
  {
  }

  /** No previous review: both deltas are 0, and the achievements are the
      first-month line, followed by the first-score line exactly when the
      score is positive. */
  lemma FirstMonthAchievements(score: int, groups: int)
    ensures var d := DeltasOf(None, score, groups);
      && d.scoreDifference == 0 && d.groupDifference == 0
      && |d.achievements| >= 1 && d.achievements[0] == FirstMonthText
      && (FirstScoreText(score) in d.achievements <==> score > 0)
      && |d.achievements| == (if score > 0 then 2 else 1)
  {
    var d := DeltasOf(None, score, groups);
    if score <= 0 {
      assert d.achievements == [FirstMonthText];
      assert FirstScoreText(score)[0] != FirstMonthText[0];
    }
  }

  /** A previous review: the deltas are differences, the score line appears
      exactly when the score rose, the group line exactly when the group
      count rose, in that order, and the first-month line never appears. */
  lemma FollowingMonthAchievements(p: Review, score: int, groups: int)
    ensures var d := DeltasOf(Some(p), score, groups);
      && d.scoreDifference == score - p.totalScore
      && d.groupDifference == groups - p.participatingGroups
      && (ScoreUpText(d.scoreDifference, p.totalScore, score) in d.achievements <==> d.scoreDifference > 0)
      && (GroupUpText(d.groupDifference) in d.achievements <==> d.groupDifference > 0)
      && FirstMonthText !in d.achievements
      && |d.achievements| <= 2
      && (d.scoreDifference > 0 ==> d.achievements[0] == ScoreUpText(d.scoreDifference, p.totalScore, score))
  {
    var d := DeltasOf(Some(p), score, groups);
    var st := ScoreUpText(d.scoreDifference, p.totalScore, score);
    var gt := GroupUpText(d.groupDifference);
    assert st[0] == '지' && gt[0] == '새' && FirstMonthText[0] == '루';
    assert st != gt && st != FirstMonthText && gt != FirstMonthText;
  }

  // ---------------------------------------------------------------------
  // Single-user path (calculateMonthlyReview)

  /** Integer.MAX_VALUE: the single-user path clamps each count to it. */
  const IntMax: int := 2147483647

  function ClampCount(n: nat): (c: int)
    ensures 0 <= c <= IntMax
    ensures n <= IntMax ==> c == n
  {
    if n <= IntMax then n else IntMax
  }

  /** A stored review in the key-value store: JSON that parses to a review,
      or text that does not (parseReviewData returns null). */
  datatype StoredReview = Readable(review: Review) | Corrupt

  /** The previous month's review as calculateMonthlyReview finds it: none
      when the month has no predecessor string, no record, or the record is
      unreadable. */
  function PreviousReview(reviews: map<(int, string), StoredReview>, userId: int, monthYear: string): (p: Option<Review>)
    ensures p.Some? ==> exists prev :: GetPreviousMonth(monthYear) == Some(prev)
                          && (userId, prev) in reviews && reviews[(userId, prev)] == Readable(p.value)
  {
    match GetPreviousMonth(monthYear)
    case None => None
    case Some(prev) =>
      if (userId, prev) in reviews && reviews[(userId, prev)].Readable? then Some(reviews[(userId, prev)].review)
      else None
  }

  /** The repositories the single-user path queries: per-user nicknames,
      activity counts of the month by kind, the ranking total, the active
      group count and the month's personal-routine activities. */
  datatype Sources = Sources(
    nicknames: map<int, string>,
    counts: map<(int, ActivityType), nat>,
    totalScores: map<int, int>,
    activeGroups: map<int, nat>,
    routineActs: map<int, seq<RoutineActivity>>)

  function SingleSnapshot(userId: int, monthYear: string, src: Sources,
                          reviews: map<(int, string), StoredReview>): Result<Review, CalcError>
  {
    match ParseMonthYear(monthYear)
    case None => Err(BadMonth)
    case Some(ym) =>
      if userId !in src.nicknames then Err(UserNotFound(userId))
      else
        Ok(ComposeReview(userId, src.nicknames[userId], monthYear,
          ClampCount(GetOrDefault(src.counts, (userId, PersonalRoutineComplete), 0)),
          ClampCount(GetOrDefault(src.counts, (userId, GroupAuthComplete), 0)),
          ClampCount(GetOrDefault(src.counts, (userId, DailyChecklist), 0)),
          GetOrDefault(src.totalScores, userId, 0),
          GetOrDefault(src.activeGroups, userId, 0),
          AchievementRate(GetOrDefault(src.routineActs, userId, []), ym),
          PreviousReview(reviews, userId, monthYear)))
  }

  /** calculateMonthlyReview. */
  method CalculateMonthlyReview(userId: int, monthYear: string, src: Sources,
                                reviews: map<(int, string), StoredReview>)
    returns (r: Result<Review, CalcError>)
    ensures r == SingleSnapshot(userId, monthYear, src, reviews)
    ensures r.Err? <==> ParseMonthYear(monthYear).None? || userId !in src.nicknames
  {
    var parsed := ParseMonthYear(monthYear);
    if parsed.None? {
      return Err(BadMonth);
    }
    var personal := ClampCount(GetOrDefault(src.counts, (userId, PersonalRoutineComplete), 0));
    var groupAuth := ClampCount(GetOrDefault(src.counts, (userId, GroupAuthComplete), 0));
    var checklist := ClampCount(GetOrDefault(src.counts, (userId, DailyChecklist), 0));
    if userId !in src.nicknames {
      return Err(UserNotFound(userId));
    }
    var score := GetOrDefault(src.totalScores, userId, 0);
    var groups := GetOrDefault(src.activeGroups, userId, 0);
    var rate := CalculateAchievementRate(GetOrDefault(src.routineActs, userId, []), parsed.value);
    var previous := PreviousReview(reviews, userId, monthYear);
    var review := BuildReview(userId, src.nicknames[userId], monthYear, personal, groupAuth, checklist,
                              score, groups, rate, previous);
    r := Ok(review);
  }

  /** An unreadable previous record counts as no previous review, so the
      review is a first-month review. */
  lemma CorruptPreviousIsFirstMonth(userId: int, monthYear: string, src: Sources,
                                    reviews: map<(int, string), StoredReview>, prev: string)
    requires GetPreviousMonth(monthYear) == Some(prev)
    requires (userId, prev) in reviews && reviews[(userId, prev)] == Corrupt
    requires userId in src.nicknames
    ensures SingleSnapshot(userId, monthYear, src, reviews).Ok?
    ensures SingleSnapshot(userId, monthYear, src, reviews).value.achievements[0] == FirstMonthText
  {
    assert PreviousReview(reviews, userId, monthYear).None?;
  }
}
