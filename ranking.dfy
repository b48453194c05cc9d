/** RankingServiceImpl: the ranking table keyed by (user, group), where a
    null group is the user's personal row, its lazy initialisation, score
    increments and monthly reset; the consecutive-day streak and its bonus;
    the group participation bonus; and the personal ranking list. The clock
    enters as `currentMonth` (LocalDate.now() formatted "yyyy-MM") and as the
    day number of today; System.currentTimeMillis (the new row's id) is a
    parameter too. */
module Ranking {
  import opened Wrappers

  /** (userId, groupId); groupId None is the personal row. */
  type Key = (int, Option<int>)

  /** A Ranking entity without its timestamp. */
  datatype RankingRow = RankingRow(rankingId: int, score: int, monthYear: string)

  datatype RankingError = MissingUserId | NegativeScore

  /** The row initializeRanking creates: score 0 in the current month. */
  function FreshRow(nowMillis: int, month: string): (row: RankingRow)
    ensures row.score == 0 && row.rankingId == nowMillis && row.monthYear == month
  {
    RankingRow(nowMillis, 0, month)
  }

  /** The score a key holds, 0 when it has no row. */
  function ScoreOf(rows: map<Key, RankingRow>, key: Key): int {
    if key in rows then rows[key].score else 0
  }

  /** The table after initializeRanking of `key`: a new row only where
      none exists. */
  function Initialized(rows: map<Key, RankingRow>, key: Key, newRow: RankingRow): (r: map<Key, RankingRow>)
    ensures key in r
    ensures key in rows ==> r == rows
    ensures key !in rows ==> r[key] == newRow
    ensures r.Keys == rows.Keys + {key}
    ensures forall k :: k in rows ==> r[k] == rows[k]
  {
    if key in rows then rows else rows[key := newRow]
  }

  /** The table after adding `delta` to the row of `key` (created by
      initializeRanking first when absent). */
  function Bumped(rows: map<Key, RankingRow>, key: Key, delta: int, newRow: RankingRow): (r: map<Key, RankingRow>)
    requires newRow.score == 0
    ensures r.Keys == rows.Keys + {key}
    ensures r[key].score == ScoreOf(rows, key) + delta
    ensures forall k :: k in rows && k != key ==> r[k] == rows[k]
  {
    var base := Initialized(rows, key, newRow);
    base[key := base[key].(score := base[key].score + delta)]
  }

  /** Bumping a key that has a row only touches that row's score. */
  lemma BumpedPresent(rows: map<Key, RankingRow>, key: Key, delta: int, newRow: RankingRow)
    requires newRow.score == 0 && key in rows
    ensures Bumped(rows, key, delta, newRow) == rows[key := rows[key].(score := rows[key].score + delta)]
  {
  }

  /** Initialising first changes nothing about a bump. */
  lemma BumpedAfterInit(rows: map<Key, RankingRow>, key: Key, delta: int, newRow: RankingRow)
    requires newRow.score == 0
    ensures Bumped(Initialized(rows, key, newRow), key, delta, newRow) == Bumped(rows, key, delta, newRow)
  {
  }

  /** The row resetMonthlyRankings leaves: score 0, the current month, the
      same id. */
  function ResetRow(row: RankingRow, month: string): RankingRow {
    row.(score := 0, monthYear := month)
  }

  /** Every row reset. */
  function ResetAll(rows: map<Key, RankingRow>, month: string): (r: map<Key, RankingRow>)
    ensures r.Keys == rows.Keys
    ensures forall k :: k in r ==>
      (r[k].score == 0 && r[k].monthYear == month && r[k].rankingId == rows[k].rankingId)
  {
    map k | k in rows :: ResetRow(rows[k], month)
  }

  /** initializeRanking twice is initializeRanking once. */
  lemma InitializeIdempotent(rows: map<Key, RankingRow>, key: Key, newRow: RankingRow, later: RankingRow)
    ensures Initialized(Initialized(rows, key, newRow), key, later) == Initialized(rows, key, newRow)
  {
  }

  /** Resetting keeps the number of rows. */
  lemma ResetKeepsCount(rows: map<Key, RankingRow>, month: string)
    ensures |ResetAll(rows, month)| == |rows|
  {
    assert ResetAll(rows, month).Keys == rows.Keys;
  }

  /** The ranking repository and the last-reset month of the Redis store. */
  class RankingStore {
    var rows: map<Key, RankingRow>
    /** The rows in the order findAll lists them. */
    var order: seq<Key>
    var lastResetMonth: Option<string>

    /** `order` lists every row once. */
    ghost predicate Valid()
      reads this
    {
      && (forall k :: k in rows ==> k in order)
      && (forall i :: 0 <= i < |order| ==> order[i] in rows)
      && (forall i, j :: 0 <= i < j < |order| ==> order[i] != order[j])
    }

    constructor ()
      ensures Valid()
      ensures rows == map[] && order == [] && lastResetMonth == None
    {
      rows := map[];
      order := [];
      lastResetMonth := None;
    }

    /** initializeRanking: a null user is rejected; otherwise a score-0
        row of the current month is created unless one exists. */
    method InitializeRanking(userId: Option<int>, groupId: Option<int>, currentMonth: string, nowMillis: int)
      returns (error: Option<RankingError>)
      requires Valid()
      modifies this
      ensures Valid()
      ensures error.Some? <==> userId.None?
      ensures error.Some? ==> error.value == MissingUserId && unchanged(this)
      ensures userId.Some? ==>
        rows == Initialized(old(rows), (userId.value, groupId), FreshRow(nowMillis, currentMonth))
        && order == (if (userId.value, groupId) in old(rows) then old(order) else old(order) + [(userId.value, groupId)])
      ensures lastResetMonth == old(lastResetMonth)
    {
      if userId.None? {
        return Some(MissingUserId);
      }
      var key := (userId.value, groupId);
      if key !in rows {
        rows := rows[key := FreshRow(nowMillis, currentMonth)];
        order := order + [key];
      }
      error := None;
    }

    /** updatePersonalScore: add `score` to the user's personal row,
        initialising it first when absent. */
    method UpdatePersonalScore(userId: Option<int>, score: int, currentMonth: string, nowMillis: int)
      returns (error: Option<RankingError>)
      requires Valid()
      modifies this
      ensures Valid()
      ensures error.Some? <==> userId.None?
      ensures error.Some? ==> unchanged(this)
      ensures userId.Some? ==>
        rows == Bumped(old(rows), (userId.value, None), score, FreshRow(nowMillis, currentMonth))
        && order == (if (userId.value, None) in old(rows) then old(order) else old(order) + [(userId.value, None)])
      ensures lastResetMonth == old(lastResetMonth)
      decreases if userId.Some? && (userId.value, None) in rows then 0 else 1
    {
      var key := (userId.GetOr(0), None);
      if userId.Some? && key in rows {
        BumpedPresent(rows, key, score, FreshRow(nowMillis, currentMonth));
        rows := rows[key := rows[key].(score := rows[key].score + score)];
        return None;
      }
      BumpedAfterInit(rows, key, score, FreshRow(nowMillis, currentMonth));
      error := InitializeRanking(userId, None, currentMonth, nowMillis);
      if error.Some? {
        return;
      }
      error := UpdatePersonalScore(userId, score, currentMonth, nowMillis);
    }

    /** updateGroupScore: add authCount * 10 to the (user, group) row,
        initialising it first when absent. */
    method UpdateGroupScore(userId: Option<int>, groupId: Option<int>, authCount: int, currentMonth: string, nowMillis: int)
      returns (error: Option<RankingError>)
      requires Valid()
      modifies this
      ensures Valid()
      ensures error.Some? <==> userId.None?
      ensures error.Some? ==> unchanged(this)
      ensures userId.Some? ==>
        rows == Bumped(old(rows), (userId.value, groupId), authCount * 10, FreshRow(nowMillis, currentMonth))
        && order == (if (userId.value, groupId) in old(rows) then old(order) else old(order) + [(userId.value, groupId)])
      ensures lastResetMonth == old(lastResetMonth)
      decreases if userId.Some? && (userId.value, groupId) in rows then 0 else 1
    {
      var baseScore := authCount * 10;
      var key := (userId.GetOr(0), groupId);
      if userId.Some? && key in rows {
        BumpedPresent(rows, key, baseScore, FreshRow(nowMillis, currentMonth));
        rows := rows[key := rows[key].(score := rows[key].score + baseScore)];
        return None;
      }
      BumpedAfterInit(rows, key, baseScore, FreshRow(nowMillis, currentMonth));
      error := InitializeRanking(userId, groupId, currentMonth, nowMillis);
      if error.Some? {
        return;
      }
      error := UpdateGroupScore(userId, groupId, authCount, currentMonth, nowMillis);
    }

    /** updateRankingScore: a null user or a negative score is rejected;
        a group score goes through updateGroupScore as score * 10, which
        multiplies by 10 once more. */
    method UpdateRankingScore(userId: Option<int>, groupId: Option<int>, score: int, currentMonth: string, nowMillis: int)
      returns (error: Option<RankingError>)
      requires Valid()
      modifies this
      ensures Valid()
      ensures error == (if userId.None? then Some(MissingUserId) else if score < 0 then Some(NegativeScore) else None)
      ensures error.Some? ==> unchanged(this)
      ensures error.None? ==>
        rows == Bumped(old(rows), (userId.value, groupId), if groupId.Some? then 100 * score else score,
                       FreshRow(nowMillis, currentMonth))
        && order == (if (userId.value, groupId) in old(rows) then old(order) else old(order) + [(userId.value, groupId)])
      ensures lastResetMonth == old(lastResetMonth)
    {
      if userId.None? {
        return Some(MissingUserId);
      }
      if score < 0 {
        return Some(NegativeScore);
      }
      if groupId.Some? {
        var baseScore := score * 10;
        error := UpdateGroupScore(userId, groupId, baseScore, currentMonth, nowMillis);
      } else {
        error := UpdatePersonalScore(userId, score, currentMonth, nowMillis);
      }
    }

    /** getTotalScoreByUser: a null user is rejected; otherwise the sum,
        over that user's group rows, of the row score plus the truncated
        streak bonus. Personal rows do not count. */
    function TotalScoreByUser(userId: Option<int>, activity: map<int, seq<int>>, today: int): (r: Result<int, RankingError>)
      requires Valid()
      reads this
      ensures r.Err? <==> userId.None?
      ensures r.Err? ==> r.error == MissingUserId
      ensures userId.Some? && (forall k :: k in rows ==> k.0 != userId.value || k.1.None?) ==> r == Ok(0)
    {
      if userId.None? then Err(MissingUserId)
      else
        var bonus := UserBonus(activity, today, userId.value);
        UserSumNoGroupRowsIf(rows, order, userId.value, bonus);
        Ok(UserSum(rows, order, userId.value, bonus))
    }

    /** getPersonalRankings: the per-user totals of the group rows, sorted
        by descending total, ranked from 1; each user once, each total the
        user's getTotalScoreByUser, and the participant count the number of
        users with a group row. */
    function PersonalRankings(activity: map<int, seq<int>>, today: int): (r: seq<PersonalRanking>)
      requires Valid()
      reads this
      ensures forall i :: 0 <= i < |r| ==> r[i].currentRank == i + 1 && r[i].totalParticipants == |r|
      ensures forall i, j :: 0 <= i < j < |r| ==> r[i].totalScore >= r[j].totalScore
      ensures forall i, j :: 0 <= i < j < |r| ==> r[i].userId != r[j].userId
      ensures forall i :: 0 <= i < |r| ==>
        TotalScoreByUser(Some(r[i].userId), activity, today) == Ok(r[i].totalScore)
      ensures forall u :: (exists i :: 0 <= i < |r| && r[i].userId == u) <==> HasGroupRow(order, u)
    {
      var r := Ranked(SortDesc(GroupTotals(rows, order, BonusOf(activity, today))));
      RankedTotals(rows, order, BonusOf(activity, today));
      assert RankingShape(r, rows, order, BonusOf(activity, today));
      r
    }

    /** resetMonthlyRankings: with no rows nothing happens; otherwise every
        row gets score 0 and the current month, and the month is recorded
        as the last reset. */
    method ResetMonthlyRankings(currentMonth: string)
      requires Valid()
      modifies this
      ensures Valid()
      ensures order == old(order)
      ensures old(order) == [] ==> unchanged(this)
      ensures old(order) != [] ==>
        rows == ResetAll(old(rows), currentMonth)
        && lastResetMonth == Some(currentMonth)
    {
      if order == [] {
        return;
      }
      ghost var before := rows;
      ghost var done: set<Key> := {};
      var i := 0;
      while i < |order|
        invariant 0 <= i <= |order|
        invariant order == old(order) && lastResetMonth == old(lastResetMonth)
        invariant rows.Keys == before.Keys
        invariant forall j :: 0 <= j < |order| ==> order[j] in rows
        invariant forall k :: k in before ==> k in order
        invariant forall j :: 0 <= j < i ==> order[j] in done
        invariant forall k :: k in rows ==>
          rows[k] == (if k in done then ResetRow(before[k], currentMonth) else before[k])
      {
        var key := order[i];
        rows := rows[key := ResetRow(rows[key], currentMonth)];
        done := done + {key};
        i := i + 1;
      }
      assert forall k :: k in rows ==> k in done;
      lastResetMonth := Some(currentMonth);
    }
  }

  // ---------------------------------------------------------------------
  // Consecutive days and their bonus

  /** The streak of a user's GROUP_AUTH_COMPLETE days, newest first: the
      longest prefix whose i-th day is today - i. */
  function Streak(days: seq<int>, today: int): (n: nat)
    ensures n <= |days|
    ensures forall i :: 0 <= i < n ==> days[i] == today - i
    ensures n < |days| ==> days[n] != today - n
  {
    if days == [] || days[0] != today then 0
    else
      var rest := Streak(days[1..], today - 1);
      assert forall i :: 1 <= i < 1 + rest ==> days[i] == days[1..][i - 1];
      1 + rest
  }

  /** calculateConsecutiveDays: walk the days newest first, counting while
      each is `count` days before today, and stop at the first that is not. */
  method ConsecutiveDays(days: seq<int>, today: int) returns (count: nat)
    ensures count == Streak(days, today)
  {
    if days == [] {
      return 0;
    }
    count := 0;
    var i := 0;
    while i < |days|
      invariant 0 <= i <= |days| && count == i
      invariant forall j :: 0 <= j < i ==> days[j] == today - j
      invariant Streak(days, today) >= i
    {
      if days[i] == today - count {
        count := count + 1;
      } else {
        break;
      }
      i := i + 1;
      StreakFrom(days, today, i);
    }
  }

  /** A prefix of matching days bounds the streak from below. */
  lemma {:induction false} StreakFrom(days: seq<int>, today: int, k: nat)
    requires k <= |days|
    requires forall j :: 0 <= j < k ==> days[j] == today - j
    ensures Streak(days, today) >= k
  {
    if k > 0 {
      assert days[0] == today;
      assert forall j :: 0 <= j < k - 1 ==> days[1..][j] == days[j + 1];
      StreakFrom(days[1..], today - 1, k - 1);
    }
  }

  /** The streak stops at a repeated day: two activities on one day count
      that day once. */
  lemma StreakStopsAtRepeat(days: seq<int>, today: int, i: nat)
    requires i + 1 < |days| && days[i] == days[i + 1]
    ensures Streak(days, today) <= i + 1
  {
  }

  /** calculateConsecutiveBonus as written: its guard `days <= 2 && days < 30`
      gives days * 0.5 only up to two days, then 0 until thirty. */
  function ConsecutiveBonusAsWritten(days: int): (b: real)
    ensures days >= 0 ==> 0.0 <= b <= 15.0
    ensures 0 <= days <= 2 ==> b <= 1.0
    ensures 3 <= days < 30 ==> b == 0.0
    ensures days >= 30 ==> b == 15.0
  {
    if days <= 2 && days < 30 then days as real * 0.5
    else if days >= 30 then 15.0
    else 0.0
  }

  /** As written, a longer streak can earn less: two days give a bonus of 1,
      every streak of three to twenty-nine days gives 0. */
  lemma {:induction false} AsWrittenBonusDrops(days: int)
    requires 3 <= days < 30
    ensures TruncToInt(ConsecutiveBonusAsWritten(2)) == 1
    ensures TruncToInt(ConsecutiveBonusAsWritten(days)) == 0
    ensures TruncToInt(ConsecutiveBonusAsWritten(days)) < TruncToInt(ConsecutiveBonusAsWritten(2))
  {
    assert ConsecutiveBonusAsWritten(2) == 1.0;
    assert ConsecutiveBonusAsWritten(days) == 0.0;
  }

  /** calculateConsecutiveBonus with the guard `days >= 2 && days < 30` its
      redundant second conjunct points to: half a point a day from two days
      on, 15 from thirty days on, nothing below two. */
  function ConsecutiveBonus(days: int): (b: real)
    ensures 0.0 <= b <= 15.0
    ensures days < 2 ==> b == 0.0
    ensures days >= 30 ==> b == 15.0
  {
    if days >= 2 && days < 30 then days as real * 0.5
    else if days >= 30 then 15.0
    else 0.0
  }

  /** Java's (int) cast of a double: truncation toward zero. */
  function TruncToInt(x: real): (n: int)
    ensures x >= 0.0 ==> n as real <= x < n as real + 1.0
    ensures x < 0.0 ==> n as real - 1.0 < x <= n as real
  {
    if x >= 0.0 then x.Floor else -((-x).Floor)
  }

  /** Half of a day count, truncated, is its integer half. */
  lemma HalfTruncates(days: nat)
    ensures TruncToInt(days as real * 0.5) == days / 2
  {
    var q := days / 2;
    assert days == 2 * q + days % 2;
    assert q as real <= days as real * 0.5 < q as real + 1.0;
  }

  /** The bonus a streak adds to each score: the (int) truncation of the
      bonus as written. */
  function StreakBonus(days: nat): (n: int)
    ensures 0 <= n <= 15
  {
    TruncToInt(ConsecutiveBonusAsWritten(days))
  }

  /** Truncated, the bonus as written is 0 below two days, 1 at two, 0
      from three to twenty-nine, and 15 from thirty on. */
  lemma StreakBonusTiers(days: nat)
    ensures StreakBonus(days) == (if days == 2 then 1 else if days >= 30 then 15 else 0)
  {
    if days <= 2 {
      HalfTruncates(days);
    }
  }

  /** The bonus a streak would add with the corrected guard. */
  function CorrectedStreakBonus(days: nat): (n: int)
    ensures 0 <= n <= 15
  {
    TruncToInt(ConsecutiveBonus(days))
  }

  /** Truncated, the corrected bonus is 0 below two days, half the streak
      (rounded down) from two to twenty-nine days, which ramps from 1 to 14,
      and 15 from thirty on. */
  lemma CorrectedStreakBonusTiers(days: nat)
    ensures CorrectedStreakBonus(days) == (if days < 2 then 0 else if days >= 30 then 15 else days / 2)
    ensures 2 <= days < 30 ==> 1 <= CorrectedStreakBonus(days) <= 14
  {
    if 2 <= days < 30 {
      HalfTruncates(days);
    }
  }

  /** With the corrected guard a longer streak never earns less. */
  lemma CorrectedStreakBonusMonotone(shorter: nat, longer: nat)
    requires shorter <= longer
    ensures CorrectedStreakBonus(shorter) <= CorrectedStreakBonus(longer)
  {
    CorrectedStreakBonusTiers(shorter);
    CorrectedStreakBonusTiers(longer);
  }

  // ---------------------------------------------------------------------
  // Group participation bonus

  /** calculateSimpleParticipationBonus: nothing for an empty group;
      otherwise a tier for the share of active members and a tier for the
      group size. */
  function ParticipationBonus(memberCount: nat, activeMembers: nat): (b: nat)
    ensures b <= 25
    ensures memberCount == 0 ==> b == 0
  {
    if memberCount == 0 then 0
    else
      var rate := activeMembers as real / memberCount as real;
      var participation := if rate >= 0.8 then 15 else if rate >= 0.6 then 10 else if rate >= 0.4 then 5 else 0;
      var size := if memberCount >= 10 then 10 else if memberCount >= 5 then 5 else 0;
      participation + size
  }

  /** The tiers without division: the share is compared by
      cross-multiplication. */
  lemma ParticipationTiers(memberCount: nat, activeMembers: nat)
    requires memberCount > 0
    ensures ParticipationBonus(memberCount, activeMembers) ==
      (if 5 * activeMembers >= 4 * memberCount then 15
       else if 5 * activeMembers >= 3 * memberCount then 10
       else if 5 * activeMembers >= 2 * memberCount then 5 else 0)
      + (if memberCount >= 10 then 10 else if memberCount >= 5 then 5 else 0)
  {
    RateAtLeast(activeMembers as real, memberCount as real, 0.8);
    RateAtLeast(activeMembers as real, memberCount as real, 0.6);
    RateAtLeast(activeMembers as real, memberCount as real, 0.4);
  }

  /** a / m >= c exactly when a >= c * m, for positive m. */
  lemma RateAtLeast(a: real, m: real, c: real)
    requires m > 0.0
    ensures a / m >= c <==> a >= c * m
  {
    var q := a / m;
    assert q * m == a;
    if q >= c {
      assert (q - c) * m >= 0.0;
    } else {
      assert (c - q) * m > 0.0;
    }
  }

  // ---------------------------------------------------------------------
  // Totals and the personal ranking

  /** The bonus of each user's rows, from the user's activity days. */
  function UserBonus(activity: map<int, seq<int>>, today: int, userId: int): (b: int)
    ensures var streak := Streak(GetOrDefault(activity, userId, []), today);
      && (b == 15 <==> streak >= 30)
      && (b == 1 <==> streak == 2)
      && (b == 0 <==> streak < 30 && streak != 2)
  {
    var streak := Streak(GetOrDefault(activity, userId, []), today);
    StreakBonusTiers(streak);
    StreakBonus(streak)
  }

  /** UserBonus as a function of the user. */
  function BonusOf(activity: map<int, seq<int>>, today: int): (f: int -> int)
    ensures forall u :: f(u) == UserBonus(activity, today, u)
  {
    u => UserBonus(activity, today, u)
  }

  /** What one row adds to a user's total: its score plus the user's bonus,
      for a group row of that user, else nothing. */
  function RowShare(rows: map<Key, RankingRow>, k: Key, userId: int, bonus: int): int
    requires k in rows
  {
    if k.0 == userId && k.1.Some? then rows[k].score + bonus else 0
  }

  /** The sum over the listed rows of what each adds to `userId`'s total. */
  function UserSum(rows: map<Key, RankingRow>, order: seq<Key>, userId: int, bonus: int): int
    requires forall i :: 0 <= i < |order| ==> order[i] in rows
  {
    if order == [] then 0
    else UserSum(rows, order[..|order| - 1], userId, bonus) + RowShare(rows, order[|order| - 1], userId, bonus)
  }

  /** Rows of other users and personal rows add nothing. */
  lemma {:induction false} UserSumNoGroupRows(rows: map<Key, RankingRow>, order: seq<Key>, userId: int, bonus: int)
    requires forall i :: 0 <= i < |order| ==> order[i] in rows
    requires forall i :: 0 <= i < |order| ==> order[i].0 != userId || order[i].1.None?
    ensures UserSum(rows, order, userId, bonus) == 0
  {
    if order != [] {
      UserSumNoGroupRows(rows, order[..|order| - 1], userId, bonus);
    }
  }

  /** UserSumNoGroupRows in the form the table offers: no group row of
      `userId` in the table. */
  lemma UserSumNoGroupRowsIf(rows: map<Key, RankingRow>, order: seq<Key>, userId: int, bonus: int)
    requires forall i :: 0 <= i < |order| ==> order[i] in rows
    ensures (forall k :: k in rows ==> k.0 != userId || k.1.None?) ==> UserSum(rows, order, userId, bonus) == 0
  {
    if forall k :: k in rows ==> k.0 != userId || k.1.None? {
      UserSumNoGroupRows(rows, order, userId, bonus);
    }
  }

  /** The sum reads only the listed rows. */
  lemma {:induction false} UserSumFrame(rows: map<Key, RankingRow>, rows2: map<Key, RankingRow>, order: seq<Key>,
                                        userId: int, bonus: int)
    requires forall i :: 0 <= i < |order| ==> order[i] in rows && order[i] in rows2 && rows2[order[i]] == rows[order[i]]
    ensures UserSum(rows2, order, userId, bonus) == UserSum(rows, order, userId, bonus)
  {
    if order != [] {
      UserSumFrame(rows, rows2, order[..|order| - 1], userId, bonus);
    }
  }

  /** Adding `delta` to a listed row changes the sum of its user by `delta`
      when it is a group row of that user, and no other sum. */
  lemma {:induction false} UserSumBumpedRow(rows: map<Key, RankingRow>, order: seq<Key>, key: Key, delta: int,
                                            newRow: RankingRow, userId: int, bonus: int)
    requires newRow.score == 0 && key in rows
    requires forall i :: 0 <= i < |order| ==> order[i] in rows
    requires forall i, j :: 0 <= i < j < |order| ==> order[i] != order[j]
    ensures UserSum(Bumped(rows, key, delta, newRow), order, userId, bonus) ==
      UserSum(rows, order, userId, bonus) + (if key in order && key.0 == userId && key.1.Some? then delta else 0)
  {
    var after := Bumped(rows, key, delta, newRow);
    if order != [] {
      var init := order[..|order| - 1];
      var last := order[|order| - 1];
      assert forall x :: x in order <==> x in init || x == last;
      if last == key {
        assert key !in init;
        UserSumFrame(rows, after, init, userId, bonus);
      } else {
        UserSumBumpedRow(rows, init, key, delta, newRow, userId, bonus);
      }
    }
  }

  /** What updatePersonalScore, updateGroupScore and updateRankingScore do
      to getTotalScoreByUser: the sum of the row's user grows by `delta` plus,
      for a group row created by the update, the user's bonus; the sums of
      the other users and the effect of personal rows stay as they were. */
  lemma UserSumAfterUpdate(rows: map<Key, RankingRow>, order: seq<Key>, key: Key, delta: int,
                           newRow: RankingRow, userId: int, bonus: int)
    requires newRow.score == 0
    requires forall k :: k in rows <==> k in order
    requires forall i, j :: 0 <= i < j < |order| ==> order[i] != order[j]
    ensures var order2 := if key in rows then order else order + [key];
      UserSum(Bumped(rows, key, delta, newRow), order2, userId, bonus) ==
      UserSum(rows, order, userId, bonus)
      + (if key.0 == userId && key.1.Some? then delta + (if key in rows then 0 else bonus) else 0)
  {
    var after := Bumped(rows, key, delta, newRow);
    if key in rows {
      UserSumBumpedRow(rows, order, key, delta, newRow, userId, bonus);
    } else {
      var order2 := order + [key];
      assert order2[..|order2| - 1] == order;
      UserSumFrame(rows, after, order, userId, bonus);
    }
  }

  /** (user, total) entries: the value of `userId`, 0 when absent. */
  function Lookup(entries: seq<(int, int)>, userId: int): int {
    if entries == [] then 0
    else if entries[0].0 == userId then entries[0].1
    else Lookup(entries[1..], userId)
  }

  predicate HasUser(entries: seq<(int, int)>, u: int) {
    exists i :: 0 <= i < |entries| && entries[i].0 == u
  }

  /** `u` has a group row among the listed rows. */
  predicate HasGroupRow(order: seq<Key>, u: int) {
    exists i :: 0 <= i < |order| && order[i].0 == u && order[i].1.Some?
  }

  predicate DistinctUsers(entries: seq<(int, int)>) {
    forall i, j :: 0 <= i < j < |entries| ==> entries[i].0 != entries[j].0
  }

  /** summingInt into a grouping map: add `v` to the entry of `userId`,
      appending the entry when the user is new. */
  function AddTo(entries: seq<(int, int)>, userId: int, v: int): (r: seq<(int, int)>)
    requires DistinctUsers(entries)
    ensures DistinctUsers(r)
    ensures forall u :: HasUser(r, u) <==> u == userId || HasUser(entries, u)
    ensures forall u :: Lookup(r, u) == Lookup(entries, u) + (if u == userId then v else 0)
  {
    if entries == [] then
      assert forall u :: Lookup([(userId, v)], u) == (if u == userId then v else 0) by {
        forall u ensures Lookup([(userId, v)], u) == (if u == userId then v else 0) {
          assert [(userId, v)][1..] == [];
        }
      }
      [(userId, v)]
    else if entries[0].0 == userId then
      assert forall i :: 0 < i < |entries| ==> entries[i].0 != userId;
      assert forall u :: u != userId ==> Lookup(entries, u) == Lookup(entries[1..], u);
      assert Lookup(entries[1..], userId) == 0 by { LookupAbsent(entries[1..], userId); }
      var r := [(userId, entries[0].1 + v)] + entries[1..];
      assert r[1..] == entries[1..];
      assert forall i :: 0 < i < |r| ==> r[i] == entries[i];
      assert forall u :: HasUser(r, u) <==> HasUser(entries, u) by {
        forall u ensures HasUser(r, u) <==> HasUser(entries, u) {
          if HasUser(r, u) {
            var i :| 0 <= i < |r| && r[i].0 == u;
            assert entries[i].0 == u;
          }
          if HasUser(entries, u) {
            var i :| 0 <= i < |entries| && entries[i].0 == u;
            assert r[i].0 == u;
          }
        }
      }
      r
    else
      var tail := entries[1..];
      var rest := AddTo(tail, userId, v);
      var r := [entries[0]] + rest;
      assert r[1..] == rest;
      assert forall i :: 0 < i < |entries| ==> entries[i] == tail[i - 1];
      assert forall i :: 0 < i < |r| ==> r[i] == rest[i - 1];
      assert forall i :: 0 <= i < |rest| ==> rest[i].0 != entries[0].0 by {
        forall i | 0 <= i < |rest| ensures rest[i].0 != entries[0].0 {
          assert HasUser(rest, rest[i].0);
          if rest[i].0 != userId {
            var j :| 0 <= j < |tail| && tail[j].0 == rest[i].0;
            assert entries[j + 1].0 == rest[i].0;
          }
        }
      }
      assert forall u :: HasUser(r, u) <==> u == entries[0].0 || HasUser(rest, u) by {
        forall u ensures HasUser(r, u) <==> u == entries[0].0 || HasUser(rest, u) {
          if HasUser(rest, u) {
            var i :| 0 <= i < |rest| && rest[i].0 == u;
            assert r[i + 1].0 == u;
          }
          if u == entries[0].0 {
            assert r[0].0 == u;
          }
          if HasUser(r, u) && u != entries[0].0 {
            var i :| 0 <= i < |r| && r[i].0 == u;
            assert rest[i - 1].0 == u;
          }
        }
      }
      assert forall u :: HasUser(entries, u) <==> u == entries[0].0 || HasUser(tail, u) by {
        forall u ensures HasUser(entries, u) <==> u == entries[0].0 || HasUser(tail, u) {
          if HasUser(tail, u) {
            var i :| 0 <= i < |tail| && tail[i].0 == u;
            assert entries[i + 1].0 == u;
          }
          if HasUser(entries, u) && u != entries[0].0 {
            var i :| 0 <= i < |entries| && entries[i].0 == u;
            assert tail[i - 1].0 == u;
          }
        }
      }
      r
  }

  /** A user without an entry looks up as 0. */
  lemma {:induction false} LookupAbsent(entries: seq<(int, int)>, userId: int)
    requires forall i :: 0 <= i < |entries| ==> entries[i].0 != userId
    ensures Lookup(entries, userId) == 0
  {
    if entries != [] {
      LookupAbsent(entries[1..], userId);
    }
  }

  /** An entry of a duplicate-free list is what Lookup finds. */
  lemma {:induction false} LookupOfEntry(entries: seq<(int, int)>, i: nat)
    requires DistinctUsers(entries) && i < |entries|
    ensures Lookup(entries, entries[i].0) == entries[i].1
  {
    if i > 0 {
      assert entries[0].0 != entries[i].0;
      assert entries[1..][i - 1] == entries[i];
      LookupOfEntry(entries[1..], i - 1);
    }
  }

  /** groupingBy(userId, summingInt(score + bonus)) over the group rows, in
      the order the rows are listed. */
  function GroupTotals(rows: map<Key, RankingRow>, order: seq<Key>, bonus: int -> int): (r: seq<(int, int)>)
    requires forall i :: 0 <= i < |order| ==> order[i] in rows
    ensures DistinctUsers(r)
    ensures forall u :: Lookup(r, u) == UserSum(rows, order, u, bonus(u))
    ensures forall u :: HasUser(r, u) <==> HasGroupRow(order, u)
  {
    if order == [] then []
    else
      var init := order[..|order| - 1];
      var k := order[|order| - 1];
      var prev := GroupTotals(rows, init, bonus);
      assert forall i :: 0 <= i < |init| ==> init[i] == order[i];
      if k.1.None? then prev
      else AddTo(prev, k.0, rows[k].score + bonus(k.0))
  }

  /** Insert into a list sorted by descending total, after the entries with
      an equal total (List.sort is stable). */
  function InsertDesc(e: (int, int), s: seq<(int, int)>): (r: seq<(int, int)>)
    requires SortedDesc(s)
    ensures SortedDesc(r)
    ensures multiset(r) == multiset(s) + multiset{e}
    ensures |r| == |s| + 1
    ensures r[0] == e || (s != [] && r[0] == s[0])
  {
    if s == [] then [e]
    else if e.1 > s[0].1 then
      ConsSortedDesc(e, s);
      assert multiset([e] + s) == multiset{e} + multiset(s);
      [e] + s
    else
      var rest := InsertDesc(e, s[1..]);
      assert s == [s[0]] + s[1..];
      assert |s| > 1 ==> s[0].1 >= s[1].1;
      ConsSortedDesc(s[0], rest);
      var r := [s[0]] + rest;
      assert multiset(r) == multiset{s[0]} + multiset(rest);
      r
  }

  /** An entry no smaller than the head of a sorted list extends it. */
  lemma ConsSortedDesc(h: (int, int), rest: seq<(int, int)>)
    requires SortedDesc(rest) && (rest != [] ==> h.1 >= rest[0].1)
    ensures SortedDesc([h] + rest)
    ensures ([h] + rest)[0] == h
  {
    var r := [h] + rest;
    forall j | 1 < j < |r|
      ensures r[j - 1].1 >= r[j].1
    {
      assert r[j - 1] == rest[j - 2] && r[j] == rest[j - 1];
    }
  }

  /** Sorted by descending total, neighbour by neighbour. */
  predicate SortedDesc(s: seq<(int, int)>) {
    forall i :: 0 < i < |s| ==> s[i - 1].1 >= s[i].1
  }

  /** Neighbour order gives order between any two positions. */
  lemma {:induction false} SortedDescPairs(s: seq<(int, int)>, i: nat, j: nat)
    requires SortedDesc(s) && i <= j < |s|
    ensures s[i].1 >= s[j].1
  {
    if i < j {
      SortedDescPairs(s, i, j - 1);
    }
  }

  /** sorted((a, b) -> b.compareTo(a)): descending by total, equal totals
      in their original order. */
  function SortDesc(s: seq<(int, int)>): (r: seq<(int, int)>)
    ensures SortedDesc(r)
    ensures multiset(r) == multiset(s)
    ensures |r| == |s|
  {
    if s == [] then []
    else
      assert s == s[..|s| - 1] + [s[|s| - 1]];
      InsertDesc(s[|s| - 1], SortDesc(s[..|s| - 1]))
  }

  /** Two equal elements at different positions occur at least twice. */
  lemma CountAtLeastTwo(s: seq<(int, int)>, i: nat, j: nat)
    requires i < j < |s| && s[i] == s[j]
    ensures multiset(s)[s[i]] >= 2
  {
    assert s == s[..j] + [s[j]] + s[j + 1..];
    assert s[i] in s[..j];
  }

  /** Without repeated users no entry occurs twice. */
  lemma {:induction false} CountAtMostOne(a: seq<(int, int)>, x: (int, int))
    requires DistinctUsers(a)
    ensures multiset(a)[x] <= 1
  {
    if a != [] {
      var tail := a[1..];
      assert a == [a[0]] + tail;
      assert DistinctUsers(tail) by {
        assert forall i :: 0 <= i < |tail| ==> tail[i] == a[i + 1];
      }
      CountAtMostOne(tail, x);
      if a[0] == x {
        assert forall i :: 0 <= i < |tail| ==> tail[i] == a[i + 1] && a[i + 1].0 != x.0;
        assert x !in tail;
      }
    }
  }

  /** A reordering of a list without repeated users has none either. */
  lemma PermutationKeepsDistinct(a: seq<(int, int)>, b: seq<(int, int)>)
    requires DistinctUsers(a) && multiset(a) == multiset(b)
    ensures DistinctUsers(b)
  {
    forall i, j | 0 <= i < j < |b| ensures b[i].0 != b[j].0 {
      if b[i].0 == b[j].0 {
        assert b[i] in multiset(a) && b[j] in multiset(a);
        var p :| 0 <= p < |a| && a[p] == b[i];
        var q :| 0 <= q < |a| && a[q] == b[j];
        assert p == q;
        CountAtLeastTwo(b, i, j);
        CountAtMostOne(a, b[i]);
        assert false;
      }
    }
  }

  /** A PersonalRankingResponse without the looked-up display fields. */
  datatype PersonalRanking = PersonalRanking(currentRank: nat, userId: int, totalScore: int, totalParticipants: nat)

  /** Rank index + 1 over the sorted totals. */
  function Ranked(s: seq<(int, int)>): (r: seq<PersonalRanking>)
    ensures |r| == |s|
    ensures forall i :: 0 <= i < |s| ==> r[i] == PersonalRanking(i + 1, s[i].0, s[i].1, |s|)
  {
    seq(|s|, i requires 0 <= i < |s| => PersonalRanking(i + 1, s[i].0, s[i].1, |s|))
  }
  /** Descending totals, each user once with the sum of that user's rows,
      and exactly the users with a group row. */
  ghost predicate RankingShape(r: seq<PersonalRanking>, rows: map<Key, RankingRow>, order: seq<Key>, bonus: int -> int)
    requires forall i :: 0 <= i < |order| ==> order[i] in rows
  {
    && (forall i, j :: 0 <= i < j < |r| ==> r[i].totalScore >= r[j].totalScore)
    && (forall i, j :: 0 <= i < j < |r| ==> r[i].userId != r[j].userId)
    && (forall i :: 0 <= i < |r| ==> r[i].totalScore == UserSum(rows, order, r[i].userId, bonus(r[i].userId)))
    && (forall u :: (exists i :: 0 <= i < |r| && r[i].userId == u) <==> HasGroupRow(order, u))
  }

  /** A sorted reordering of duplicate-free totals: ordered between any two
      positions, duplicate-free, every entry's total what Lookup finds in
      the original, and the same users. */
  lemma SortedReordering(totals: seq<(int, int)>, sorted: seq<(int, int)>)
    requires DistinctUsers(totals) && multiset(sorted) == multiset(totals) && SortedDesc(sorted)
    ensures forall i, j :: 0 <= i < j < |sorted| ==> sorted[i].1 >= sorted[j].1
    ensures DistinctUsers(sorted)
    ensures forall i :: 0 <= i < |sorted| ==> Lookup(totals, sorted[i].0) == sorted[i].1
    ensures forall u :: HasUser(sorted, u) <==> HasUser(totals, u)
  {
    PermutationKeepsDistinct(totals, sorted);
    forall i, j | 0 <= i < j < |sorted| ensures sorted[i].1 >= sorted[j].1 {
      SortedDescPairs(sorted, i, j);
    }
    forall i | 0 <= i < |sorted| ensures Lookup(totals, sorted[i].0) == sorted[i].1 {
      assert sorted[i] in multiset(totals);
      var p :| 0 <= p < |totals| && totals[p] == sorted[i];
      LookupOfEntry(totals, p);
    }
    forall u ensures HasUser(sorted, u) <==> HasUser(totals, u) {
      if HasUser(sorted, u) {
        var i :| 0 <= i < |sorted| && sorted[i].0 == u;
        assert sorted[i] in multiset(totals);
        var p :| 0 <= p < |totals| && totals[p] == sorted[i];
      }
      if HasUser(totals, u) {
        var p :| 0 <= p < |totals| && totals[p].0 == u;
        assert totals[p] in multiset(sorted);
        var i :| 0 <= i < |sorted| && sorted[i] == totals[p];
      }
    }
  }

  /** The ranking of the group totals: ranks from 1, descending totals,
      each user once with the sum of that user's rows, and exactly the users
      with a group row. */
  lemma RankedTotals(rows: map<Key, RankingRow>, order: seq<Key>, bonus: int -> int)
    requires forall i :: 0 <= i < |order| ==> order[i] in rows
    ensures RankingShape(Ranked(SortDesc(GroupTotals(rows, order, bonus))), rows, order, bonus)
  {
    var totals := GroupTotals(rows, order, bonus);
    var sorted := SortDesc(totals);
    SortedReordering(totals, sorted);
    RankedUsers(sorted);
  }

  /** The ranked list names exactly the users of the sorted totals. */
  lemma RankedUsers(sorted: seq<(int, int)>)
    ensures forall u :: (exists i :: 0 <= i < |Ranked(sorted)| && Ranked(sorted)[i].userId == u) <==> HasUser(sorted, u)
  {
    var r := Ranked(sorted);
    forall u ensures (exists i :: 0 <= i < |r| && r[i].userId == u) <==> HasUser(sorted, u) {
      if HasUser(sorted, u) {
        var i :| 0 <= i < |sorted| && sorted[i].0 == u;
        assert r[i].userId == u;
      }
    }
  }



}
