/** generateReviewMessage of ReviewServiceImpl: the fixed fallback text sent
    when the AI message is not available. */
module ReviewMessage {
  import opened Wrappers
  import opened Text
  import opened ReviewCalc

  /** The five achievement-rate tiers of the closing advice. */
  datatype RateTier = Over90 | Over80 | Over70 | Over50 | Below50

  function TierOf(rate: int): (t: RateTier)
    ensures t == Over90 <==> rate >= 90
    ensures t == Over80 <==> 80 <= rate < 90
    ensures t == Over70 <==> 70 <= rate < 80
    ensures t == Over50 <==> 50 <= rate < 70
    ensures t == Below50 <==> rate < 50
  {
    if rate >= 90 then Over90
    else if rate >= 80 then Over80
    else if rate >= 70 then Over70
    else if rate >= 50 then Over50
    else Below50
  }

  function TierSentence(t: RateTier): string {
    match t
    case Over90 => "🎉 개인 루틴 90% 이상 달성! 완벽한 한 달이었어요!\n\n"
    case Over80 => "⭐ 개인 루틴 80% 이상! 정말 훌륭한 실천력이에요!\n\n"
    case Over70 => "💪 개인 루틴 70% 달성! 꾸준함이 보여요!\n\n"
    case Over50 => "🌟 개인 루틴 절반 이상 달성! 다음 달은 더 높여보세요!\n\n"
    case Below50 => "💪 개인 루틴에 더 집중해보세요! 작은 시작이 큰 변화를 만듭니다!\n\n"
  }

  const NoRateSentence: string := "🎯 다음 달에는 개인 루틴도 도전해보세요!\n\n"
  const RisingClosing: string := "💪 지난 달보다 더 발전한 모습이 보여요! 이 기세로 쭉~\n\n"
  const SteadyClosing: string := "💪 꾸준함이 최고의 재능입니다! 다음 달도 화이팅!\n\n"

  /** The annotation after the total score, by the sign of the difference. */
  function ScoreAnnotation(diff: Option<int>): string {
    match diff
    case None => ""
    case Some(d) =>
      if d > 0 then " (📈 +" + IntStr(d) + "점 상승!)"
      else if d < 0 then " (📉 " + IntStr(d) + "점 하락)"
      else " (➡️ 동일)"
  }

  function GroupAnnotation(diff: Option<int>): string {
    if diff.Some? && diff.value > 0 then " (👥 +" + IntStr(diff.value) + "개 그룹 추가!)" else ""
  }

  function RateAnnotation(personalCount: int, rate: Option<int>): string {
    if personalCount > 0 && rate.Some? then " (달성률 " + IntStr(rate.value) + "%)" else ""
  }

  function RateSentence(rate: Option<int>): string {
    match rate
    case None => NoRateSentence
    case Some(r) => TierSentence(TierOf(r))
  }

  function Closing(diff: Option<int>): string {
    if diff.Some? && diff.value > 0 then RisingClosing else SteadyClosing
  }

  // The message is specified as the StringBuilder contents after each
  // stretch of appends: each function extends the text `sb` built so far.

  /** Month title, greeting and invitation. */
  function WithGreeting(sb: string, r: Review): string {
    sb + ("🎊 " + r.monthYear + " 월간 루틴 성과 리포트 🎊\n\n")
    + ("안녕하세요, " + r.nickname + "님!\n")
    + "이번 달 루틴 성과를 확인해보세요.\n\n"
  }

  /** The score, group and total lines. */
  function WithScores(sb: string, r: Review): string {
    sb + "📈 이번 달 성과\n"
    + ("• 총 점수: " + IntStr(r.totalScore) + "점")
    + ScoreAnnotation(r.scoreDifference)
    + "\n"
    + ("• 참여 그룹: " + IntStr(r.participatingGroups) + "개")
    + GroupAnnotation(r.groupDifference)
    + "\n"
    + ("• 총 인증: " + IntStr(r.totalAuthCount.GetOr(0)) + "회\n")
  }

  /** The per-activity lines; null counts print as 0. */
  function WithDetails(sb: string, r: Review): string {
    sb + "📊 활동별 상세 현황\n"
    + ("🎯 개인 루틴: " + IntStr(r.personalRoutineCount.GetOr(0)) + "회")
    + RateAnnotation(r.personalRoutineCount.GetOr(0), r.personalRoutineAchievementRate)
    + "\n"
    + ("👥 그룹 인증: " + IntStr(r.groupAuthCount.GetOr(0)) + "회\n")
    + ("✅ 출석 체크: " + IntStr(r.dailyChecklistCount.GetOr(0)) + "회\n")
    + ("• 참여 그룹: " + IntStr(r.participatingGroups) + "개\n\n")
  }

  const FooterGreeting: string := "새로운 달에도 함께 성장해요! 🌱\n"
  const FooterLink: string := "루틴잇에서 확인하기 👆"

  /** The rate sentence, the closing and the footer. */
  function WithAdvice(sb: string, r: Review): string {
    sb + RateSentence(r.personalRoutineAchievementRate) + Closing(r.scoreDifference)
    + FooterGreeting + FooterLink
  }

  /** The report part that precedes the advice. */
  function Report(r: Review): string {
    WithDetails(WithScores(WithGreeting("", r), r), r)
  }

  /** The whole fallback message. */
  function FallbackMessage(r: Review): string {
    WithAdvice(Report(r), r)
  }

  /** generateReviewMessage: the StringBuilder receives the four stretches of
      appends in order. */
  method GenerateReviewMessage(r: Review) returns (message: string)
    ensures message == FallbackMessage(r)
  {
    message := "";
    message := AppendGreeting(message, r);
    message := AppendScores(message, r);
    message := AppendDetails(message, r);
    message := AppendAdvice(message, r);
  }

  method AppendGreeting(sb: string, r: Review) returns (message: string)
    ensures message == WithGreeting(sb, r)
  {
    message := sb + ("🎊 " + r.monthYear + " 월간 루틴 성과 리포트 🎊\n\n");
    message := message + ("안녕하세요, " + r.nickname + "님!\n");
    message := message + "이번 달 루틴 성과를 확인해보세요.\n\n";
  }

  method AppendScores(sb: string, r: Review) returns (message: string)
    ensures message == WithScores(sb, r)
  {
    message := sb + "📈 이번 달 성과\n";
    message := message + ("• 총 점수: " + IntStr(r.totalScore) + "점");
    var before := message;
    if r.scoreDifference.Some? {
      if r.scoreDifference.value > 0 {
        message := message + (" (📈 +" + IntStr(r.scoreDifference.value) + "점 상승!)");
      } else if r.scoreDifference.value < 0 {
        message := message + (" (📉 " + IntStr(r.scoreDifference.value) + "점 하락)");
      } else {
        message := message + " (➡️ 동일)";
      }
    }
    assert message == before + ScoreAnnotation(r.scoreDifference);
    message := message + "\n";
    message := message + ("• 참여 그룹: " + IntStr(r.participatingGroups) + "개");
    before := message;
    if r.groupDifference.Some? && r.groupDifference.value > 0 {
      message := message + (" (👥 +" + IntStr(r.groupDifference.value) + "개 그룹 추가!)");
    }
    assert message == before + GroupAnnotation(r.groupDifference);
    message := message + "\n";
    message := message + ("• 총 인증: " + IntStr(if r.totalAuthCount.Some? then r.totalAuthCount.value else 0) + "회\n");
  }

  method AppendDetails(sb: string, r: Review) returns (message: string)
    ensures message == WithDetails(sb, r)
  {
    message := sb + "📊 활동별 상세 현황\n";
    var personalCount := if r.personalRoutineCount.Some? then r.personalRoutineCount.value else 0;
    message := message + ("🎯 개인 루틴: " + IntStr(personalCount) + "회");
    var before := message;
    if personalCount > 0 && r.personalRoutineAchievementRate.Some? {
      message := message + (" (달성률 " + IntStr(r.personalRoutineAchievementRate.value) + "%)");
    }
    assert message == before + RateAnnotation(personalCount, r.personalRoutineAchievementRate);
    message := message + "\n";
    var groupCount := if r.groupAuthCount.Some? then r.groupAuthCount.value else 0;
    message := message + ("👥 그룹 인증: " + IntStr(groupCount) + "회\n");
    var checklistCount := if r.dailyChecklistCount.Some? then r.dailyChecklistCount.value else 0;
    message := message + ("✅ 출석 체크: " + IntStr(checklistCount) + "회\n");
    message := message + ("• 참여 그룹: " + IntStr(r.participatingGroups) + "개\n\n");
  }

  method AppendAdvice(sb: string, r: Review) returns (message: string)
    ensures message == WithAdvice(sb, r)
  {
    message := sb;
    if r.personalRoutineAchievementRate.Some? {
      var rate := r.personalRoutineAchievementRate.value;
      if rate >= 90 {
        message := message + "🎉 개인 루틴 90% 이상 달성! 완벽한 한 달이었어요!\n\n";
      } else if rate >= 80 {
        message := message + "⭐ 개인 루틴 80% 이상! 정말 훌륭한 실천력이에요!\n\n";
      } else if rate >= 70 {
        message := message + "💪 개인 루틴 70% 달성! 꾸준함이 보여요!\n\n";
      } else if rate >= 50 {
        message := message + "🌟 개인 루틴 절반 이상 달성! 다음 달은 더 높여보세요!\n\n";
      } else {
        message := message + "💪 개인 루틴에 더 집중해보세요! 작은 시작이 큰 변화를 만듭니다!\n\n";
      }
    } else {
      message := message + "🎯 다음 달에는 개인 루틴도 도전해보세요!\n\n";
    }
    assert message == sb + RateSentence(r.personalRoutineAchievementRate);
    var before := message;
    if r.scoreDifference.Some? && r.scoreDifference.value > 0 {
      message := message + "💪 지난 달보다 더 발전한 모습이 보여요! 이 기세로 쭉~\n\n";
    } else {
      message := message + "💪 꾸준함이 최고의 재능입니다! 다음 달도 화이팅!\n\n";
    }
    assert message == before + Closing(r.scoreDifference);
    message := message + FooterGreeting;
    message := message + FooterLink;
  }

  /** `t` occurs in `s` at some position. */
  predicate Contains(s: string, t: string) {
    exists i :: 0 <= i <= |s| && t <= s[i..]
  }

  lemma ContainsSuffix(a: string, t: string)
    ensures Contains(a + t, t)
  {
    assert (a + t)[|a|..] == t;
  }

  lemma ContainsExtend(s: string, t: string, b: string)
    requires Contains(s, t)
    ensures Contains(s + b, t)
  {
    var i :| 0 <= i <= |s| && t <= s[i..];
    assert (s + b)[i..] == s[i..] + b;
  }

  /** The message carries the tier sentence of the rate (or the no-rate
      sentence) and the closing chosen by the score difference, after the
      report, and ends with the link line. */
  lemma FallbackMessageSections(r: Review)
    ensures Contains(FallbackMessage(r), RateSentence(r.personalRoutineAchievementRate))
    ensures Contains(FallbackMessage(r), Closing(r.scoreDifference))
    ensures Report(r) <= FallbackMessage(r)
    ensures FallbackMessage(r)[|FallbackMessage(r)| - |FooterLink|..] == FooterLink
  {
    var rep := Report(r);
    var rs := RateSentence(r.personalRoutineAchievementRate);
    var cl := Closing(r.scoreDifference);
    AdviceChain(rep, rs, cl, FooterGreeting, FooterLink);
  }

  lemma AdviceChain(a: string, b: string, c: string, d: string, e: string)
    ensures Contains(a + b + c + d + e, b) && Contains(a + b + c + d + e, c)
    ensures a <= a + b + c + d + e
    ensures (a + b + c + d + e)[|a + b + c + d + e| - |e|..] == e
  {
    ContainsSuffix(a, b);
    ContainsExtend(a + b, b, c);
    ContainsExtend(a + b + c, b, d);
    ContainsExtend(a + b + c + d, b, e);
    ContainsSuffix(a + b, c);
    ContainsExtend(a + b + c, c, d);
    ContainsExtend(a + b + c + d, c, e);
  }

  /** Each of the five tier sentences is chosen exactly on its range of the
      rate, and the invitation to start a routine exactly when there is no
      rate. */
  lemma RateSentenceTiers(rate: Option<int>)
    ensures RateSentence(rate) == TierSentence(Over90) <==> rate.Some? && rate.value >= 90
    ensures RateSentence(rate) == TierSentence(Over80) <==> rate.Some? && 80 <= rate.value < 90
    ensures RateSentence(rate) == TierSentence(Over70) <==> rate.Some? && 70 <= rate.value < 80
    ensures RateSentence(rate) == TierSentence(Over50) <==> rate.Some? && 50 <= rate.value < 70
    ensures RateSentence(rate) == TierSentence(Below50) <==> rate.Some? && rate.value < 50
    ensures RateSentence(rate) == NoRateSentence <==> rate.None?
  {
    SentencesDistinct();
  }

  /** The six advice sentences are pairwise different. */
  lemma SentencesDistinct()
    ensures forall t, u :: t != u ==> TierSentence(t) != TierSentence(u)
    ensures forall t :: TierSentence(t) != NoRateSentence
  {
    FirstCharacters();
    var s70, sb := TierSentence(Over70), TierSentence(Below50);
    assert s70[7] != sb[7];
  }

  /** The first characters of the sentences; only the 70% sentence and the
      encouragement share theirs. */
  lemma FirstCharacters()
    ensures TierSentence(Over90)[0] == '🎉' && TierSentence(Over80)[0] == '⭐'
    ensures TierSentence(Over70)[0] == '💪' && TierSentence(Over50)[0] == '🌟'
    ensures TierSentence(Below50)[0] == '💪' && NoRateSentence[0] == '🎯'
  {
  }

  /** The group count is annotated exactly when the group difference is
      present and positive, and the message then carries the annotation. */
  lemma GroupAnnotationIff(r: Review)
    ensures GroupAnnotation(r.groupDifference) != "" <==> r.groupDifference.Some? && r.groupDifference.value > 0
    ensures r.groupDifference.Some? && r.groupDifference.value > 0 ==>
      GroupAnnotation(r.groupDifference) == " (👥 +" + IntStr(r.groupDifference.value) + "개 그룹 추가!)"
    ensures Contains(FallbackMessage(r), GroupAnnotation(r.groupDifference))
  {
    var g := GroupAnnotation(r.groupDifference);
    var pre := WithGreeting("", r) + "📈 이번 달 성과\n"
      + ("• 총 점수: " + IntStr(r.totalScore) + "점")
      + ScoreAnnotation(r.scoreDifference)
      + "\n"
      + ("• 참여 그룹: " + IntStr(r.participatingGroups) + "개");
    var scores := WithScores(WithGreeting("", r), r);
    ContainsSuffix(pre, g);
    ContainsExtend(pre + g, g, "\n");
    ContainsExtend(pre + g + "\n", g, "• 총 인증: " + IntStr(r.totalAuthCount.GetOr(0)) + "회\n");
    assert Contains(scores, g);
    ContainsPrefix(scores, Report(r), g);
    FallbackMessageSections(r);
    ContainsPrefix(Report(r), FallbackMessage(r), g);
  }

  /** An occurrence in a prefix is an occurrence in the whole. */
  lemma ContainsPrefix(s: string, u: string, t: string)
    requires Contains(s, t) && s <= u
    ensures Contains(u, t)
  {
    var i :| 0 <= i <= |s| && t <= s[i..];
    assert s[i..] <= u[i..];
  }

  /** The rising closing is used exactly when the score went up. */
  lemma ClosingIff(diff: Option<int>)
    ensures Closing(diff) == RisingClosing <==> diff.Some? && diff.value > 0
  {
    assert RisingClosing[3] != SteadyClosing[3];
  }

  /** The score annotation is empty exactly when there is no difference, and
      names a rise, a fall or no change according to its sign. */
  lemma ScoreAnnotationBySign(diff: Option<int>)
    ensures ScoreAnnotation(diff) == "" <==> diff.None?
    ensures diff.Some? && diff.value > 0 ==> ScoreAnnotation(diff)[..3] == " (📈"
    ensures diff.Some? && diff.value < 0 ==> ScoreAnnotation(diff)[..3] == " (📉"
    ensures diff == Some(0) <==> ScoreAnnotation(diff) == " (➡️ 동일)"
  {
    if diff.Some? && diff.value != 0 {
      var a := ScoreAnnotation(diff);
      assert a[2] != " (➡️ 동일)"[2];
    }
  }

  /** The message reads only the displayed fields: achievements, identity,
      message and sent flag do not change it. */
  lemma FallbackIgnoresBookkeeping(r: Review, achievements: seq<string>, userId: int,
                                   content: Option<string>, sent: bool)
    ensures FallbackMessage(r.(achievements := achievements, userId := userId,
                               messageContent := content, messageSent := sent))
            == FallbackMessage(r)
  {
  }
}
