/** The sending side of ReviewServiceImpl, run one user after another: the
    batch dispatch with its AI-or-fallback rule and its failure records, the
    success/failure tally of sendMonthlyReviewMessages, the single-user send
    with its three-attempt AI enrichment, the retry pass and the failure
    count. The key-value store is a ReviewStore object; the AI service, the
    store writes and the notification call are outcomes passed in. */
module ReviewDispatch {
  import opened Wrappers
  import opened Calendar
  import opened ReviewCalc
  import opened ReviewLoad
  import opened ReviewMessage

  /** What one call of the AI service gives: a text, a timeout after ten
      seconds, or an exception. */
  datatype AiOutcome = AiOk(text: string) | AiTimedOut | AiError

  /** Why one user's dispatch threw. */
  datatype DispatchError = MissingUserId | CalcFailed(cause: CalcError) | SaveFailed | NotifyFailed

  /** How the outside world answers one batch dispatch: the AI call, the
      store write, the notification, and the write of the failure record
      should the dispatch throw. */
  datatype Effects = Effects(ai: AiOutcome, saveOk: bool, notifyOk: bool, recordOk: bool)

  /** One attempt of the AI enrichment: the AI call and the store write that
      follows a successful one. */
  datatype Attempt = Attempt(ai: AiOutcome, saveOk: bool)

  /** How the outside world answers one single-user send: the write of the
      fallback review, the notification, the enrichment attempts, and (in
      the retry pass) the removal of the failure record after the send. */
  datatype SendEffects = SendEffects(saveOk: bool, notifyOk: bool, attempt: nat -> Attempt, removeOk: bool)

  /** What one dispatch leaves behind: the review written (if the write
      happened), whether the notification went out, the error it threw, and
      whether that error escaped because its failure record could not be
      written either (the dispatch's future then completes exceptionally). */
  datatype Dispatch = Dispatch(saved: Option<Review>, notified: bool, error: Option<DispatchError>, escaped: bool)

  /** The maps a batch shares across its dispatches. */
  datatype BatchContext = BatchContext(
    month: string,
    nicknames: map<int, string>,
    batch: BatchData,
    routineActs: map<int, seq<RoutineActivity>>)

  /** The review a batch dispatch stores: the AI text when the AI call
      answered, the fallback template otherwise, marked sent in every case. */
  function SentReview(review: Review, ai: AiOutcome): Review {
    review.(messageContent := Some(if ai.AiOk? then ai.text else FallbackMessage(review)),
            messageSent := true)
  }

  /** The message step of sendReviewMessageBatch: the AI text, or the
      fallback template when the AI call timed out or threw. */
  method MarkSent(review: Review, ai: AiOutcome) returns (sent: Review)
    ensures sent == SentReview(review, ai)
  {
    var messageContent: string;
    match ai {
      case AiOk(text) =>
        messageContent := text;
      case AiTimedOut =>
        messageContent := GenerateReviewMessage(review);
      case AiError =>
        messageContent := GenerateReviewMessage(review);
    }
    sent := review.(messageContent := Some(messageContent), messageSent := true);
  }

  /** sendReviewMessageBatch for one user, as a value. */
  function BatchDispatch(ctx: BatchContext, userId: int, eff: Effects): (d: Dispatch)
    ensures d.error.None? <==>
      ParseMonthYear(ctx.month).Some? && userId in ctx.nicknames && eff.saveOk && eff.notifyOk
    ensures d.notified ==> d.error.None?
    ensures d.escaped <==> d.error.Some? && !eff.recordOk
  {
    match BatchSnapshot(userId, ctx.month, ctx.nicknames, ctx.batch, ctx.routineActs)
    case Err(e) => Dispatch(None, false, Some(CalcFailed(e)), !eff.recordOk)
    case Ok(review) =>
      var sent := SentReview(review, eff.ai);
      if !eff.saveOk then Dispatch(None, false, Some(SaveFailed), !eff.recordOk)
      else if !eff.notifyOk then Dispatch(Some(sent), false, Some(NotifyFailed), !eff.recordOk)
      else Dispatch(Some(sent), true, None, false)
  }

  /** Whatever the AI call does, a stored batch review is marked sent; a
      timeout or an error stores the fallback text of the snapshot. */
  lemma AiFailureFallsBack(ctx: BatchContext, userId: int, eff: Effects)
    requires BatchDispatch(ctx, userId, eff).saved.Some?
    ensures var d := BatchDispatch(ctx, userId, eff);
      var snap := BatchSnapshot(userId, ctx.month, ctx.nicknames, ctx.batch, ctx.routineActs);
      && snap.Ok?
      && d.saved.value.messageSent
      && (!eff.ai.AiOk? ==> d.saved.value.messageContent == Some(FallbackMessage(snap.value)))
      && (eff.ai.AiOk? ==> d.saved.value.messageContent == Some(eff.ai.text))
      && d.saved.value.achievements == snap.value.achievements
  {
  }

  /** The failure record left for a user whose dispatch threw, unless that
      write failed too. */
  function RecordFailure(failures: map<(int, string), DispatchError>, userId: int, month: string,
                         d: Dispatch): map<(int, string), DispatchError>
  {
    if d.error.Some? && !d.escaped then failures[(userId, month) := d.error.value] else failures
  }

  function RecordSave(reviews: map<(int, string), StoredReview>, userId: int, month: string,
                      d: Dispatch): map<(int, string), StoredReview>
  {
    if d.saved.Some? then reviews[(userId, month) := Readable(d.saved.value)] else reviews
  }

  function Ids(users: seq<(int, string)>): (ids: seq<int>)
    ensures |ids| == |users|
    ensures forall j :: 0 <= j < |users| ==> ids[j] == users[j].0
  {
    seq(|users|, j requires 0 <= j < |users| => users[j].0)
  }

  /** The failure records after dispatching `users` in order. */
  function FailuresAfter(failures: map<(int, string), DispatchError>, ctx: BatchContext,
                         users: seq<int>, env: int -> Effects): map<(int, string), DispatchError>
  {
    if users == [] then failures
    else
      var u := users[|users| - 1];
      RecordFailure(FailuresAfter(failures, ctx, users[..|users| - 1], env), u, ctx.month,
                    BatchDispatch(ctx, u, env(u)))
  }

  function ReviewsAfter(reviews: map<(int, string), StoredReview>, ctx: BatchContext,
                        users: seq<int>, env: int -> Effects): map<(int, string), StoredReview>
  {
    if users == [] then reviews
    else
      var u := users[|users| - 1];
      RecordSave(ReviewsAfter(reviews, ctx, users[..|users| - 1], env), u, ctx.month,
                 BatchDispatch(ctx, u, env(u)))
  }

  function NotifiedAfter(notified: seq<int>, ctx: BatchContext, users: seq<int>,
                         env: int -> Effects): seq<int>
  {
    if users == [] then notified
    else
      var u := users[|users| - 1];
      var n := NotifiedAfter(notified, ctx, users[..|users| - 1], env);
      if BatchDispatch(ctx, u, env(u)).notified then n + [u] else n
  }

  /** Dispatching one more user extends each of the four records by that
      user's dispatch. */
  lemma DispatchStep(failures: map<(int, string), DispatchError>, reviews: map<(int, string), StoredReview>,
                     notified: seq<int>, ctx: BatchContext, ids: seq<int>, i: nat, env: int -> Effects)
    requires i < |ids|
    ensures var u := ids[i];
      var d := BatchDispatch(ctx, u, env(u));
      && Successes(ctx, ids[..i + 1], env) == Successes(ctx, ids[..i], env) + (if d.error.None? then 1 else 0)
      && FailuresAfter(failures, ctx, ids[..i + 1], env)
         == RecordFailure(FailuresAfter(failures, ctx, ids[..i], env), u, ctx.month, d)
      && ReviewsAfter(reviews, ctx, ids[..i + 1], env)
         == RecordSave(ReviewsAfter(reviews, ctx, ids[..i], env), u, ctx.month, d)
      && NotifiedAfter(notified, ctx, ids[..i + 1], env)
         == (if d.notified then NotifiedAfter(notified, ctx, ids[..i], env) + [u]
             else NotifiedAfter(notified, ctx, ids[..i], env))
      && SomeEscaped(ctx, ids[..i + 1], env) == (SomeEscaped(ctx, ids[..i], env) || d.escaped)
  {
    assert ids[..i + 1][..i] == ids[..i];
  }

  /** How many of `users` dispatch without throwing. */
  function Successes(ctx: BatchContext, users: seq<int>, env: int -> Effects): (n: nat)
    ensures n <= |users|
  {
    if users == [] then 0
    else
      Successes(ctx, users[..|users| - 1], env)
      + (if BatchDispatch(ctx, users[|users| - 1], env(users[|users| - 1])).error.None? then 1 else 0)
  }

  /** Whether some dispatch of `users` completes exceptionally. */
  predicate SomeEscaped(ctx: BatchContext, users: seq<int>, env: int -> Effects) {
    if users == [] then false
    else
      SomeEscaped(ctx, users[..|users| - 1], env) || BatchDispatch(ctx, users[|users| - 1], env(users[|users| - 1])).escaped
  }

  /** A (user, month) failure record exists after the batch exactly when it
      existed before or that user's dispatch threw. */
  lemma {:induction false} FailuresAfterKeys(failures: map<(int, string), DispatchError>, ctx: BatchContext,
                                             users: seq<int>, env: int -> Effects, u: int)
    ensures (u, ctx.month) in FailuresAfter(failures, ctx, users, env) <==>
      (u, ctx.month) in failures || (u in users && BatchDispatch(ctx, u, env(u)).error.Some? && env(u).recordOk)
  {
    if users != [] {
      FailuresAfterKeys(failures, ctx, users[..|users| - 1], env, u);
      assert forall x :: x in users <==> x in users[..|users| - 1] || x == users[|users| - 1];
    }
  }

  /** Records of other months are never touched by the batch. */
  lemma {:induction false} FailuresAfterOtherMonths(failures: map<(int, string), DispatchError>, ctx: BatchContext,
                                                    users: seq<int>, env: int -> Effects, k: (int, string))
    requires k.1 != ctx.month
    ensures (k in FailuresAfter(failures, ctx, users, env)) == (k in failures)
    ensures k in failures ==> FailuresAfter(failures, ctx, users, env)[k] == failures[k]
  {
    if users != [] {
      FailuresAfterOtherMonths(failures, ctx, users[..|users| - 1], env, k);
    }
  }

  /** The batch's verdict: no users, all sent, some failed (the batch throws
      after tallying), the wait for the dispatches threw (a dispatch whose
      failure record could not be written: the bare RuntimeException, no
      tally), or a failure before any dispatch. */
  datatype BatchOutcome =
    | NoUsers
    | AllSent(successCount: nat)
    | SomeFailed(successCount: nat, failCount: nat)
    | WaitFailed
    | TargetMonthInvalid
    | DuplicateUserId
    | LoadFailed(cause: LoadError)

  /** `monthYear` if given, else today minus one month. */
  function TargetMonth(monthYear: Option<string>, today: Date): string
    requires 1 <= today.month <= 12
  {
    match monthYear
    case Some(m) => m
    case None => PreviousMonthString(today)
  }

  /** The steps of sendMonthlyReviewMessages before any dispatch: parse the
      target month, find the users, index them by id and preload the batch
      maps. Each failure ends the batch with its verdict. */
  function PrepareBatch(month: string, users: seq<(int, string)>, rows: BatchRows,
                        reviews: map<(int, string), StoredReview>,
                        routineActs: map<int, seq<RoutineActivity>>): (r: Result<BatchContext, BatchOutcome>)
    ensures r.Ok? <==> (ParseMonthYear(month).Some? && users != [] && DistinctKeys(users)
                        && LoadAllBatchData(rows, reviews, Ids(users), month).Ok?)
    ensures r.Ok? ==> (r.value.month == month && r.value.routineActs == routineActs
                       && forall j :: 0 <= j < |users| ==>
                            (users[j].0 in r.value.nicknames && r.value.nicknames[users[j].0] == users[j].1))
    ensures ParseMonthYear(month).None? ==> r == Err(TargetMonthInvalid)
    ensures ParseMonthYear(month).Some? && users == [] ==> r == Err(NoUsers)
  {
    if ParseMonthYear(month).None? then Err(TargetMonthInvalid)
    else if users == [] then Err(NoUsers)
    else match ToMap(users)
      case None => Err(DuplicateUserId)
      case Some(userMap) =>
        match LoadAllBatchData(rows, reviews, Ids(users), month)
        case Err(e) => Err(LoadFailed(e))
        case Ok(batch) => Ok(BatchContext(month, userMap, batch, routineActs))
  }

  /** One unreadable previous-month record of a batch user stops the batch
      in its preload, before any user is dispatched. */
  lemma {:induction false} CorruptPreviousAbortsBatch(month: string, users: seq<(int, string)>, rows: BatchRows,
                                                      reviews: map<(int, string), StoredReview>,
                                                      routineActs: map<int, seq<RoutineActivity>>, j: nat)
    requires ParseMonthYear(month).Some? && DistinctKeys(users)
    requires DistinctKeys(KeyedRows(rows.activityRows)) && DistinctKeys(rows.scoreRows) && DistinctKeys(rows.groupRows)
    requires GetPreviousMonth(month).Some? && j < |users|
    requires (users[j].0, GetPreviousMonth(month).value) in reviews
    requires reviews[(users[j].0, GetPreviousMonth(month).value)].Corrupt?
    ensures PrepareBatch(month, users, rows, reviews, routineActs) == Err(LoadFailed(NullValue))
  {
    var ids := Ids(users);
    assert ids[j] == users[j].0 && users[j].0 in ids;
    assert LoadAllBatchData(rows, reviews, ids, month).Err?;
  }

  /** The tally's verdict: every dispatch went through, or the batch throws
      with both counts. */
  function BatchVerdict(successCount: nat, total: nat): (o: BatchOutcome)
    requires successCount <= total
    ensures o.AllSent? <==> successCount == total
    ensures o.AllSent? ==> o.successCount == total
    ensures o.SomeFailed? ==> (o.successCount == successCount && o.successCount + o.failCount == total
                               && o.failCount > 0)
  {
    if successCount == total then AllSent(successCount) else SomeFailed(successCount, total - successCount)
  }

  /** The end of the batch once every dispatch has run: the wait throws when
      some dispatch completed exceptionally, else the tally decides. */
  function Tally(ctx: BatchContext, ids: seq<int>, env: int -> Effects): (o: BatchOutcome)
    ensures o == WaitFailed <==> SomeEscaped(ctx, ids, env)
    ensures o != WaitFailed ==> o == BatchVerdict(Successes(ctx, ids, env), |ids|)
  {
    if SomeEscaped(ctx, ids, env) then WaitFailed else BatchVerdict(Successes(ctx, ids, env), |ids|)
  }

  /** The review data held in the key-value store. */
  class ReviewStore {
    /** Review JSON by (user, "yyyy-MM"). */
    var reviews: map<(int, string), StoredReview>
    /** Failure records by (user, "yyyy-MM"). */
    var failures: map<(int, string), DispatchError>
    /** Users sent a MONTHLY_REVIEW notification, in order. */
    var notified: seq<int>

    constructor ()
      ensures reviews == map[] && failures == map[] && notified == []
    {
      reviews := map[];
      failures := map[];
      notified := [];
    }

    /** sendUserReviewMessageAsync with sendReviewMessageBatch inside it:
        true when the dispatch went through, false with a failure record when
        it threw; `escaped` when the failure record could not be written and
        the future completes exceptionally. */
    method SendReviewBatch(ctx: BatchContext, userId: int, eff: Effects) returns (ok: bool, escaped: bool)
      modifies this
      ensures var d := BatchDispatch(ctx, userId, eff);
        && ok == d.error.None?
        && escaped == d.escaped
        && failures == RecordFailure(old(failures), userId, ctx.month, d)
        && reviews == RecordSave(old(reviews), userId, ctx.month, d)
        && notified == (if d.notified then old(notified) + [userId] else old(notified))
    {
      var snapshot := CalculateMonthlyReviewBatch(userId, ctx.month, ctx.nicknames, ctx.batch, ctx.routineActs);
      if snapshot.Err? {
        escaped := SaveFailedMessage(userId, ctx.month, CalcFailed(snapshot.error), eff.recordOk);
        return false, escaped;
      }
      var review := MarkSent(snapshot.value, eff.ai);
      if !eff.saveOk {
        escaped := SaveFailedMessage(userId, ctx.month, SaveFailed, eff.recordOk);
        return false, escaped;
      }
      reviews := reviews[(userId, ctx.month) := Readable(review)];
      if !eff.notifyOk {
        escaped := SaveFailedMessage(userId, ctx.month, NotifyFailed, eff.recordOk);
        return false, escaped;
      }
      notified := notified + [userId];
      ok, escaped := true, false;
    }

    /** saveFailedMessage in the catch of a dispatch: the record is written
        when the store accepts it; otherwise the exception escapes. */
    method SaveFailedMessage(userId: int, month: string, error: DispatchError, recordOk: bool)
      returns (escaped: bool)
      modifies this
      ensures escaped == !recordOk
      ensures failures == if recordOk then old(failures)[(userId, month) := error] else old(failures)
      ensures reviews == old(reviews) && notified == old(notified)
    {
      if recordOk {
        failures := failures[(userId, month) := error];
      }
      escaped := !recordOk;
    }

    /** sendMonthlyReviewMessages: preload, dispatch every user in order,
        tally, and throw when any dispatch failed. */
    method SendMonthlyReviewMessages(monthYear: Option<string>, today: Date,
                                     users: seq<(int, string)>, rows: BatchRows,
                                     routineActs: map<int, seq<RoutineActivity>>,
                                     env: int -> Effects)
      returns (outcome: BatchOutcome)
      requires 1 <= today.month <= 12
      modifies this
      ensures var prep := PrepareBatch(TargetMonth(monthYear, today), users, rows, old(reviews), routineActs);
        && (prep.Err? ==> outcome == prep.error && unchanged(this))
        && (prep.Ok? ==>
              var ctx := prep.value;
              && failures == FailuresAfter(old(failures), ctx, Ids(users), env)
              && reviews == ReviewsAfter(old(reviews), ctx, Ids(users), env)
              && notified == NotifiedAfter(old(notified), ctx, Ids(users), env)
              && outcome == Tally(ctx, Ids(users), env))
    {
      outcome := SendForMonth(TargetMonth(monthYear, today), users, rows, routineActs, env);
    }

    /** The batch for one target month. */
    method SendForMonth(month: string, users: seq<(int, string)>, rows: BatchRows,
                        routineActs: map<int, seq<RoutineActivity>>, env: int -> Effects)
      returns (outcome: BatchOutcome)
      modifies this
      ensures var prep := PrepareBatch(month, users, rows, old(reviews), routineActs);
        && (prep.Err? ==> outcome == prep.error && unchanged(this))
        && (prep.Ok? ==>
              var ctx := prep.value;
              && failures == FailuresAfter(old(failures), ctx, Ids(users), env)
              && reviews == ReviewsAfter(old(reviews), ctx, Ids(users), env)
              && notified == NotifiedAfter(old(notified), ctx, Ids(users), env)
              && outcome == Tally(ctx, Ids(users), env))
    {
      var prep := PrepareBatch(month, users, rows, reviews, routineActs);
      if prep.Err? {
        return prep.error;
      }
      outcome := DispatchAll(prep.value, Ids(users), env);
    }

    /** The dispatches of one batch, one user after another, and their tally. */
    method DispatchAll(ctx: BatchContext, ids: seq<int>, env: int -> Effects)
      returns (outcome: BatchOutcome)
      modifies this
      ensures outcome == Tally(ctx, ids, env)
      ensures failures == FailuresAfter(old(failures), ctx, ids, env)
      ensures reviews == ReviewsAfter(old(reviews), ctx, ids, env)
      ensures notified == NotifiedAfter(old(notified), ctx, ids, env)
    {
      var successCount: nat, failCount: nat := 0, 0;
      var anyEscaped := false;
      var i := 0;
      while i < |ids|
        invariant 0 <= i <= |ids|
        invariant successCount + failCount == i
        invariant successCount == Successes(ctx, ids[..i], env)
        invariant anyEscaped == SomeEscaped(ctx, ids[..i], env)
        invariant failures == FailuresAfter(old(failures), ctx, ids[..i], env)
        invariant reviews == ReviewsAfter(old(reviews), ctx, ids[..i], env)
        invariant notified == NotifiedAfter(old(notified), ctx, ids[..i], env)
      {
        DispatchStep(old(failures), old(reviews), old(notified), ctx, ids, i, env);
        var ok, escaped := SendReviewBatch(ctx, ids[i], env(ids[i]));
        anyEscaped := anyEscaped || escaped;
        if ok {
          successCount := successCount + 1;
        } else {
          failCount := failCount + 1;
        }
        i := i + 1;
      }
      assert ids[..|ids|] == ids;
      if anyEscaped {
        return WaitFailed;
      }
      if failCount > 0 {
        return SomeFailed(successCount, failCount);
      }
      return AllSent(successCount);
    }

    /** The AI enrichment after a single-user send: MAX_RETRIES attempts, all
        of them made even after a success; each successful AI call replaces
        the text, marks the review sent and writes it. */
    method EnrichWithAi(review: Review, attempt: nat -> Attempt) returns (calls: nat)
      modifies this
      ensures calls == MaxRetries
      ensures var last := LastEnriched(review, attempt, MaxRetries);
        reviews == (if last.Some? then old(reviews)[(review.userId, review.monthYear) := Readable(last.value)]
                   else old(reviews))
      ensures failures == old(failures) && notified == old(notified)
    {
      var current := review;
      var n := 0;
      calls := 0;
      while n < MaxRetries
        invariant 0 <= n <= MaxRetries
        invariant calls == n
        invariant current == Enriched(review, attempt, n)
        invariant current.userId == review.userId && current.monthYear == review.monthYear
        invariant var last := LastEnriched(review, attempt, n);
          reviews == (if last.Some? then old(reviews)[(review.userId, review.monthYear) := Readable(last.value)]
                     else old(reviews))
        invariant failures == old(failures) && notified == old(notified)
      {
        var a := attempt(n);
        n := n + 1;
        calls := calls + 1;
        if a.ai.AiOk? {
          current := current.(messageContent := Some(a.ai.text));
          current := current.(messageSent := true);
          if a.saveOk {
            reviews := reviews[(current.userId, current.monthYear) := Readable(current)];
          }
        }
      }
    }

    /** sendUserReviewMessage: compute the review from the repositories and
        the stored previous month, write it with the fallback text and
        messageSent false, notify, then run the enrichment. */
    method SendUserReviewMessage(userId: Option<int>, monthYear: string, src: Sources, eff: SendEffects)
      returns (error: Option<DispatchError>)
      modifies this
      ensures error.None? <==> SendSucceeds(userId, monthYear, src, eff)
      ensures failures == old(failures)
      ensures userId.Some? && ParseMonthYear(monthYear).Some? && userId.value in src.nicknames && eff.saveOk ==>
        var fb := Fallback(SingleSnapshot(userId.value, monthYear, src, old(reviews)).value);
        var last := LastEnriched(fb, eff.attempt, MaxRetries);
        && (eff.notifyOk ==> reviews == old(reviews)[(userId.value, monthYear) :=
              Readable(if last.Some? then last.value else fb)])
        && (!eff.notifyOk ==> reviews == old(reviews)[(userId.value, monthYear) := Readable(fb)])
      ensures !(userId.Some? && ParseMonthYear(monthYear).Some? && userId.value in src.nicknames && eff.saveOk) ==>
        reviews == old(reviews)
      ensures notified == (if SendSucceeds(userId, monthYear, src, eff) then old(notified) + [userId.value]
                          else old(notified))
    {
      if userId.None? {
        return Some(MissingUserId);
      }
      var computed := ComposeSend(userId.value, monthYear, src, reviews);
      if computed.Err? {
        return Some(computed.error);
      }
      error := StoreAndEnrich(computed.value, eff);
    }

    /** The writes of sendUserReviewMessage once the review is computed:
        save it, notify, then run the enrichment over the saved review. */
    method StoreAndEnrich(review: Review, eff: SendEffects) returns (error: Option<DispatchError>)
      modifies this
      ensures error.None? <==> eff.saveOk && eff.notifyOk
      ensures error.Some? ==> error == Some(if !eff.saveOk then SaveFailed else NotifyFailed)
      ensures failures == old(failures)
      ensures var key := (review.userId, review.monthYear);
        var last := LastEnriched(review, eff.attempt, MaxRetries);
        && (eff.saveOk && eff.notifyOk ==>
              reviews == old(reviews)[key := Readable(if last.Some? then last.value else review)])
        && (eff.saveOk && !eff.notifyOk ==> reviews == old(reviews)[key := Readable(review)])
        && (!eff.saveOk ==> reviews == old(reviews))
      ensures notified == (if eff.saveOk && eff.notifyOk then old(notified) + [review.userId] else old(notified))
    {
      var key := (review.userId, review.monthYear);
      if !eff.saveOk {
        return Some(SaveFailed);
      }
      reviews := reviews[key := Readable(review)];
      if !eff.notifyOk {
        return Some(NotifyFailed);
      }
      notified := notified + [review.userId];
      ghost var saved := reviews;
      var _ := EnrichWithAi(review, eff.attempt);
      ghost var last := LastEnriched(review, eff.attempt, MaxRetries);
      if last.Some? {
        MapOverwrite(old(reviews), key, Readable(review), Readable(last.value));
      }
      error := None;
    }

    /** retryFailedMessages: re-send every user the store lists as failed
        for the target month, dropping the failure record of each re-send
        that succeeds. The listing (getFailedUserIds of the store) is passed
        in as `failedUserIds`. */
    method RetryFailedMessages(monthYear: Option<string>, today: Date, failedUserIds: seq<int>,
                               src: Sources, env: int -> SendEffects)
      returns (retrySuccess: nat, retryFail: nat)
      requires 1 <= today.month <= 12
      modifies this
      ensures var month := TargetMonth(monthYear, today);
        && retrySuccess + retryFail == |failedUserIds|
        && retrySuccess == RetrySuccesses(failedUserIds, month, src, env)
        && failures == old(failures) - Resent(failedUserIds, month, src, env)
        && (forall u :: (u, month) in failures <==>
              (u, month) in old(failures) && !(u in failedUserIds && Resends(u, month, src, env(u))))
        && (forall k: (int, string) :: k.1 != month ==> (k in failures <==> k in old(failures)))
        && reviews == RetryReviewsAfter(old(reviews), failedUserIds, month, src, env)
        && notified == RetryNotifiedAfter(old(notified), failedUserIds, month, src, env)
    {
      var month := TargetMonth(monthYear, today);
      if failedUserIds == [] {
        assert Resent(failedUserIds, month, src, env) == {};
        assert old(failures) - {} == old(failures);
        return 0, 0;
      }
      retrySuccess, retryFail := RetryAll(month, failedUserIds, src, env);
    }

    /** The retry loop for one target month. */
    method RetryAll(month: string, failedUserIds: seq<int>, src: Sources, env: int -> SendEffects)
      returns (retrySuccess: nat, retryFail: nat)
      modifies this
      ensures retrySuccess + retryFail == |failedUserIds|
      ensures retrySuccess == RetrySuccesses(failedUserIds, month, src, env)
      ensures failures == old(failures) - Resent(failedUserIds, month, src, env)
      ensures forall u :: (u, month) in failures <==>
        (u, month) in old(failures) && !(u in failedUserIds && Resends(u, month, src, env(u)))
      ensures forall k: (int, string) :: k.1 != month ==> (k in failures <==> k in old(failures))
      ensures reviews == RetryReviewsAfter(old(reviews), failedUserIds, month, src, env)
      ensures notified == RetryNotifiedAfter(old(notified), failedUserIds, month, src, env)
    {
      retrySuccess, retryFail := 0, 0;
      var i := 0;
      assert Resent(failedUserIds[..0], month, src, env) == {};
      assert failures - {} == failures;
      while i < |failedUserIds|
        invariant 0 <= i <= |failedUserIds|
        invariant retrySuccess + retryFail == i
        invariant retrySuccess == RetrySuccesses(failedUserIds[..i], month, src, env)
        invariant failures == old(failures) - Resent(failedUserIds[..i], month, src, env)
        invariant reviews == RetryReviewsAfter(old(reviews), failedUserIds[..i], month, src, env)
        invariant notified == RetryNotifiedAfter(old(notified), failedUserIds[..i], month, src, env)
      {
        RetryStep(old(reviews), old(notified), failedUserIds, i, month, src, env);
        ghost var removed := Resent(failedUserIds[..i], month, src, env);
        var ok := RetryOne(failedUserIds[i], month, src, env(failedUserIds[i]));
        MapRemoveMore(old(failures), removed, if ok then {(failedUserIds[i], month)} else {});
        if ok {
          retrySuccess := retrySuccess + 1;
        } else {
          retryFail := retryFail + 1;
        }
        i := i + 1;
      }
      assert failedUserIds[..|failedUserIds|] == failedUserIds;
      ResentKeys(old(failures), failedUserIds, month, src, env);
    }

    /** One re-send: it counts as a success, and its failure record goes,
        only when the send and then the removal both go through; the review
        and notification writes are those of the send. */
    method RetryOne(u: int, month: string, src: Sources, eff: SendEffects) returns (ok: bool)
      modifies this
      ensures ok == Resends(u, month, src, eff)
      ensures failures == if ok then old(failures) - {(u, month)} else old(failures)
      ensures reviews == SentReviews(old(reviews), u, month, src, eff)
      ensures notified == if SendSucceeds(Some(u), month, src, eff) then old(notified) + [u] else old(notified)
    {
      var error := SendUserReviewMessage(Some(u), month, src, eff);
      ok := false;
      if error.None? && eff.removeOk {
        failures := failures - {(u, month)};
        ok := true;
      }
    }

    /** getFailedMessageCount: the failure records of `monthYear`, or of the
        current month when none is given. */
    function FailedMessageCount(monthYear: Option<string>, today: Date): (n: nat)
      requires 1 <= today.month <= 12
      reads this
      ensures n == 0 <==> forall k :: k in failures ==> k.1 != CountMonth(monthYear, today)
    {
      var month := CountMonth(monthYear, today);
      var keys := set k | k in failures && k.1 == month;
      assert forall k :: k in failures && k.1 == month ==> k in keys;
      |keys|
    }
  }

  /** The month getFailedMessageCount reads: the current month by default,
      unlike the batch and the retry pass, which default to the previous one. */
  function CountMonth(monthYear: Option<string>, today: Date): string
    requires 1 <= today.month <= 12
  {
    match monthYear
    case Some(m) => m
    case None => CurrentMonthString(today)
  }

  /** The retry pass also runs when called without a month and the
      default month of the count is not the one it retries. */
  lemma DefaultMonthsDiffer(today: Date)
    requires 1 <= today.month <= 12 && 1 <= today.year <= MaxYear
    requires today.year > 1 || today.month > 1
    ensures TargetMonth(None, today) != CountMonth(None, today)
  {
    var ym := YearMonth(today.year, today.month);
    FormatParseRoundTrip(ym);
    PreviousMonthRoundTrip(ym);
    assert PreviousMonthOf(ym) != ym;
  }

  const MaxRetries: nat := 3

  /** The in-memory review after `n` enrichment attempts. */
  function Enriched(review: Review, attempt: nat -> Attempt, n: nat): (r: Review)
    ensures r.userId == review.userId && r.monthYear == review.monthYear
  {
    if n == 0 then review
    else
      var prev := Enriched(review, attempt, n - 1);
      var a := attempt(n - 1);
      if a.ai.AiOk? then prev.(messageContent := Some(a.ai.text), messageSent := true) else prev
  }

  /** The review the last successful write of the first `n` attempts stored. */
  function LastEnriched(review: Review, attempt: nat -> Attempt, n: nat): Option<Review> {
    if n == 0 then None
    else
      var a := attempt(n - 1);
      if a.ai.AiOk? && a.saveOk then Some(Enriched(review, attempt, n))
      else LastEnriched(review, attempt, n - 1)
  }

  /** Attempt `k` is the last of the first `n` whose AI call and write both
      succeeded, and the stored review carries its text, marked sent. */
  predicate LatestSuccess(review: Review, attempt: nat -> Attempt, n: nat, k: nat)
    requires LastEnriched(review, attempt, n).Some?
  {
    && k < n
    && attempt(k).ai.AiOk? && attempt(k).saveOk
    && LastEnriched(review, attempt, n).value.messageContent == Some(attempt(k).ai.text)
    && LastEnriched(review, attempt, n).value.messageSent
    && (forall j :: k < j < n ==> !(attempt(j).ai.AiOk? && attempt(j).saveOk))
  }

  /** A stored enrichment carries the text of the latest attempt whose AI
      call and write both succeeded, and is marked sent. */
  lemma {:induction false} LastEnrichedIsLatestSuccess(review: Review, attempt: nat -> Attempt, n: nat)
    requires LastEnriched(review, attempt, n).Some?
    ensures exists k :: 0 <= k < n && LatestSuccess(review, attempt, n, k)
  {
    var a := attempt(n - 1);
    if !(a.ai.AiOk? && a.saveOk) {
      LastEnrichedIsLatestSuccess(review, attempt, n - 1);
      var k :| 0 <= k < n - 1 && LatestSuccess(review, attempt, n - 1, k);
      assert LatestSuccess(review, attempt, n, k);
    } else {
      assert LatestSuccess(review, attempt, n, n - 1);
    }
  }

  /** No attempt whose AI call and write both succeed: nothing is written
      and the fallback stays. */
  lemma {:induction false} NoSuccessKeepsFallback(review: Review, attempt: nat -> Attempt, n: nat)
    requires forall k :: 0 <= k < n ==> !(attempt(k).ai.AiOk? && attempt(k).saveOk)
    ensures LastEnriched(review, attempt, n).None?
  {
    if n > 0 {
      NoSuccessKeepsFallback(review, attempt, n - 1);
    }
  }

  /** A second write to a key replaces the first. */
  lemma MapOverwrite<K, V>(m: map<K, V>, k: K, a: V, b: V)
    ensures m[k := a][k := b] == m[k := b]
  {
  }

  /** The review sendUserReviewMessage writes first: the fallback text,
      messageSent false. */
  function Fallback(review: Review): Review {
    review.(messageContent := Some(FallbackMessage(review)), messageSent := false)
  }

  /** The review sendUserReviewMessage writes first: the snapshot with
      the fallback text, not yet marked sent. */
  method ComposeSend(userId: int, monthYear: string, src: Sources,
                     reviews: map<(int, string), StoredReview>)
    returns (r: Result<Review, DispatchError>)
    ensures r.Ok? <==> ParseMonthYear(monthYear).Some? && userId in src.nicknames
    ensures r.Ok? ==> (r.value == Fallback(SingleSnapshot(userId, monthYear, src, reviews).value)
                       && r.value.userId == userId && r.value.monthYear == monthYear)
    ensures r.Err? ==> r.error.CalcFailed?
  {
    var computed := CalculateMonthlyReview(userId, monthYear, src, reviews);
    if computed.Err? {
      return Err(CalcFailed(computed.error));
    }
    var fallback := GenerateReviewMessage(computed.value);
    return Ok(computed.value.(messageContent := Some(fallback), messageSent := false));
  }

  /** Whether a single-user send returns normally. The enrichment runs after
      the send has succeeded and never changes that verdict. */
  predicate SendSucceeds(userId: Option<int>, monthYear: string, src: Sources, eff: SendEffects) {
    userId.Some? && ParseMonthYear(monthYear).Some? && userId.value in src.nicknames
    && eff.saveOk && eff.notifyOk
  }

  /** Whether a re-send of the retry pass succeeds: the send returns and
      the removal of the user's failure record goes through. */
  predicate Resends(u: int, month: string, src: Sources, eff: SendEffects) {
    SendSucceeds(Some(u), month, src, eff) && eff.removeOk
  }

  /** How many re-sends of the retry pass succeed. */
  function RetrySuccesses(userIds: seq<int>, month: string, src: Sources, env: int -> SendEffects): (n: nat)
    ensures n <= |userIds|
  {
    if userIds == [] then 0
    else
      var u := userIds[|userIds| - 1];
      RetrySuccesses(userIds[..|userIds| - 1], month, src, env)
      + (if Resends(u, month, src, env(u)) then 1 else 0)
  }

  /** The review records after one single-user send of `userId`: nothing
      when the review cannot be computed or its first write fails; else the
      fallback, replaced by the last stored enrichment once the notification
      went out. */
  function SentReviews(reviews: map<(int, string), StoredReview>, userId: int, month: string,
                       src: Sources, eff: SendEffects): map<(int, string), StoredReview>
  {
    if ParseMonthYear(month).Some? && userId in src.nicknames && eff.saveOk then
      var fb := Fallback(SingleSnapshot(userId, month, src, reviews).value);
      var last := LastEnriched(fb, eff.attempt, MaxRetries);
      reviews[(userId, month) := Readable(if eff.notifyOk && last.Some? then last.value else fb)]
    else reviews
  }

  /** The failure records the retry pass removes: those of its users whose
      re-send succeeds. */
  function Resent(userIds: seq<int>, month: string, src: Sources, env: int -> SendEffects): set<(int, string)>
  {
    set u | u in userIds && Resends(u, month, src, env(u)) :: (u, month)
  }

  /** The review records after re-sending `userIds` in order. */
  function RetryReviewsAfter(reviews: map<(int, string), StoredReview>, userIds: seq<int>, month: string,
                             src: Sources, env: int -> SendEffects): map<(int, string), StoredReview>
  {
    if userIds == [] then reviews
    else
      var u := userIds[|userIds| - 1];
      SentReviews(RetryReviewsAfter(reviews, userIds[..|userIds| - 1], month, src, env), u, month, src, env(u))
  }

  /** The notifications after re-sending `userIds` in order. */
  function RetryNotifiedAfter(notified: seq<int>, userIds: seq<int>, month: string,
                              src: Sources, env: int -> SendEffects): seq<int>
  {
    if userIds == [] then notified
    else
      var u := userIds[|userIds| - 1];
      var n := RetryNotifiedAfter(notified, userIds[..|userIds| - 1], month, src, env);
      if SendSucceeds(Some(u), month, src, env(u)) then n + [u] else n
  }

  /** Re-sending one more user extends each record by that user's send. */
  lemma RetryStep(reviews: map<(int, string), StoredReview>, notified: seq<int>, userIds: seq<int>, i: nat,
                  month: string, src: Sources, env: int -> SendEffects)
    requires i < |userIds|
    ensures var u := userIds[i];
      var ok := Resends(u, month, src, env(u));
      var sent := SendSucceeds(Some(u), month, src, env(u));
      && RetrySuccesses(userIds[..i + 1], month, src, env)
         == RetrySuccesses(userIds[..i], month, src, env) + (if ok then 1 else 0)
      && Resent(userIds[..i + 1], month, src, env)
         == Resent(userIds[..i], month, src, env) + (if ok then {(u, month)} else {})
      && RetryReviewsAfter(reviews, userIds[..i + 1], month, src, env)
         == SentReviews(RetryReviewsAfter(reviews, userIds[..i], month, src, env), u, month, src, env(u))
      && RetryNotifiedAfter(notified, userIds[..i + 1], month, src, env)
         == (if sent then RetryNotifiedAfter(notified, userIds[..i], month, src, env) + [u]
             else RetryNotifiedAfter(notified, userIds[..i], month, src, env))
  {
    assert userIds[..i + 1][..i] == userIds[..i];
    assert forall x :: x in userIds[..i + 1] <==> x in userIds[..i] || x == userIds[i];
  }

  /** Removing two sets of keys one after the other removes their union. */
  lemma MapRemoveMore<K, V>(m: map<K, V>, a: set<K>, b: set<K>)
    ensures (m - a) - b == m - (a + b)
  {
  }

  /** Taking away the re-sent records leaves exactly the records of the
      target month whose user was not re-sent successfully, and every other
      month's records. */
  lemma ResentKeys(failures: map<(int, string), DispatchError>, userIds: seq<int>, month: string,
                   src: Sources, env: int -> SendEffects)
    ensures forall u :: (u, month) in failures - Resent(userIds, month, src, env) <==>
      (u, month) in failures && !(u in userIds && Resends(u, month, src, env(u)))
    ensures forall k: (int, string) :: k.1 != month ==>
      (k in failures - Resent(userIds, month, src, env) <==> k in failures)
  {
  }

  /** The retry pass writes only review records of its own users for the
      target month; every other record keeps its value. */
  lemma {:induction false} RetryKeepsOtherReviews(reviews: map<(int, string), StoredReview>, userIds: seq<int>,
                                                  month: string, src: Sources, env: int -> SendEffects,
                                                  k: (int, string))
    requires k.1 != month || k.0 !in userIds
    ensures (k in RetryReviewsAfter(reviews, userIds, month, src, env)) == (k in reviews)
    ensures k in reviews ==> RetryReviewsAfter(reviews, userIds, month, src, env)[k] == reviews[k]
  {
    if userIds != [] {
      assert k.0 in userIds[..|userIds| - 1] ==> k.0 in userIds;
      RetryKeepsOtherReviews(reviews, userIds[..|userIds| - 1], month, src, env, k);
    }
  }
}
