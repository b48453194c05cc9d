/** loadAllBatchData of ReviewServiceImpl: the query rows of the whole batch
    collected into the per-user maps the snapshot reads. Every map is built
    with Collectors.toMap, which throws on a repeated key and on a null
    value. */
module ReviewLoad {
  import opened Wrappers
  import opened Calendar
  import opened ReviewCalc

  /** Why the batch maps cannot be built. */
  datatype LoadError = DuplicateKey | NullValue

  predicate DistinctKeys<K(==), V>(rows: seq<(K, V)>) {
    forall i, j :: 0 <= i < j < |rows| ==> rows[i].0 != rows[j].0
  }

  /** Collectors.toMap over (key, value) rows: None as soon as a key repeats. */
  function ToMap<K(==), V>(rows: seq<(K, V)>): (r: Option<map<K, V>>)
    ensures r.Some? <==> DistinctKeys(rows)
    ensures r.Some? ==> forall i :: 0 <= i < |rows| ==> rows[i].0 in r.value && r.value[rows[i].0] == rows[i].1
    ensures r.Some? ==> forall k :: k in r.value ==> exists i :: 0 <= i < |rows| && rows[i].0 == k
  {
    if rows == [] then Some(map[])
    else
      var init := rows[..|rows| - 1];
      var last := rows[|rows| - 1];
      match ToMap(init)
      case None => None
      case Some(m) => if last.0 in m then None else Some(m[last.0 := last.1])
  }

  /** An activity-count row: user, activity kind, count. */
  datatype ActivityRow = ActivityRow(userId: int, kind: ActivityType, count: int)

  /** The (user, kind) key and count of each row. */
  function KeyedRows(rows: seq<ActivityRow>): (kr: seq<((int, ActivityType), int)>)
    ensures |kr| == |rows|
    ensures forall i :: 0 <= i < |rows| ==> kr[i] == ((rows[i].userId, rows[i].kind), rows[i].count)
  {
    seq(|rows|, i requires 0 <= i < |rows| => ((rows[i].userId, rows[i].kind), rows[i].count))
  }

  /** The flat (user, kind) map regrouped by user. */
  function Nest(flat: map<(int, ActivityType), int>): (m: map<int, map<ActivityType, int>>)
    ensures forall u, k :: (u, k) in flat ==> u in m && k in m[u] && m[u][k] == flat[(u, k)]
    ensures forall u, k :: u in m && k in m[u] ==> (u, k) in flat
  {
    var users := set p | p in flat :: p.0;
    map u | u in users :: (map k: ActivityType | (u, k) in flat :: flat[(u, k)])
  }

  /** groupingBy(user, toMap(kind, count)): None when a user's kind repeats. */
  function GroupActivityCounts(rows: seq<ActivityRow>): (r: Option<map<int, map<ActivityType, int>>>)
    ensures r.Some? <==> DistinctKeys(KeyedRows(rows))
    ensures r.Some? ==> forall i :: 0 <= i < |rows| ==>
      rows[i].userId in r.value && rows[i].kind in r.value[rows[i].userId]
      && r.value[rows[i].userId][rows[i].kind] == rows[i].count
    ensures r.Some? ==> forall u, k :: u in r.value && k in r.value[u] ==>
      exists i :: 0 <= i < |rows| && rows[i].userId == u && rows[i].kind == k
  {
    var kr := KeyedRows(rows);
    match ToMap(kr)
    case None => None
    case Some(flat) =>
      assert forall i :: 0 <= i < |rows| ==> kr[i].0 == (rows[i].userId, rows[i].kind);
      Some(Nest(flat))
  }

  /** The previous month's records of the batch users, as the store holds
      them (readable or not). */
  function PreviousRecords(reviews: map<(int, string), StoredReview>, userIds: seq<int>,
                           previousMonth: string): (p: map<int, StoredReview>)
    ensures forall u :: u in p <==> u in userIds && (u, previousMonth) in reviews
  {
    map u | u in userIds && (u, previousMonth) in reviews :: reviews[(u, previousMonth)]
  }

  /** The previous reviews as loadAllBatchData computes them: toMap with the
      parse result as value, which throws on the first unreadable record
      before the null-removing step is reached. */
  function PreviousReviewsAsWritten(records: map<int, StoredReview>): (r: Result<map<int, Review>, LoadError>)
    ensures r.Err? <==> exists u :: u in records && records[u].Corrupt?
    ensures r.Err? ==> r.error == NullValue
    ensures r.Ok? ==> r.value.Keys == records.Keys && forall u :: u in r.value ==> records[u] == Readable(r.value[u])
  {
    if exists u :: u in records && records[u].Corrupt? then Err(NullValue)
    else Ok(map u | u in records :: records[u].review)
  }

  /** The previous reviews as the removeIf step intends: the readable
      records, the unreadable ones dropped. */
  function PreviousReviews(records: map<int, StoredReview>): (r: map<int, Review>)
    ensures forall u :: u in r <==> u in records && records[u].Readable?
    ensures forall u :: u in r ==> records[u] == Readable(r[u])
  {
    map u | u in records && records[u].Readable? :: records[u].review
  }

  /** One unreadable previous record makes the as-written loader fail, and
      with it the whole batch, where the intended loader drops that record. */
  lemma CorruptRecordAbortsLoad()
    ensures PreviousReviewsAsWritten(map[7 := Corrupt]) == Err(NullValue)
    ensures PreviousReviews(map[7 := Corrupt]) == map[]
  {
    assert map[7 := Corrupt][7].Corrupt?;
  }

  /** When every record is readable the two loaders agree. */
  lemma LoadersAgreeWhenReadable(records: map<int, StoredReview>)
    requires forall u :: u in records ==> records[u].Readable?
    ensures PreviousReviewsAsWritten(records) == Ok(PreviousReviews(records))
  {
    var all := map u | u in records :: records[u].review;
    var readable := PreviousReviews(records);
    forall u ensures u in all <==> u in readable {
      if u in records { assert records[u].Readable?; }
    }
    assert all.Keys == readable.Keys;
    assert forall u :: u in all ==> all[u] == readable[u];
    assert !(exists u :: u in records && records[u].Corrupt?);
  }

  datatype BatchRows = BatchRows(
    activityRows: seq<ActivityRow>,
    scoreRows: seq<(int, int)>,
    groupRows: seq<(int, int)>)

  /** loadAllBatchData: the three grouped loads, then the previous reviews
      collected with toMap over the parse results, so one unreadable
      previous-month record of a batch user makes the whole load throw. */
  function LoadAllBatchData(rows: BatchRows, reviews: map<(int, string), StoredReview>,
                            userIds: seq<int>, targetMonth: string): (r: Result<BatchData, LoadError>)
    requires ParseMonthYear(targetMonth).Some?
    ensures r.Ok? <==>
      && DistinctKeys(KeyedRows(rows.activityRows)) && DistinctKeys(rows.scoreRows) && DistinctKeys(rows.groupRows)
      && (GetPreviousMonth(targetMonth).Some? ==>
            forall u :: u in userIds && (u, GetPreviousMonth(targetMonth).value) in reviews ==>
              reviews[(u, GetPreviousMonth(targetMonth).value)].Readable?)
    ensures (r.Err? && DistinctKeys(KeyedRows(rows.activityRows)) && DistinctKeys(rows.scoreRows)
             && DistinctKeys(rows.groupRows)) ==> r.error == NullValue
    ensures r.Ok? ==> forall u :: u in r.value.previousReviews <==>
      GetPreviousMonth(targetMonth).Some? && u in userIds
      && (u, GetPreviousMonth(targetMonth).value) in reviews
    ensures r.Ok? && GetPreviousMonth(targetMonth).Some? ==> forall u :: u in r.value.previousReviews ==>
      reviews[(u, GetPreviousMonth(targetMonth).value)] == Readable(r.value.previousReviews[u])
  {
    match GroupActivityCounts(rows.activityRows)
    case None => Err(DuplicateKey)
    case Some(counts) =>
      match ToMap(rows.scoreRows)
      case None => Err(DuplicateKey)
      case Some(scores) =>
        match ToMap(rows.groupRows)
        case None => Err(DuplicateKey)
        case Some(groups) =>
          // a null previous month names no stored review
          match GetPreviousMonth(targetMonth)
          case None => Ok(BatchData(counts, scores, groups, map[]))
          case Some(prev) =>
            match PreviousReviewsAsWritten(PreviousRecords(reviews, userIds, prev))
            case Err(e) => Err(e)
            case Ok(previous) => Ok(BatchData(counts, scores, groups, previous))
  }
}
