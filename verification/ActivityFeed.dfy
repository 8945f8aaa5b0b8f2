/**
 The activity feed of an event (apps/api/app/observability/activity.py:24-136): the newest rows of
 four sources, merged, sorted and truncated, compared with sorting every row.
 */
module ActivityFeed {
  import opened Sorting

  datatype Row =
    | ActionRow(id: string, executedAt: int, status: string)
    | ApprovalRow(id: string, createdAt: int, decidedAt: int, decided: bool, status: string)
    | TransitionRow(id: string, transitionedAt: int)
    | VerificationRow(id: string, verifiedAt: int, status: string)

  datatype Activity = Activity(id: string, at: int, category: string, status: string)

  /** The four sources, restricted to one event. */
  datatype Sources = Sources(actions: seq<Row>, approvals: seq<Row>, transitions: seq<Row>, verifications: seq<Row>)

  /** The column a source's query is ordered by. */
  function QueriedAt(r: Row): int {
    match r
    case ActionRow(_, at, _) => at
    case ApprovalRow(_, createdAt, _, _, _) => createdAt
    case TransitionRow(_, at) => at
    case VerificationRow(_, at, _) => at
  }

  /** The time a row is shown under: an approval moves to its decision. */
  function ShownAt(r: Row): int {
    if r.ApprovalRow? && r.decided then r.decidedAt else QueriedAt(r)
  }

  function ActivityOf(r: Row): (a: Activity)
    ensures a.at == ShownAt(r)
  {
    match r
    case ActionRow(id, at, status) => Activity("act-" + id, at, "ACTION", status)
    case ApprovalRow(id, createdAt, decidedAt, decided, status) =>
      Activity("app-" + id, if decided then decidedAt else createdAt, "APPROVAL", status)
    case TransitionRow(id, at) => Activity("trans-" + id, at, "STATE_TRANSITION", "COMPLETED")
    case VerificationRow(id, at, status) => Activity("ver-" + id, at, "VERIFICATION", status)
  }

  // ---------------------------------------------------------------------------
  // The feed
  // ---------------------------------------------------------------------------

  function Activities(rows: seq<Row>): (s: seq<Activity>)
    ensures |s| == |rows| && forall i :: 0 <= i < |s| ==> s[i] == ActivityOf(rows[i])
  {
    seq(|rows|, i requires 0 <= i < |rows| => ActivityOf(rows[i]))
  }

  /** What a source's query returns. */
  function Fetched(rows: seq<Row>, limit: nat): seq<Row> {
    First(SortBy(QueriedAt, rows), limit)
  }

  function Omitted(rows: seq<Row>, limit: nat): seq<Row> {
    SortBy(QueriedAt, rows)[|Fetched(rows, limit)|..]
  }

  function AllFetched(s: Sources, limit: nat): seq<Row> {
    Fetched(s.actions, limit) + Fetched(s.approvals, limit) + Fetched(s.transitions, limit) + Fetched(s.verifications, limit)
  }

  function AllRows(s: Sources): seq<Row> {
    s.actions + s.approvals + s.transitions + s.verifications
  }

  function Time(a: Activity): int {
    a.at
  }

  function Feed(s: Sources, limit: nat): seq<Activity> {
    First(SortBy(Time, Activities(AllFetched(s, limit))), limit)
  }

  /** The simple form: every row of every source, sorted once. */
  function FullFeed(s: Sources, limit: nat): seq<Activity> {
    First(SortBy(Time, Activities(AllRows(s))), limit)
  }

  method AppendAll(activities: seq<Activity>, rows: seq<Row>) returns (r: seq<Activity>)
    ensures r == activities + Activities(rows)
  {
    r := activities;
    var i := 0;
    while i < |rows|
      invariant 0 <= i <= |rows|
      invariant r == activities + Activities(rows)[..i]
    {
      r := r + [ActivityOf(rows[i])];
      i := i + 1;
    }
  }

  method GetActivityFeed(s: Sources, limit: nat) returns (r: seq<Activity>)
    ensures r == Feed(s, limit)
  {
    hide Fetched, SortBy, First, Activities;
    var activities: seq<Activity> := [];
    activities := AppendAll(activities, Fetched(s.actions, limit));
    activities := AppendAll(activities, Fetched(s.approvals, limit));
    activities := AppendAll(activities, Fetched(s.transitions, limit));
    activities := AppendAll(activities, Fetched(s.verifications, limit));
    ActivitiesOfFour(Fetched(s.actions, limit), Fetched(s.approvals, limit), Fetched(s.transitions, limit), Fetched(s.verifications, limit));
    assert activities == Activities(AllFetched(s, limit));
    activities := SortBy(Time, activities);
    return First(activities, limit);
  }

  lemma ActivitiesOfFour(a: seq<Row>, b: seq<Row>, c: seq<Row>, d: seq<Row>)
    ensures Activities(a + b + c + d) == [] + Activities(a) + Activities(b) + Activities(c) + Activities(d)
  {
    hide ActivityOf;
  }

  // ---------------------------------------------------------------------------
  // Counting entries not older than a time
  // ---------------------------------------------------------------------------

  function Count<T>(key: T -> int, rows: seq<T>, time: int): (n: nat)
    ensures n <= |rows|
  {
    if rows == [] then 0
    else Count(key, rows[..|rows| - 1], time) + if key(rows[|rows| - 1]) >= time then 1 else 0
  }

  lemma {:induction false} CountConcat<T>(key: T -> int, a: seq<T>, b: seq<T>, time: int)
    ensures Count(key, a + b, time) == Count(key, a, time) + Count(key, b, time)
  {
    if b == [] {
      assert a + b == a;
    } else {
      assert (a + b)[..|a + b| - 1] == a + b[..|b| - 1];
      CountConcat(key, a, b[..|b| - 1], time);
    }
  }

  lemma CountOne<T>(key: T -> int, r: T, time: int)
    ensures Count(key, [r], time) == if key(r) >= time then 1 else 0
  {
    assert [r][..0] == [];
  }

  /** Sorting by one key moves rows about but loses none of them, whatever key they are counted by. */
  lemma {:induction false} InsertCounts<T>(key: T -> int, other: T -> int, rows: seq<T>, r: T, time: int)
    ensures |Insert(key, rows, r)| == |rows| + 1
    ensures Count(other, Insert(key, rows, r), time) == Count(other, rows, time) + if other(r) >= time then 1 else 0
  {
    CountOne(other, r, time);
    if rows == [] || key(rows[0]) < key(r) {
      CountConcat(other, [r], rows, time);
    } else {
      InsertCounts(key, other, rows[1..], r, time);
      assert rows == [rows[0]] + rows[1..];
      CountConcat(other, [rows[0]], rows[1..], time);
      CountConcat(other, [rows[0]], Insert(key, rows[1..], r), time);
    }
  }

  lemma {:induction false} SortCounts<T>(key: T -> int, other: T -> int, rows: seq<T>, time: int)
    ensures |SortBy(key, rows)| == |rows|
    ensures Count(other, SortBy(key, rows), time) == Count(other, rows, time)
  {
    if rows != [] {
      SortCounts(key, other, rows[..|rows| - 1], time);
      InsertCounts(key, other, SortBy(key, rows[..|rows| - 1]), rows[|rows| - 1], time);
    }
  }

  /** In a sorted list the entries not older than a time come first. */
  lemma {:induction false} CountIsPrefix<T>(key: T -> int, rows: seq<T>, time: int)
    requires Descending(key, rows)
    ensures forall i :: 0 <= i < |rows| ==> (key(rows[i]) >= time <==> i < Count(key, rows, time))
  {
    if rows != [] {
      CountIsPrefix(key, rows[..|rows| - 1], time);
    }
  }

  lemma {:induction false} FirstCounts<T>(key: T -> int, rows: seq<T>, limit: nat, time: int)
    requires Descending(key, rows)
    ensures Count(key, First(rows, limit), time) == if Count(key, rows, time) < limit then Count(key, rows, time) else limit
    decreases |rows|
  {
    if |rows| > limit {
      var n := |rows| - 1;
      FirstCounts(key, rows[..n], limit, time);
      assert First(rows[..n], limit) == First(rows, limit);
      CountIsPrefix(key, rows, time);
    }
  }

  /** Times listed newest first are determined by how many are not older than each time. */
  lemma {:induction false} CountsDetermineTimes(a: seq<Activity>, b: seq<Activity>)
    requires Descending(Time, a) && Descending(Time, b) && |a| == |b|
    requires forall time :: Count(Time, a, time) == Count(Time, b, time)
    ensures Times(a) == Times(b)
  {
    forall i | 0 <= i < |a| ensures a[i].at == b[i].at {
      CountIsPrefix(Time, a, a[i].at);
      CountIsPrefix(Time, b, a[i].at);
      CountIsPrefix(Time, a, b[i].at);
      CountIsPrefix(Time, b, b[i].at);
      assert Time(a[i]) == a[i].at && Time(b[i]) == b[i].at;
    }
  }

  function Times(feed: seq<Activity>): (t: seq<int>)
    ensures |t| == |feed| && forall i :: 0 <= i < |t| ==> t[i] == feed[i].at
  {
    seq(|feed|, i requires 0 <= i < |feed| => feed[i].at)
  }

  lemma {:induction false} CountBounds<T>(key: T -> int, rows: seq<T>, time: int)
    ensures (exists r :: r in rows && key(r) >= time) <==> Count(key, rows, time) > 0
    ensures (forall r :: r in rows ==> key(r) >= time) <==> Count(key, rows, time) == |rows|
  {
    if rows != [] {
      var n := |rows| - 1;
      assert rows == rows[..n] + [rows[n]];
      CountBounds(key, rows[..n], time);
    }
  }

  lemma {:induction false} SameTimesSameCounts(a: seq<Activity>, b: seq<Activity>, time: int)
    requires Times(a) == Times(b)
    ensures Count(Time, a, time) == Count(Time, b, time)
    decreases |a|
  {
    if a != [] {
      var n := |a| - 1;
      assert Times(a)[n] == Times(b)[n];
      assert Times(a[..n]) == Times(a)[..n] && Times(b[..n]) == Times(b)[..n];
      SameTimesSameCounts(a[..n], b[..n], time);
    } else {
      assert |Times(b)| == 0;
    }
  }

  lemma {:induction false} ActivitiesCount(rows: seq<Row>, time: int)
    ensures Count(Time, Activities(rows), time) == Count(ShownAt, rows, time)
  {
    if rows != [] {
      var n := |rows| - 1;
      assert Activities(rows)[..n] == Activities(rows[..n]);
      ActivitiesCount(rows[..n], time);
    }
  }

  // ---------------------------------------------------------------------------
  // Merging the newest of each source, against sorting everything
  // ---------------------------------------------------------------------------

  function AllOmitted(s: Sources, limit: nat): seq<Row> {
    Omitted(s.actions, limit) + Omitted(s.approvals, limit) + Omitted(s.transitions, limit) + Omitted(s.verifications, limit)
  }

  /** A source's rows are those fetched and those omitted; rows are omitted only when the query is full. */
  lemma FetchedAndOmitted(rows: seq<Row>, limit: nat, time: int)
    ensures Count(ShownAt, rows, time) == Count(ShownAt, Fetched(rows, limit), time) + Count(ShownAt, Omitted(rows, limit), time)
    ensures |rows| == |Fetched(rows, limit)| + |Omitted(rows, limit)|
    ensures Omitted(rows, limit) != [] ==> |Fetched(rows, limit)| == limit
  {
    SortCounts(QueriedAt, ShownAt, rows, time);
    var sorted := SortBy(QueriedAt, rows);
    assert sorted == Fetched(rows, limit) + Omitted(rows, limit);
    CountConcat(ShownAt, Fetched(rows, limit), Omitted(rows, limit), time);
  }

  lemma CountFour(a: seq<Row>, b: seq<Row>, c: seq<Row>, d: seq<Row>, time: int)
    ensures Count(ShownAt, a + b + c + d, time)
         == Count(ShownAt, a, time) + Count(ShownAt, b, time) + Count(ShownAt, c, time) + Count(ShownAt, d, time)
  {
    CountConcat(ShownAt, a + b + c, d, time);
    CountConcat(ShownAt, a + b, c, time);
    CountConcat(ShownAt, a, b, time);
  }

  lemma RowsSplit(s: Sources, limit: nat, time: int)
    ensures Count(ShownAt, AllRows(s), time) == Count(ShownAt, AllFetched(s, limit), time) + Count(ShownAt, AllOmitted(s, limit), time)
    ensures |AllRows(s)| == |AllFetched(s, limit)| + |AllOmitted(s, limit)|
    ensures AllOmitted(s, limit) != [] ==> |AllFetched(s, limit)| >= limit
  {
    hide Count, ShownAt, Fetched, Omitted;
    FetchedAndOmitted(s.actions, limit, time);
    FetchedAndOmitted(s.approvals, limit, time);
    FetchedAndOmitted(s.transitions, limit, time);
    FetchedAndOmitted(s.verifications, limit, time);
    CountFour(s.actions, s.approvals, s.transitions, s.verifications, time);
    CountFour(Fetched(s.actions, limit), Fetched(s.approvals, limit), Fetched(s.transitions, limit), Fetched(s.verifications, limit), time);
    CountFour(Omitted(s.actions, limit), Omitted(s.approvals, limit), Omitted(s.transitions, limit), Omitted(s.verifications, limit), time);
  }

  /** Sorted and truncated rows show, of the times not older than any given one, as many as there are up to the limit. */
  lemma ShownCounts(rows: seq<Row>, limit: nat, time: int)
    ensures var shown := First(SortBy(Time, Activities(rows)), limit);
            && Descending(Time, shown)
            && |shown| == (if |rows| < limit then |rows| else limit)
            && Count(Time, shown, time)
               == (if Count(ShownAt, rows, time) < limit then Count(ShownAt, rows, time) else limit)
  {
    var activities := Activities(rows);
    ActivitiesCount(rows, time);
    SortCounts(Time, Time, activities, time);
    SortSorts(Time, activities);
    FirstCounts(Time, SortBy(Time, activities), limit, time);
  }

  /** Every row left out by the queries has `limit` fetched rows that are shown no earlier. */
  ghost predicate NothingNewerOmitted(s: Sources, limit: nat) {
    forall r :: r in AllOmitted(s, limit) ==> Count(ShownAt, AllFetched(s, limit), ShownAt(r)) >= limit
  }

  lemma {:induction false} EarlierCountsMore<T>(key: T -> int, rows: seq<T>, earlier: int, later: int)
    requires earlier <= later
    ensures Count(key, rows, earlier) >= Count(key, rows, later)
  {
    if rows != [] {
      EarlierCountsMore(key, rows[..|rows| - 1], earlier, later);
    }
  }

  lemma SameCountsWhenNothingNewer(s: Sources, limit: nat, time: int)
    requires NothingNewerOmitted(s, limit)
    ensures Count(Time, Feed(s, limit), time) == Count(Time, FullFeed(s, limit), time)
    ensures |Feed(s, limit)| == |FullFeed(s, limit)|
  {
    hide SortBy, First, Fetched, Omitted, ShownAt;
    RowsSplit(s, limit, time);
    ShownCounts(AllFetched(s, limit), limit, time);
    ShownCounts(AllRows(s), limit, time);
    CountBounds(ShownAt, AllOmitted(s, limit), time);
    if Count(ShownAt, AllOmitted(s, limit), time) > 0 {
      var r :| r in AllOmitted(s, limit) && ShownAt(r) >= time;
      EarlierCountsMore(ShownAt, AllFetched(s, limit), time, ShownAt(r));
    }
  }

  /**
   The merged feed shows the times that sorting everything would show exactly when every row left out by
   the queries has `limit` fetched rows shown no earlier.
   */
  lemma FeedIsFullFeedIff(s: Sources, limit: nat)
    ensures Times(Feed(s, limit)) == Times(FullFeed(s, limit)) <==> NothingNewerOmitted(s, limit)
  {
    hide Feed, FullFeed, AllOmitted, AllFetched, ShownAt;
    ShownIsSorted(s, limit);
    if NothingNewerOmitted(s, limit) {
      forall time ensures Count(Time, Feed(s, limit), time) == Count(Time, FullFeed(s, limit), time) {
        SameCountsWhenNothingNewer(s, limit, time);
      }
      SameCountsWhenNothingNewer(s, limit, 0);
      CountsDetermineTimes(Feed(s, limit), FullFeed(s, limit));
    } else {
      var r :| r in AllOmitted(s, limit) && Count(ShownAt, AllFetched(s, limit), ShownAt(r)) < limit;
      NewerOmittedShows(s, limit, r);
    }
  }

  lemma ShownIsSorted(s: Sources, limit: nat)
    ensures Descending(Time, Feed(s, limit)) && Descending(Time, FullFeed(s, limit))
  {
    ShownCounts(AllFetched(s, limit), limit, 0);
    ShownCounts(AllRows(s), limit, 0);
  }

  lemma NewerOmittedShows(s: Sources, limit: nat, r: Row)
    requires r in AllOmitted(s, limit) && Count(ShownAt, AllFetched(s, limit), ShownAt(r)) < limit
    ensures Times(Feed(s, limit)) != Times(FullFeed(s, limit))
  {
    hide SortBy, First, Fetched, Omitted, ShownAt;
    var feed, full, time := Feed(s, limit), FullFeed(s, limit), ShownAt(r);
    RowsSplit(s, limit, time);
    ShownCounts(AllFetched(s, limit), limit, time);
    ShownCounts(AllRows(s), limit, time);
    CountBounds(ShownAt, AllOmitted(s, limit), time);
    assert Count(Time, feed, time) < Count(Time, full, time);
    if Times(feed) == Times(full) {
      SameTimesSameCounts(feed, full, time);
    }
  }

  /** In a full feed that is: no row left out is shown later than the last entry. */
  lemma NothingNewerThanLast(s: Sources, limit: nat)
    requires |Feed(s, limit)| == limit > 0
    ensures NothingNewerOmitted(s, limit)
            <==> forall r :: r in AllOmitted(s, limit) ==> ShownAt(r) <= Feed(s, limit)[limit - 1].at
  {
    hide SortBy, First, Fetched, Omitted, ShownAt;
    var feed := Feed(s, limit);
    forall r | r in AllOmitted(s, limit)
      ensures Count(ShownAt, AllFetched(s, limit), ShownAt(r)) >= limit <==> ShownAt(r) <= feed[limit - 1].at
    {
      ShownCounts(AllFetched(s, limit), limit, ShownAt(r));
      CountIsPrefix(Time, feed, ShownAt(r));
    }
  }

  /** Sources queried in the order they are shown in, as all are while no approval is decided, are always merged exactly. */
  lemma UndecidedFeedIsFullFeed(s: Sources, limit: nat)
    requires forall r :: r in AllRows(s) ==> ShownAt(r) == QueriedAt(r)
    ensures Times(Feed(s, limit)) == Times(FullFeed(s, limit))
  {
    forall r | r in AllOmitted(s, limit) ensures Count(ShownAt, AllFetched(s, limit), ShownAt(r)) >= limit {
      OmittedIsOlder(s, limit, r);
    }
    FeedIsFullFeedIff(s, limit);
  }

  /** An omitted row has `limit` rows of its own source before it, all fetched and none shown earlier. */
  lemma OmittedIsOlder(s: Sources, limit: nat, r: Row)
    requires forall x :: x in AllRows(s) ==> ShownAt(x) == QueriedAt(x)
    requires r in AllOmitted(s, limit)
    ensures Count(ShownAt, AllFetched(s, limit), ShownAt(r)) >= limit
  {
    hide ShownAt, QueriedAt, SortBy, First;
    var time := ShownAt(r);
    if r in Omitted(s.actions, limit) {
      SourceFillsLimit(s.actions, limit, r);
    } else if r in Omitted(s.approvals, limit) {
      SourceFillsLimit(s.approvals, limit, r);
    } else if r in Omitted(s.transitions, limit) {
      SourceFillsLimit(s.transitions, limit, r);
    } else {
      SourceFillsLimit(s.verifications, limit, r);
    }
    CountFour(Fetched(s.actions, limit), Fetched(s.approvals, limit), Fetched(s.transitions, limit), Fetched(s.verifications, limit), time);
  }

  lemma SourceFillsLimit(rows: seq<Row>, limit: nat, r: Row)
    requires (forall x :: x in rows ==> ShownAt(x) == QueriedAt(x)) && r in Omitted(rows, limit)
    ensures Count(ShownAt, Fetched(rows, limit), ShownAt(r)) == limit
  {
    hide ShownAt, QueriedAt;
    SortSorts(QueriedAt, rows);
    var sorted, fetched := SortBy(QueriedAt, rows), Fetched(rows, limit);
    var k :| 0 <= k < |Omitted(rows, limit)| && Omitted(rows, limit)[k] == r;
    assert sorted[|fetched| + k] == r && r in sorted;
    forall x | x in fetched ensures ShownAt(x) >= ShownAt(r) {
      var i :| 0 <= i < |fetched| && fetched[i] == x;
      assert sorted[i] == x && x in sorted;
    }
    CountBounds(ShownAt, fetched, ShownAt(r));
  }

  /** An approval requested long ago and decided just now is shown late but fetched early: the feed can miss it. */
  lemma DecidedApprovalIsMissed()
    ensures exists s: Sources, limit: nat :: Times(Feed(s, limit)) != Times(FullFeed(s, limit))
  {
    var early, late := ApprovalRow("old", 1, 9, true, "APPROVED"), ApprovalRow("new", 2, 0, false, "PENDING");
    var s := Sources([], [early, late], [], []);
    assert [early, late][..1] == [early];
    assert SortBy(QueriedAt, [early]) == [early];
    assert SortBy(QueriedAt, [early, late]) == [late, early];
    assert Omitted(s.approvals, 1) == [early] && early in AllOmitted(s, 1);
    assert AllFetched(s, 1) == [late];
    assert [late][..0] == [];
    assert Count(ShownAt, [late], ShownAt(early)) == 0;
    FeedIsFullFeedIff(s, 1);
  }

  /** The feed is newest first, and its entries are those of rows of the sources, each used no more often than it is there. */
  lemma FeedIsSelection(s: Sources, limit: nat)
    ensures Descending(Time, Feed(s, limit)) && |Feed(s, limit)| <= limit
    ensures multiset(Feed(s, limit)) <= multiset(Activities(AllFetched(s, limit)))
    ensures multiset(AllFetched(s, limit)) <= multiset(AllRows(s))
  {
    ShownIsSorted(s, limit);
    var activities := Activities(AllFetched(s, limit));
    SortKeepsRows(Time, activities);
    FirstIsPart(SortBy(Time, activities), limit);
    FetchedIsPart(s.actions, limit);
    FetchedIsPart(s.approvals, limit);
    FetchedIsPart(s.transitions, limit);
    FetchedIsPart(s.verifications, limit);
    hide First, SortBy, Fetched, Activities;
  }

  lemma FirstIsPart<T>(rows: seq<T>, limit: nat)
    ensures multiset(First(rows, limit)) <= multiset(rows) && |First(rows, limit)| <= limit
  {
    if |rows| > limit {
      assert rows == rows[..limit] + rows[limit..];
    }
  }

  lemma FetchedIsPart(rows: seq<Row>, limit: nat)
    ensures multiset(Fetched(rows, limit)) <= multiset(rows)
  {
    SortKeepsRows(QueriedAt, rows);
    FirstIsPart(SortBy(QueriedAt, rows), limit);
  }

  /** What an entry shows of its row: whose it is, when it happened, and how it stands. */
  predicate Shows(a: Activity, r: Row) {
    match r
    case ActionRow(id, executedAt, status) =>
      a.id == "act-" + id && a.category == "ACTION" && a.at == executedAt && a.status == status
    case ApprovalRow(id, createdAt, decidedAt, decided, status) =>
      a.id == "app-" + id && a.category == "APPROVAL" && a.at == (if decided then decidedAt else createdAt) && a.status == status
    case TransitionRow(id, transitionedAt) =>
      a.id == "trans-" + id && a.category == "STATE_TRANSITION" && a.at == transitionedAt && a.status == "COMPLETED"
    case VerificationRow(id, verifiedAt, status) =>
      a.id == "ver-" + id && a.category == "VERIFICATION" && a.at == verifiedAt && a.status == status
  }

  /** Every entry of the feed shows a row of one of the four sources. */
  lemma FeedShowsRows(s: Sources, limit: nat)
    ensures forall a :: a in Feed(s, limit) ==> exists r :: r in AllRows(s) && Shows(a, r)
  {
    var rows := AllFetched(s, limit);
    SortSorts(Time, Activities(rows));
    forall a | a in Feed(s, limit) ensures exists r :: r in AllRows(s) && Shows(a, r) {
      assert a in SortBy(Time, Activities(rows));
      var i :| 0 <= i < |rows| && Activities(rows)[i] == a;
      assert Shows(a, rows[i]);
      FetchedAreRows(s, limit, rows[i]);
    }
  }

  lemma FetchedAreRows(s: Sources, limit: nat, r: Row)
    requires r in AllFetched(s, limit)
    ensures r in AllRows(s)
  {
    SortSorts(QueriedAt, s.actions);
    SortSorts(QueriedAt, s.approvals);
    SortSorts(QueriedAt, s.transitions);
    SortSorts(QueriedAt, s.verifications);
    hide SortBy;
  }
}
