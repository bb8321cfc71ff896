/** The persistence layer as an abstract database: one map per table, keyed by the
    table's primary key, and an id counter per auto-increment table. `now` is the
    current time in seconds; the store's timestamp columns hold such values. */
module Store {
  import opened Wrappers
  import opened Models

  /** The unique key of a seen-marker: at most one row per (query, listing). */
  datatype SeenKey = SeenKey(queryId: int, listingId: string)

  datatype Database = Database(
    queries: map<int, Query>,
    nextQueryId: int,
    seen: map<SeenKey, ListingSeen>,
    notifications: map<int, Notification>,
    nextNotificationId: int,
    scans: map<int, Scan>,
    nextScanId: int)
  {
    /** Rows agree with their keys and every id is below its table's counter. */
    predicate Valid() {
      && (forall k :: k in seen ==> seen[k].queryId == k.queryId && seen[k].listingId == k.listingId)
      && (forall id :: id in queries ==> queries[id].id == id && id < nextQueryId)
      && (forall id :: id in notifications ==> id < nextNotificationId)
      && (forall id :: id in scans ==> id < nextScanId)
      && 1 <= nextQueryId && 1 <= nextNotificationId && 1 <= nextScanId
    }
  }

  const EmptyDatabase: Database := Database(map[], 1, map[], map[], 1, map[], 1)

  lemma EmptyDatabaseValid()
    ensures EmptyDatabase.Valid()
  {
  }

  /** A database after an operation, with the operation's return value. */
  datatype Stored<T> = Stored(db: Database, value: T)

  const SecondsPerDay: int := 86400
  const SecondsPerHour: int := 3600

  // ---------------------------------------------------------------------------
  // Queries
  // ---------------------------------------------------------------------------

  /** Inserts an enabled query with the next id and returns that id. */
  function AddQuery(
    db: Database, keyword: string, description: Option<string>,
    includeTerms: seq<string>, excludeTerms: seq<string>,
    minPrice: Option<real>, maxPrice: Option<real>,
    intervalMinutes: int, aiEnabled: bool, aiThreshold: real, now: int): (r: Stored<int>)
    requires db.Valid()
    ensures r.db.Valid()
    ensures r.value !in db.queries && r.db.queries.Keys == db.queries.Keys + {r.value}
    ensures var q := r.db.queries[r.value];
            && q.keyword == keyword && q.includeTerms == includeTerms && q.excludeTerms == excludeTerms
            && q.intervalMinutes == intervalMinutes && q.enabled && q.createdAt == now && q.updatedAt == now
    ensures forall id :: id in db.queries ==> r.db.queries[id] == db.queries[id]
    ensures r.db.seen == db.seen && r.db.scans == db.scans && r.db.notifications == db.notifications
  {
    var id := db.nextQueryId;
    var q := StoredQuery(id, keyword, description, includeTerms, excludeTerms, minPrice, maxPrice,
                         intervalMinutes, aiEnabled, aiThreshold, true, now, now);
    Stored(db.(queries := db.queries[id := q], nextQueryId := id + 1), id)
  }

  /** `add_query(keyword)` with every optional argument left out stores a query with no
      description, terms or price bounds, checked every 60 minutes, AI on at 0.7, enabled. */
  lemma AddQueryDefaults(db: Database, keyword: string, now: int)
    requires db.Valid()
    ensures var r := AddQuery(db, keyword, None, [], [], None, None,
                              DefaultIntervalMinutes, DefaultAiEnabled, DefaultAiThreshold, now);
            var q := r.db.queries[r.value];
            && q.keyword == keyword && q.description.None? && q.includeTerms == [] && q.excludeTerms == []
            && q.minPrice.None? && q.maxPrice.None?
            && q.intervalMinutes == 60 && q.aiEnabled && q.aiThreshold == 0.7 && q.enabled
  {
  }

  function GetQuery(db: Database, id: int): (r: Option<Query>)
    ensures r.Some? <==> id in db.queries
    ensures r.Some? ==> r.value == db.queries[id]
  {
    if id in db.queries then Some(db.queries[id]) else None
  }

  /** Ids of the queries `get_all_queries(enabled_only=True)` returns. */
  function EnabledQueryIds(db: Database): (ids: set<int>)
    ensures forall id :: id in ids <==> id in db.queries && db.queries[id].enabled
  {
    set id | id in db.queries && db.queries[id].enabled
  }

  /** A keyword argument's value. */
  datatype Value =
    | VStr(s: string)
    | VOptStr(os: Option<string>)
    | VTerms(terms: seq<string>)
    | VOptReal(or: Option<real>)
    | VInt(i: int)
    | VReal(r: real)
    | VBool(b: bool)

  /** The columns `update_query` lets a caller set. */
  const UpdatableColumns: set<string> := {
    "keyword", "description", "include_terms", "exclude_terms", "min_price", "max_price",
    "interval_minutes", "ai_enabled", "ai_threshold", "enabled"
  }

  /** The argument for `column`, when it is given and is of the column's kind. */
  function StrArg(kwargs: map<string, Value>, column: string, current: string): string {
    if column in kwargs && kwargs[column].VStr? then kwargs[column].s else current
  }

  function OptStrArg(kwargs: map<string, Value>, column: string, current: Option<string>): Option<string> {
    if column in kwargs && kwargs[column].VOptStr? then kwargs[column].os else current
  }

  function TermsArg(kwargs: map<string, Value>, column: string, current: seq<string>): seq<string> {
    if column in kwargs && kwargs[column].VTerms? then kwargs[column].terms else current
  }

  function OptRealArg(kwargs: map<string, Value>, column: string, current: Option<real>): Option<real> {
    if column in kwargs && kwargs[column].VOptReal? then kwargs[column].or else current
  }

  function IntArg(kwargs: map<string, Value>, column: string, current: int): int {
    if column in kwargs && kwargs[column].VInt? then kwargs[column].i else current
  }

  function RealArg(kwargs: map<string, Value>, column: string, current: real): real {
    if column in kwargs && kwargs[column].VReal? then kwargs[column].r else current
  }

  function BoolArg(kwargs: map<string, Value>, column: string, current: bool): bool {
    if column in kwargs && kwargs[column].VBool? then kwargs[column].b else current
  }

  /** The row with every updatable column that `kwargs` names set from it. */
  function ApplyColumns(q: Query, kwargs: map<string, Value>): Query {
    q.(keyword := StrArg(kwargs, "keyword", q.keyword),
       description := OptStrArg(kwargs, "description", q.description),
       includeTerms := TermsArg(kwargs, "include_terms", q.includeTerms),
       excludeTerms := TermsArg(kwargs, "exclude_terms", q.excludeTerms),
       minPrice := OptRealArg(kwargs, "min_price", q.minPrice),
       maxPrice := OptRealArg(kwargs, "max_price", q.maxPrice),
       intervalMinutes := IntArg(kwargs, "interval_minutes", q.intervalMinutes),
       aiEnabled := BoolArg(kwargs, "ai_enabled", q.aiEnabled),
       aiThreshold := RealArg(kwargs, "ai_threshold", q.aiThreshold),
       enabled := BoolArg(kwargs, "enabled", q.enabled))
  }

  /** `update_query(id, **kwargs)`: keys outside the updatable columns are dropped; with
      nothing left it answers false without writing. Otherwise the columns and
      `updated_at` are written, and it answers whether the row exists. */
  function UpdateQuery(db: Database, id: int, kwargs: map<string, Value>, now: int): (r: Stored<bool>)
    requires db.Valid()
    ensures r.db.Valid()
    ensures kwargs.Keys * UpdatableColumns == {} ==> r == Stored(db, false)
    ensures r.value <==> id in db.queries && kwargs.Keys * UpdatableColumns != {}
    ensures r.value ==> r.db.queries.Keys == db.queries.Keys && r.db.queries[id].updatedAt == now
    ensures r.value ==> r.db.queries[id] == ApplyColumns(db.queries[id], kwargs).(updatedAt := now)
    ensures !r.value ==> r.db == db
    ensures forall other :: other in db.queries && other != id ==> other in r.db.queries && r.db.queries[other] == db.queries[other]
    ensures r.db.seen == db.seen && r.db.scans == db.scans && r.db.notifications == db.notifications
  {
    var columns := kwargs.Keys * UpdatableColumns;
    if |kwargs| == 0 || columns == {} then Stored(db, false)
    else if id !in db.queries then Stored(db, false)
    else
      var q := ApplyColumns(db.queries[id], kwargs).(updatedAt := now);
      Stored(db.(queries := db.queries[id := q]), true)
  }

  /** Keys outside the updatable columns make no difference: updating with `kwargs`
      is updating with its restriction to those columns. */
  lemma UpdateIgnoresOtherKeys(db: Database, id: int, kwargs: map<string, Value>, now: int)
    requires db.Valid()
    ensures UpdateQuery(db, id, kwargs, now)
         == UpdateQuery(db, id, map k | k in kwargs && k in UpdatableColumns :: kwargs[k], now)
  {
    var allowed := map k | k in kwargs && k in UpdatableColumns :: kwargs[k];
    assert allowed.Keys == kwargs.Keys * UpdatableColumns;
    if allowed.Keys != {} {
      assert |kwargs| != 0 && |allowed| != 0;
    }
    if id in db.queries {
      var q := db.queries[id];
      assert ApplyColumns(q, kwargs) == ApplyColumns(q, allowed);
    }
  }

  /** After a successful update, each updatable column given a value of its kind
      holds that value. */
  lemma UpdateSetsGivenColumns(db: Database, id: int, kwargs: map<string, Value>, now: int)
    requires db.Valid()
    requires UpdateQuery(db, id, kwargs, now).value
    ensures var q := UpdateQuery(db, id, kwargs, now).db.queries[id];
            && ("keyword" in kwargs && kwargs["keyword"].VStr? ==> q.keyword == kwargs["keyword"].s)
            && ("description" in kwargs && kwargs["description"].VOptStr? ==> q.description == kwargs["description"].os)
            && ("include_terms" in kwargs && kwargs["include_terms"].VTerms? ==> q.includeTerms == kwargs["include_terms"].terms)
            && ("exclude_terms" in kwargs && kwargs["exclude_terms"].VTerms? ==> q.excludeTerms == kwargs["exclude_terms"].terms)
            && ("min_price" in kwargs && kwargs["min_price"].VOptReal? ==> q.minPrice == kwargs["min_price"].or)
            && ("max_price" in kwargs && kwargs["max_price"].VOptReal? ==> q.maxPrice == kwargs["max_price"].or)
            && ("interval_minutes" in kwargs && kwargs["interval_minutes"].VInt? ==> q.intervalMinutes == kwargs["interval_minutes"].i)
            && ("ai_enabled" in kwargs && kwargs["ai_enabled"].VBool? ==> q.aiEnabled == kwargs["ai_enabled"].b)
            && ("ai_threshold" in kwargs && kwargs["ai_threshold"].VReal? ==> q.aiThreshold == kwargs["ai_threshold"].r)
            && ("enabled" in kwargs && kwargs["enabled"].VBool? ==> q.enabled == kwargs["enabled"].b)
  {
  }

  /** After an update, a column that `kwargs` does not name keeps its value, and so do
      the id, the creation time and the extended filter columns. */
  lemma UpdateKeepsOtherColumns(db: Database, id: int, kwargs: map<string, Value>, now: int)
    requires db.Valid() && id in db.queries
    ensures var before := db.queries[id];
            var q := UpdateQuery(db, id, kwargs, now).db.queries[id];
            && q.id == before.id && q.createdAt == before.createdAt
            && q.freeShipping == before.freeShipping && q.region == before.region
            && q.newPublishHours == before.newPublishHours
            && ("keyword" !in kwargs ==> q.keyword == before.keyword)
            && ("description" !in kwargs ==> q.description == before.description)
            && ("include_terms" !in kwargs ==> q.includeTerms == before.includeTerms)
            && ("exclude_terms" !in kwargs ==> q.excludeTerms == before.excludeTerms)
            && ("min_price" !in kwargs ==> q.minPrice == before.minPrice)
            && ("max_price" !in kwargs ==> q.maxPrice == before.maxPrice)
            && ("interval_minutes" !in kwargs ==> q.intervalMinutes == before.intervalMinutes)
            && ("ai_enabled" !in kwargs ==> q.aiEnabled == before.aiEnabled)
            && ("ai_threshold" !in kwargs ==> q.aiThreshold == before.aiThreshold)
            && ("enabled" !in kwargs ==> q.enabled == before.enabled)
  {
  }

  /** Setting only `enabled` changes only that flag and the update time. */
  lemma UpdateEnabledOnly(db: Database, id: int, flag: bool, now: int)
    requires db.Valid() && id in db.queries
    ensures var r := UpdateQuery(db, id, map["enabled" := VBool(flag)], now);
            && r.value
            && r.db.queries[id] == db.queries[id].(enabled := flag, updatedAt := now)
  {
    var kwargs := map["enabled" := VBool(flag)];
    assert "enabled" in kwargs.Keys * UpdatableColumns;
  }

  /** Deletes a query row and answers whether it existed. The seen, notification and
      scan rows of the query stay: the store never turns on SQLite's foreign keys, so
      the declared cascade does not run. */
  function DeleteQuery(db: Database, id: int): (r: Stored<bool>)
    requires db.Valid()
    ensures r.db.Valid()
    ensures r.value <==> id in db.queries
    ensures id !in r.db.queries && r.db.queries.Keys == db.queries.Keys - {id}
    ensures r.db.seen == db.seen && r.db.scans == db.scans && r.db.notifications == db.notifications
  {
    Stored(db.(queries := db.queries - {id}), id in db.queries)
  }

  // ---------------------------------------------------------------------------
  // Seen listings
  // ---------------------------------------------------------------------------

  /** Upsert keyed by (query, listing): a new pair gets a row first and last seen now;
      an existing row only has its last-seen time moved to now. */
  function MarkListingSeen(db: Database, queryId: int, listingId: string, title: string,
                           price: real, sellerId: string, now: int): (r: Stored<bool>)
    requires db.Valid()
    ensures r.db.Valid() && r.value
    ensures var k := SeenKey(queryId, listingId);
            && k in r.db.seen && r.db.seen.Keys == db.seen.Keys + {k}
            && r.db.seen[k].lastSeenAt == now
            && (k in db.seen ==> r.db.seen[k] == db.seen[k].(lastSeenAt := now))
            && (k !in db.seen ==> r.db.seen[k] == ListingSeen(queryId, listingId, title, price, sellerId, now, now))
    ensures forall k :: k in db.seen && k != SeenKey(queryId, listingId) ==> r.db.seen[k] == db.seen[k]
    ensures r.db.queries == db.queries && r.db.scans == db.scans && r.db.notifications == db.notifications
  {
    var k := SeenKey(queryId, listingId);
    var row := if k in db.seen then db.seen[k].(lastSeenAt := now)
               else ListingSeen(queryId, listingId, title, price, sellerId, now, now);
    Stored(db.(seen := db.seen[k := row]), true)
  }

  predicate IsListingSeen(db: Database, queryId: int, listingId: string) {
    SeenKey(queryId, listingId) in db.seen
  }

  /** Rows deleted by a cleanup with the given cut-off. */
  function Expired(db: Database, cutoff: int): (ks: set<SeenKey>)
    ensures forall k :: k in ks <==> k in db.seen && db.seen[k].lastSeenAt < cutoff
  {
    set k | k in db.seen && db.seen[k].lastSeenAt < cutoff
  }

  /** The retention window used by a cleanup: the argument, unless it is missing or 0. */
  function RetentionDays(days: Option<int>, defaultDays: int): (d: int)
    ensures days.Some? && days.value != 0 ==> d == days.value
    ensures days.None? || days.value == 0 ==> d == defaultDays
  {
    if days.Some? && days.value != 0 then days.value else defaultDays
  }

  /** Deletes every seen row last seen before `now - days`, and returns how many. */
  function CleanupOldListings(db: Database, days: Option<int>, defaultDays: int, now: int): (r: Stored<nat>)
    requires db.Valid()
    ensures r.db.Valid()
    ensures var cutoff := now - RetentionDays(days, defaultDays) * SecondsPerDay;
            && (forall k :: k in r.db.seen <==> k in db.seen && db.seen[k].lastSeenAt >= cutoff)
            && r.value == |Expired(db, cutoff)|
    ensures |r.db.seen.Keys| + r.value == |db.seen.Keys|
    ensures forall k :: k in r.db.seen ==> r.db.seen[k] == db.seen[k]
    ensures r.db.queries == db.queries && r.db.scans == db.scans && r.db.notifications == db.notifications
  {
    var cutoff := now - RetentionDays(days, defaultDays) * SecondsPerDay;
    var expired := Expired(db, cutoff);
    var kept := map k | k in db.seen && db.seen[k].lastSeenAt >= cutoff :: db.seen[k];
    assert kept.Keys == db.seen.Keys - expired;
    assert db.seen.Keys == kept.Keys + expired;
    Stored(db.(seen := kept), |expired|)
  }

  /** A marker stays seen until a cleanup whose cut-off passes its last-seen time. */
  lemma MarkedStaysSeen(db: Database, queryId: int, listingId: string, title: string,
                        price: real, sellerId: string, now: int, days: Option<int>, defaultDays: int, later: int)
    requires db.Valid()
    ensures IsListingSeen(MarkListingSeen(db, queryId, listingId, title, price, sellerId, now).db, queryId, listingId)
    ensures var marked := MarkListingSeen(db, queryId, listingId, title, price, sellerId, now).db;
            IsListingSeen(CleanupOldListings(marked, days, defaultDays, later).db, queryId, listingId)
            <==> now >= later - RetentionDays(days, defaultDays) * SecondsPerDay
  {
  }

  /** A second cleanup right after the first deletes nothing. */
  lemma CleanupIdempotent(db: Database, days: Option<int>, defaultDays: int, now: int)
    requires db.Valid()
    ensures var once := CleanupOldListings(db, days, defaultDays, now);
            var twice := CleanupOldListings(once.db, days, defaultDays, now);
            twice.value == 0 && twice.db == once.db
  {
    var once := CleanupOldListings(db, days, defaultDays, now);
    var cutoff := now - RetentionDays(days, defaultDays) * SecondsPerDay;
    assert Expired(once.db, cutoff) == {};
    var twice := CleanupOldListings(once.db, days, defaultDays, now);
    assert twice.db.seen == once.db.seen;
  }

  // ---------------------------------------------------------------------------
  // Notifications
  // ---------------------------------------------------------------------------

  /** Inserts a pending, unsent notification and returns its id. */
  function CreateNotification(db: Database, queryId: int, listingId: string,
                              aiRelevance: Option<real>, aiReason: Option<string>, now: int): (r: Stored<int>)
    requires db.Valid()
    ensures r.db.Valid()
    ensures r.value !in db.notifications && r.db.notifications.Keys == db.notifications.Keys + {r.value}
    ensures var n := r.db.notifications[r.value];
            n.status == NotificationStatus.Pending && n.sentAt.None? && n.queryId == queryId && n.listingId == listingId
            && n.aiRelevance == aiRelevance && n.aiReason == aiReason && n.createdAt == now
    ensures forall id :: id in db.notifications ==> r.db.notifications[id] == db.notifications[id]
    ensures r.db.seen == db.seen && r.db.queries == db.queries && r.db.scans == db.scans
  {
    var id := db.nextNotificationId;
    var n := Notification(queryId, listingId, NotificationStatus.Pending, aiRelevance, aiReason, None, now);
    Stored(db.(notifications := db.notifications[id := n], nextNotificationId := id + 1), id)
  }

  /** Marks a notification sent at `now`, whatever its status was, and answers whether
      the row exists. */
  function MarkNotificationSent(db: Database, id: int, now: int): (r: Stored<bool>)
    requires db.Valid()
    ensures r.db.Valid()
    ensures r.value <==> id in db.notifications
    ensures r.db.notifications.Keys == db.notifications.Keys
    ensures r.value ==> r.db.notifications[id] == db.notifications[id].(status := NotificationStatus.Sent, sentAt := Some(now))
    ensures forall other :: other in db.notifications && other != id ==> r.db.notifications[other] == db.notifications[other]
    ensures r.db.seen == db.seen && r.db.queries == db.queries && r.db.scans == db.scans
  {
    if id in db.notifications then
      var n := db.notifications[id].(status := NotificationStatus.Sent, sentAt := Some(now));
      Stored(db.(notifications := db.notifications[id := n]), true)
    else Stored(db, false)
  }

  /** Marking sent twice keeps the row sent; only the time moves. */
  lemma MarkSentTwice(db: Database, id: int, t1: int, t2: int)
    requires db.Valid() && id in db.notifications
    ensures var once := MarkNotificationSent(db, id, t1).db;
            var twice := MarkNotificationSent(once, id, t2).db;
            twice.notifications[id].status == NotificationStatus.Sent && twice.notifications[id].sentAt == Some(t2)
  {
  }

  // ---------------------------------------------------------------------------
  // Scans
  // ---------------------------------------------------------------------------

  /** Inserts a running scan started now, with the other columns at their defaults. */
  function StartScan(db: Database, queryId: int, now: int): (r: Stored<int>)
    requires db.Valid()
    ensures r.db.Valid()
    ensures r.value !in db.scans && r.db.scans.Keys == db.scans.Keys + {r.value}
    ensures var s := r.db.scans[r.value];
            s.status == ScanStatus.Running && s.finishedAt.None? && s.queryId == queryId && s.startedAt == now
            && s.listingsFound == 0 && s.listingsNew == 0 && s.listingsNotified == 0 && s.errorMessage.None?
    ensures forall id :: id in db.scans ==> r.db.scans[id] == db.scans[id]
    ensures r.db.seen == db.seen && r.db.queries == db.queries && r.db.notifications == db.notifications
  {
    var id := db.nextScanId;
    var s := DefaultScanRow(queryId, now).(status := ScanStatus.Running);
    Stored(db.(scans := db.scans[id := s], nextScanId := id + 1), id)
  }

  /** Writes a scan's outcome and finish time, and answers whether the row exists. */
  function FinishScan(db: Database, id: int, status: ScanStatus, found: int, newCount: int, notified: int,
                      errorMessage: Option<string>, now: int): (r: Stored<bool>)
    requires db.Valid()
    ensures r.db.Valid()
    ensures r.value <==> id in db.scans
    ensures r.db.scans.Keys == db.scans.Keys
    ensures r.value ==> var s := r.db.scans[id];
            s == db.scans[id].(status := status, listingsFound := found, listingsNew := newCount,
                               listingsNotified := notified, errorMessage := errorMessage, finishedAt := Some(now))
    ensures forall other :: other in db.scans && other != id ==> r.db.scans[other] == db.scans[other]
    ensures r.db.seen == db.seen && r.db.queries == db.queries && r.db.notifications == db.notifications
  {
    if id in db.scans then
      var s := db.scans[id].(status := status, listingsFound := found, listingsNew := newCount,
                             listingsNotified := notified, errorMessage := errorMessage, finishedAt := Some(now));
      Stored(db.(scans := db.scans[id := s]), true)
    else Stored(db, false)
  }

  /** Failed scans started after the cut-off. */
  function RecentFailedIds(db: Database, cutoff: int): (ids: set<int>)
    ensures forall id :: id in ids <==> id in db.scans && db.scans[id].status == ScanStatus.Failed && db.scans[id].startedAt > cutoff
  {
    set id | id in db.scans && db.scans[id].status == ScanStatus.Failed && db.scans[id].startedAt > cutoff
  }

  /** Number of failed scans started within the last `hours`. */
  function GetRecentFailures(db: Database, hours: int, now: int): (n: nat)
    ensures n <= |db.scans.Keys|
  {
    var ids := RecentFailedIds(db, now - hours * SecondsPerHour);
    assert ids <= db.scans.Keys;
    SubsetCard(ids, db.scans.Keys);
    |ids|
  }

  lemma SubsetCard<T>(a: set<T>, b: set<T>)
    requires a <= b
    ensures |a| <= |b|
  {
    assert b == a + (b - a);
  }

  /** Starting a scan does not change the failure count. */
  lemma StartScanKeepsFailures(db: Database, queryId: int, now: int, hours: int, later: int)
    requires db.Valid()
    ensures GetRecentFailures(StartScan(db, queryId, now).db, hours, later) == GetRecentFailures(db, hours, later)
  {
    StartScanKeepsFailedIds(db, queryId, now, later - hours * SecondsPerHour);
  }

  lemma StartScanKeepsFailedIds(db: Database, queryId: int, now: int, cutoff: int)
    requires db.Valid()
    ensures RecentFailedIds(StartScan(db, queryId, now).db, cutoff) == RecentFailedIds(db, cutoff)
  {
    var r := StartScan(db, queryId, now);
    var row := DefaultScanRow(queryId, now).(status := ScanStatus.Running);
    assert r.db.scans == db.scans[db.nextScanId := row];
    FailuresIgnoreRunningRow(db, r.db, db.nextScanId, row, cutoff);
  }

  /** Adding or replacing a row that is not failed leaves the recent failures alone,
      provided the replaced row was not failed either. */
  lemma FailuresIgnoreRunningRow(before: Database, after: Database, id: int, row: Scan, cutoff: int)
    requires after.scans == before.scans[id := row]
    requires row.status != ScanStatus.Failed
    requires id in before.scans ==> before.scans[id].status != ScanStatus.Failed
    ensures RecentFailedIds(after, cutoff) == RecentFailedIds(before, cutoff)
  {
  }

  /** Failing a running scan that started after the cut-off adds exactly one failure. */
  lemma FailingRecentScanCounts(db: Database, id: int, errorMessage: Option<string>, now: int, hours: int, later: int)
    requires db.Valid() && id in db.scans && db.scans[id].status == ScanStatus.Running
    requires db.scans[id].startedAt > later - hours * SecondsPerHour
    ensures GetRecentFailures(FinishScan(db, id, ScanStatus.Failed, 0, 0, 0, errorMessage, now).db, hours, later)
         == GetRecentFailures(db, hours, later) + 1
  {
    var r := FinishScan(db, id, ScanStatus.Failed, 0, 0, 0, errorMessage, now);
    var cutoff := later - hours * SecondsPerHour;
    var before := RecentFailedIds(db, cutoff);
    assert id !in before;
    assert RecentFailedIds(r.db, cutoff) == before + {id};
  }

  /** Completing a scan does not change the failure count. */
  lemma CompletingScanKeepsFailures(db: Database, id: int, found: int, newCount: int, notified: int, now: int, hours: int, later: int)
    requires db.Valid() && id in db.scans && db.scans[id].status == ScanStatus.Running
    ensures GetRecentFailures(FinishScan(db, id, ScanStatus.Completed, found, newCount, notified, None, now).db, hours, later)
         == GetRecentFailures(db, hours, later)
  {
    var r := FinishScan(db, id, ScanStatus.Completed, found, newCount, notified, None, now);
    var cutoff := later - hours * SecondsPerHour;
    assert RecentFailedIds(r.db, cutoff) == RecentFailedIds(db, cutoff);
  }
}
