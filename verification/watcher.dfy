/** The watcher: one scan of a query (page fetch, normalisation, filtering, the
    seen-listing dedup, verification gating, notification and bookkeeping), the jobs that
    drive it, and the health check. Search, the verifier's HTTP reply, Discord and the
    push channels are parameters. */
module Watcher {
  import opened Wrappers
  import opened Models
  import opened Store
  import opened Scheduler
  import Filter
  import Text
  import Parser
  import Json
  import Verifier
  import Notifications
  import Notifier

  const ConsecutiveFailureThreshold: nat := 3
  const PageSize: nat := 50

  /** The settings a scan reads. */
  datatype Settings = Settings(maxListingsPerScan: nat, seenStreakStop: nat, jitterMinutes: nat, retentionDays: int)

  /** Which reading of the two defects a run follows: the code as written, or the evidently
      intended behaviour. */
  datatype Build = AsWritten | Intended

  datatype Alert = AuthExpired | HighFailureRate(failures: nat) | ConsecutiveFailures(queryId: int, failures: nat)

  /** The watcher's own state: its jobs, the consecutive scan-failure counter and whether
      an expired-login alert has been sent. */
  datatype Cog = Cog(jobs: Jobs, consecutiveFailures: nat, lastAuthAlert: bool)

  const NewCog: Cog := Cog(map[], 0, false)

  /** What the outside world does during a scan. */
  datatype Ports = Ports(
    /** The listings of a search-result page, or the exception searching raised. */
    search: nat -> Result<seq<RawListing>>,
    /** The verifier's reply for a listing id, and its JSON decoder. */
    reply: string -> Verifier.HttpReply,
    loads: string -> Option<Json.Json>,
    /** The Discord user lookup, made afresh for each listing, and the direct-message
        delivery, both by listing id. */
    lookup: string -> Notifier.UserLookup,
    delivery: string -> Notifier.DmDelivery,
    /** The push-channel manager and what each channel does for a listing id. */
    manager: Notifications.Manager,
    channels: string -> Notifications.Channel -> Notifications.ChannelOutcome)
  {
    predicate Valid() {
      manager.Valid()
    }
  }

  // ---------------------------------------------------------------------------
  // Health check
  // ---------------------------------------------------------------------------

  /** `_health_check_job`: an expired-login alert only on the first failing check since
      the last successful one, and a failure-rate alert whenever the last hour holds at
      least three failed scans. */
  function HealthCheck(cog: Cog, db: Database, authOk: bool, now: int): (r: (Cog, seq<Alert>))
    ensures r.0.lastAuthAlert == !authOk
    ensures AuthExpired in r.1 <==> !authOk && !cog.lastAuthAlert
    ensures (exists n :: HighFailureRate(n) in r.1) <==> GetRecentFailures(db, 1, now) >= ConsecutiveFailureThreshold
    ensures r.0.jobs == cog.jobs && r.0.consecutiveFailures == cog.consecutiveFailures
  {
    var auth := if !authOk && !cog.lastAuthAlert then [AuthExpired] else [];
    var failures := GetRecentFailures(db, 1, now);
    var rate := if failures >= ConsecutiveFailureThreshold then [HighFailureRate(failures)] else [];
    (cog.(lastAuthAlert := !authOk), auth + rate)
  }

  /** A login that stays expired is reported once. */
  lemma AuthAlertOnce(cog: Cog, db: Database, now: int, later: int)
    ensures var first := HealthCheck(cog, db, false, now);
            AuthExpired !in HealthCheck(first.0, db, false, later).1
  {
  }

  /** After a successful check, the next failing check reports again. */
  lemma AuthAlertAfterRecovery(cog: Cog, db: Database, t1: int, t2: int, t3: int)
    ensures var expired := HealthCheck(cog, db, false, t1).0;
            var recovered := HealthCheck(expired, db, true, t2).0;
            AuthExpired in HealthCheck(recovered, db, false, t3).1
  {
  }

  /** `_cleanup_job`: the seen-listing cleanup with the configured retention. */
  function RunCleanupJob(db: Database, settings: Settings, now: int): (r: Stored<nat>)
    requires db.Valid()
    ensures r.db.Valid()
    ensures forall k :: k in r.db.seen <==> k in db.seen && db.seen[k].lastSeenAt >= now - RetentionDays(None, settings.retentionDays) * SecondsPerDay
  {
    CleanupOldListings(db, None, settings.retentionDays, now)
  }

  // ---------------------------------------------------------------------------
  // Fetching pages
  // ---------------------------------------------------------------------------

  /** The pages fetched: the listings gathered, how many pages were requested, and the
      exception a request raised, if any. */
  datatype Fetched = Fetched(items: seq<RawListing>, requested: nat, error: Option<string>)

  /** The page loop: request pages from `page` on while fewer than `maxListings` listings
      are gathered and the page limit is not passed; stop at the first empty page. */
  function FetchPages(search: nat -> Result<seq<RawListing>>, maxListings: nat, page: nat, maxPages: nat,
                      acc: seq<RawListing>): (r: Fetched)
    ensures acc <= r.items
    ensures page + r.requested <= Max(page, maxPages + 1)
    ensures forall p :: page <= p < page + r.requested - 1 ==> search(p).Success? && |search(p).value| > 0
    ensures r.error.None? && |r.items| < maxListings && page + r.requested <= maxPages ==>
              r.requested > 0 && search(page + r.requested - 1) == Success([])
    ensures r.error.Some? ==> r.requested > 0 && search(page + r.requested - 1).Failure?
    decreases maxPages + 1 - page
  {
    if |acc| >= maxListings || page > maxPages then Fetched(acc, 0, None)
    else
      match search(page)
      case Failure(e) => Fetched(acc, 1, Some(e))
      case Success(items) =>
        if |items| == 0 then Fetched(acc, 1, None)
        else
          var r := FetchPages(search, maxListings, page + 1, maxPages, acc + items);
          Fetched(r.items, r.requested + 1, r.error)
  }

  /** The feed of a scan: pages from 1, at most `max // 50 + 1` of them. */
  function Feed(settings: Settings, search: nat -> Result<seq<RawListing>>): (r: Fetched)
    ensures r.requested <= settings.maxListingsPerScan / PageSize + 1
  {
    FetchPages(search, settings.maxListingsPerScan, 1, settings.maxListingsPerScan / PageSize + 1, [])
  }

  /** An empty first page ends the feed at once. */
  lemma EmptyFirstPage(settings: Settings, search: nat -> Result<seq<RawListing>>)
    requires search(1) == Success([])
    ensures Feed(settings, search).items == [] && Feed(settings, search).error.None?
  {
  }

  // ---------------------------------------------------------------------------
  // Examining listings
  // ---------------------------------------------------------------------------

  /** The state of the listing loop: the database, the counters, the seen streak, how many
      listings were taken from the list, and the exception that ended the scan, if any. */
  datatype Progress = Progress(db: Database, newCount: nat, created: nat, notified: nat,
                               streak: nat, examined: nat, error: Option<string>)

  /** Whether `send_listing`'s result counts as sent. As written the result is a pair,
      which is always true; the intended check is that some route delivered it. */
  predicate Delivered(b: Build, d: Notifier.Dispatch) {
    match b
    case AsWritten => true
    case Intended => d.dmOk || true in d.channels.Values
  }

  /** The verifier's answer as the scan sees it: a result, or none. */
  function AiResult(o: Verifier.VerifyOutcome): Option<Verifier.VerificationResult> {
    if o.Verified? then Some(o.result) else None
  }

  /** The verification gate: a listing is skipped only when there is a result, AI is on
      for the query, and the confidence is below the query's threshold. */
  predicate GatedOut(q: Query, ai: Option<Verifier.VerificationResult>) {
    ai.Some? && q.aiEnabled && ai.value.confidence < q.aiThreshold
  }

  /** Notifications are only added, each new one for `queryId`, and no existing one
      changes owner. */
  predicate NotesGrowFor(before: map<int, Notification>, after: map<int, Notification>, queryId: int) {
    && before.Keys <= after.Keys
    && forall id :: id in after ==> after[id].queryId == (if id in before then before[id].queryId else queryId)
  }

  /** The database after a notification is delivered (or not). */
  function Record(b: Build, db: Database, id: int, d: Notifier.Dispatch, now: int): (r: Stored<bool>)
    requires db.Valid() && id in db.notifications
    ensures r.db.Valid() && (r.value <==> Delivered(b, d))
    ensures r.db.seen == db.seen && r.db.queries == db.queries && r.db.scans == db.scans
    ensures r.db.notifications.Keys == db.notifications.Keys
    ensures r.db.notifications[id].status == (if Delivered(b, d) then NotificationStatus.Sent else db.notifications[id].status)
    ensures r.db.notifications[id].queryId == db.notifications[id].queryId
    ensures r.db.notifications[id].listingId == db.notifications[id].listingId
    ensures forall other :: other in db.notifications && other != id ==> r.db.notifications[other] == db.notifications[other]
  {
    if Delivered(b, d) then Stored(MarkNotificationSent(db, id, now).db, true) else Stored(db, false)
  }

  /** `send_listing` for a listing, with what the outside world does for it. */
  function Send(q: Query, ports: Ports, l: Listing, confidence: Option<real>, reason: Option<string>): (r: Result<Notifier.Dispatch>)
    requires ports.Valid()
    ensures r.Failure? <==> ports.lookup(l.id).UserFound? && ports.delivery(l.id).DmRaised?
  {
    Notifier.SendListing(l, q, confidence, reason, ports.lookup(l.id), ports.delivery(l.id), ports.manager, ports.channels(l.id))
  }

  /** A notification for a listing that passed the gate: recorded pending, sent, and
      marked sent when delivered. An exception from the direct message ends the scan. */
  function Deliver(b: Build, q: Query, ports: Ports, now: int, l: Listing, p: Progress,
                   confidence: Option<real>, reason: Option<string>): (r: Progress)
    requires p.db.Valid() && ports.Valid() && p.error.None?
    ensures r.db.Valid()
    ensures r.db.seen == p.db.seen && r.db.queries == p.db.queries && r.db.scans == p.db.scans
    ensures NotesGrowFor(p.db.notifications, r.db.notifications, q.id)
    ensures p.db.notifications.Keys < r.db.notifications.Keys
    ensures forall id :: id in r.db.notifications && id !in p.db.notifications ==> r.db.notifications[id].listingId == l.id
    ensures r.newCount == p.newCount && r.streak == p.streak && r.examined == p.examined
    ensures r.created == p.created + 1
    ensures r.notified == p.notified || r.notified == p.notified + 1
    ensures b.AsWritten? && r.error.None? ==> r.notified == p.notified + 1
    ensures r.error.Some? <==> Send(q, ports, l, confidence, reason).Failure?
    ensures r.error.None? ==> (r.notified == p.notified + 1 <==> Delivered(b, Send(q, ports, l, confidence, reason).value))
    ensures r.error.None? ==>
              forall id :: id in r.db.notifications && id !in p.db.notifications ==>
                (r.db.notifications[id].status == NotificationStatus.Sent <==> r.notified == p.notified + 1)
  {
    var made := CreateNotification(p.db, q.id, l.id, confidence, reason, now);
    match Send(q, ports, l, confidence, reason)
    case Failure(e) => p.(db := made.db, created := p.created + 1, error := Some(e))
    case Success(d) =>
      var recorded := Record(b, made.db, made.value, d, now);
      p.(db := recorded.db, created := p.created + 1,
         notified := if recorded.value then p.notified + 1 else p.notified)
  }

  /** What the scan does with the verifier's answer for a listing already marked seen:
      an exception ends the scan, the gate may skip the listing, and otherwise it is
      delivered with the result's confidence and reason (none without a result). */
  function Decide(b: Build, q: Query, ports: Ports, now: int, l: Listing, p: Progress,
                  outcome: Verifier.VerifyOutcome): (r: Progress)
    requires p.db.Valid() && ports.Valid() && p.error.None?
    ensures r.db.Valid()
    ensures r.db.seen == p.db.seen && r.db.queries == p.db.queries && r.db.scans == p.db.scans
    ensures NotesGrowFor(p.db.notifications, r.db.notifications, q.id)
    ensures forall id :: id in r.db.notifications && id !in p.db.notifications ==> r.db.notifications[id].listingId == l.id
    ensures r.newCount == p.newCount && r.streak == p.streak && r.examined == p.examined
    ensures r.created == p.created || r.created == p.created + 1
    ensures r.notified == p.notified || (r.notified == p.notified + 1 && r.created == p.created + 1)
    ensures b.AsWritten? && r.error.None? ==> r.notified - p.notified == r.created - p.created
    ensures GatedOut(q, AiResult(outcome)) ==> r == p
    ensures outcome.Raised? ==> r == p.(error := Some(outcome.message))
    ensures !outcome.Raised? && !GatedOut(q, AiResult(outcome)) ==> r.created == p.created + 1
  {
    if outcome.Raised? then p.(error := Some(outcome.message))
    else
      var ai := AiResult(outcome);
      if GatedOut(q, ai) then p
      else
        Deliver(b, q, ports, now, l, p,
                if ai.Some? then Some(ai.value.confidence) else None,
                if ai.Some? then Some(ai.value.reason) else None)
  }

  /** One unseen listing: marked seen first, then verified and decided on. */
  function Examine(b: Build, q: Query, ports: Ports, now: int, l: Listing, p: Progress): (r: Progress)
    requires p.db.Valid() && ports.Valid() && p.error.None?
    ensures r.db.Valid()
    ensures r.db.seen.Keys == p.db.seen.Keys + {SeenKey(q.id, l.id)}
    ensures r.db.queries == p.db.queries && r.db.scans == p.db.scans
    ensures NotesGrowFor(p.db.notifications, r.db.notifications, q.id)
    ensures r.newCount == p.newCount && r.streak == p.streak && r.examined == p.examined
    ensures r.created == p.created || r.created == p.created + 1
    ensures r.notified == p.notified || (r.notified == p.notified + 1 && r.created == p.created + 1)
    ensures b.AsWritten? && r.error.None? ==> r.notified - p.notified == r.created - p.created
  {
    var marked := MarkListingSeen(p.db, q.id, l.id, l.title, l.price, l.sellerId, now).db;
    Decide(b, q, ports, now, l, p.(db := marked), Verifier.Verify(q, ports.reply(l.id), ports.loads))
  }

  /** The keys of the seen-markers for listings of one query. */
  function SeenKeys(queryId: int, ls: seq<Listing>): set<SeenKey>
    decreases |ls|
  {
    if |ls| == 0 then {} else {SeenKey(queryId, ls[0].id)} + SeenKeys(queryId, ls[1..])
  }

  /** A marker key is among a list's keys exactly when it is for the query and some
      listing of the list has its id. */
  lemma {:induction false} SeenKeysMembers(queryId: int, ls: seq<Listing>, k: SeenKey)
    ensures k in SeenKeys(queryId, ls) <==> k.queryId == queryId && exists l <- ls :: l.id == k.listingId
    decreases |ls|
  {
    if |ls| > 0 {
      SeenKeysMembers(queryId, ls[1..], k);
      assert forall l :: l in ls <==> l == ls[0] || l in ls[1..];
    }
  }

  /** One listing of the loop: an already-seen listing grows the streak, and the loop
      stops when the streak reaches the limit; an unseen listing resets the streak and
      is examined, and the loop stops on an exception. The second component says
      whether the loop stops after this listing. */
  function Step(b: Build, settings: Settings, q: Query, ports: Ports, now: int,
                l: Listing, p: Progress): (r: (Progress, bool))
    requires p.db.Valid() && ports.Valid() && p.error.None?
    ensures r.0.db.Valid() && r.0.examined == p.examined + 1
    ensures r.0.db.seen.Keys == p.db.seen.Keys + {SeenKey(q.id, l.id)}
    ensures r.0.db.queries == p.db.queries && r.0.db.scans == p.db.scans
    ensures NotesGrowFor(p.db.notifications, r.0.db.notifications, q.id)
    ensures IsListingSeen(p.db, q.id, l.id) ==> r.0 == p.(examined := p.examined + 1, streak := p.streak + 1)
    ensures IsListingSeen(p.db, q.id, l.id) ==> (r.1 <==> p.streak + 1 >= settings.seenStreakStop)
    ensures !IsListingSeen(p.db, q.id, l.id) ==> r.0.streak == 0 && r.0.newCount == p.newCount + 1 && (r.1 <==> r.0.error.Some?)
    ensures r.0.created == p.created || (r.0.created == p.created + 1 && r.0.newCount == p.newCount + 1)
    ensures r.0.notified == p.notified || (r.0.notified == p.notified + 1 && r.0.created == p.created + 1)
    ensures b.AsWritten? && r.0.error.None? ==> r.0.notified - p.notified == r.0.created - p.created
    ensures !r.1 ==> r.0.error.None?
  {
    var taken := p.(examined := p.examined + 1);
    if IsListingSeen(p.db, q.id, l.id) then
      var next := taken.(streak := p.streak + 1);
      (next, next.streak >= settings.seenStreakStop)
    else
      var e := Examine(b, q, ports, now, l, taken.(streak := 0, newCount := p.newCount + 1));
      (e, e.error.Some?)
  }

  /** The listing loop: each listing in turn until one says to stop. The loop ends early
      only on an exception or a full streak. */
  function ScanListings(b: Build, settings: Settings, q: Query, ports: Ports, now: int,
                        ls: seq<Listing>, p: Progress): (r: Progress)
    requires p.db.Valid() && ports.Valid() && p.error.None?
    ensures r.db.Valid()
    ensures p.examined <= r.examined <= p.examined + |ls|
    ensures r.error.None? && r.examined < p.examined + |ls| ==> r.streak >= settings.seenStreakStop
    decreases |ls|
  {
    if |ls| == 0 then p
    else
      var s := Step(b, settings, q, ports, now, ls[0], p);
      if s.1 then s.0 else ScanListings(b, settings, q, ports, now, ls[1..], s.0)
  }

  /** Every listing taken from the list ends up seen, and no other marker is added. */
  lemma {:induction false} ScanMarksExamined(b: Build, settings: Settings, q: Query, ports: Ports, now: int,
                                             ls: seq<Listing>, p: Progress)
    requires p.db.Valid() && ports.Valid() && p.error.None?
    ensures var r := ScanListings(b, settings, q, ports, now, ls, p);
            r.db.seen.Keys == p.db.seen.Keys + SeenKeys(q.id, ls[..r.examined - p.examined])
    decreases |ls|
  {
    if |ls| == 0 {
      assert ls[..0] == [];
    } else if Step(b, settings, q, ports, now, ls[0], p).1 {
      MarksLastStep(b, settings, q, ports, now, ls, p);
    } else {
      var s := Step(b, settings, q, ports, now, ls[0], p);
      ScanMarksExamined(b, settings, q, ports, now, ls[1..], s.0);
      MarksNextStep(b, settings, q, ports, now, ls, p);
    }
  }

  /** The case of `ScanMarksExamined` where the first listing ends the loop. */
  lemma MarksLastStep(b: Build, settings: Settings, q: Query, ports: Ports, now: int,
                      ls: seq<Listing>, p: Progress)
    requires p.db.Valid() && ports.Valid() && p.error.None?
    requires |ls| > 0 && Step(b, settings, q, ports, now, ls[0], p).1
    ensures var r := ScanListings(b, settings, q, ports, now, ls, p);
            r.db.seen.Keys == p.db.seen.Keys + SeenKeys(q.id, ls[..r.examined - p.examined])
  {
    var s := Step(b, settings, q, ports, now, ls[0], p);
    assert ScanListings(b, settings, q, ports, now, ls, p) == s.0;
    SeenKeysSplit(q.id, ls, 1);
    assert ls[1..][..0] == [];
    assert SeenKeys(q.id, ls[..s.0.examined - p.examined]) == {SeenKey(q.id, ls[0].id)};
  }

  /** The case of `ScanMarksExamined` where the loop goes on after the first listing. */
  lemma MarksNextStep(b: Build, settings: Settings, q: Query, ports: Ports, now: int,
                      ls: seq<Listing>, p: Progress)
    requires p.db.Valid() && ports.Valid() && p.error.None?
    requires |ls| > 0 && !Step(b, settings, q, ports, now, ls[0], p).1
    requires var s := Step(b, settings, q, ports, now, ls[0], p).0;
             var r1 := ScanListings(b, settings, q, ports, now, ls[1..], s);
             r1.db.seen.Keys == s.db.seen.Keys + SeenKeys(q.id, ls[1..][..r1.examined - s.examined])
    ensures var r := ScanListings(b, settings, q, ports, now, ls, p);
            r.db.seen.Keys == p.db.seen.Keys + SeenKeys(q.id, ls[..r.examined - p.examined])
  {
    var s := Step(b, settings, q, ports, now, ls[0], p).0;
    var r := ScanListings(b, settings, q, ports, now, ls, p);
    var r1 := ScanListings(b, settings, q, ports, now, ls[1..], s);
    assert r == r1;
    var rest := SeenKeys(q.id, ls[1..][..r1.examined - s.examined]);
    var n := r.examined - p.examined;
    assert r1.examined - s.examined == n - 1;
    SeenKeysSplit(q.id, ls, n);
    UnionStep(p.db.seen.Keys, SeenKey(q.id, ls[0].id), rest, r.db.seen.Keys, SeenKeys(q.id, ls[..n]));
  }

  /** The loop leaves queries and scans alone and only adds notifications, all for the
      scanned query. */
  lemma {:induction false} ScanFrame(b: Build, settings: Settings, q: Query, ports: Ports, now: int,
                                     ls: seq<Listing>, p: Progress)
    requires p.db.Valid() && ports.Valid() && p.error.None?
    ensures var r := ScanListings(b, settings, q, ports, now, ls, p);
            && r.db.queries == p.db.queries && r.db.scans == p.db.scans
            && NotesGrowFor(p.db.notifications, r.db.notifications, q.id)
    decreases |ls|
  {
    if |ls| > 0 {
      var s := Step(b, settings, q, ports, now, ls[0], p);
      if !s.1 {
        ScanFrame(b, settings, q, ports, now, ls[1..], s.0);
      }
    }
  }

  /** notified <= created <= new <= examined, and as written every created notification
      is counted as notified. */
  lemma {:induction false} ScanCounts(b: Build, settings: Settings, q: Query, ports: Ports, now: int,
                                      ls: seq<Listing>, p: Progress)
    requires p.db.Valid() && ports.Valid() && p.error.None?
    ensures var r := ScanListings(b, settings, q, ports, now, ls, p);
            && p.newCount <= r.newCount && r.newCount - p.newCount <= r.examined - p.examined
            && p.notified <= r.notified && r.notified - p.notified <= r.created - p.created <= r.newCount - p.newCount
            && (b.AsWritten? && r.error.None? ==> r.notified - p.notified == r.created - p.created)
    decreases |ls|
  {
    if |ls| > 0 {
      var s := Step(b, settings, q, ports, now, ls[0], p);
      if !s.1 {
        ScanCounts(b, settings, q, ports, now, ls[1..], s.0);
      }
    }
  }

  lemma UnionStep<T>(before: set<T>, k: T, rest: set<T>, after: set<T>, added: set<T>)
    requires after == (before + {k}) + rest && added == {k} + rest
    ensures after == before + added
  {
  }

  lemma SeenKeysSplit(queryId: int, ls: seq<Listing>, n: nat)
    requires 1 <= n <= |ls|
    ensures SeenKeys(queryId, ls[..n]) == {SeenKey(queryId, ls[0].id)} + SeenKeys(queryId, ls[1..][..n - 1])
  {
    assert ls[..n][1..] == ls[1..][..n - 1];
  }

  /** When every listing is already seen, the loop adds nothing and stops after exactly
      `seen_streak_stop` listings (or at the end of the list). */
  lemma {:induction false} AllSeenStops(b: Build, settings: Settings, q: Query, ports: Ports, now: int,
                                        ls: seq<Listing>, p: Progress)
    requires p.db.Valid() && ports.Valid() && p.error.None? && p.streak < settings.seenStreakStop
    requires forall l <- ls :: IsListingSeen(p.db, q.id, l.id)
    ensures var r := ScanListings(b, settings, q, ports, now, ls, p);
            && r.db == p.db && r.newCount == p.newCount && r.notified == p.notified && r.error.None?
            && r.examined - p.examined == Min(|ls|, settings.seenStreakStop - p.streak)
    decreases |ls|
  {
    if |ls| > 0 {
      assert IsListingSeen(p.db, q.id, ls[0].id);
      var s := Step(b, settings, q, ports, now, ls[0], p);
      if !s.1 {
        assert forall l <- ls[1..] :: l in ls;
        AllSeenStops(b, settings, q, ports, now, ls[1..], s.0);
      }
    }
  }

  // ---------------------------------------------------------------------------
  // A scan
  // ---------------------------------------------------------------------------

  /** The filter step as the build runs it. */
  function FilterStep(b: Build, ls: seq<Listing>, q: Query, now: int): (r: Result<seq<Listing>>)
    ensures r.Success? ==> r.value == Filter.FilterListings(ls, q, now)
    ensures b.Intended? ==> r.Success?
  {
    match b
    case AsWritten => Filter.FilterListingsAsWritten(ls, q, now)
    case Intended => Success(Filter.FilterListings(ls, q, now))
  }

  /** The result of a scan: the watcher's state, the database, the scan's id and the
      alerts sent. */
  datatype ScanResult = ScanResult(cog: Cog, db: Database, scanId: int, alerts: seq<Alert>)

  /** A scan that ends normally: the row is completed with its counts and the failure
      counter is reset. */
  function Complete(cog: Cog, db: Database, scanId: int, found: nat, newCount: nat, notified: nat, now: int): (r: ScanResult)
    requires db.Valid() && scanId in db.scans
    ensures r.db.Valid() && r.cog == cog.(consecutiveFailures := 0) && r.alerts == [] && r.scanId == scanId
    ensures r.db.scans.Keys == db.scans.Keys
    ensures forall id :: id in db.scans && id != scanId ==> r.db.scans[id] == db.scans[id]
    ensures r.db.scans[scanId] == db.scans[scanId].(status := ScanStatus.Completed, listingsFound := found,
              listingsNew := newCount, listingsNotified := notified, errorMessage := None, finishedAt := Some(now))
    ensures r.db.seen == db.seen && r.db.queries == db.queries && r.db.notifications == db.notifications
  {
    var fin := FinishScan(db, scanId, ScanStatus.Completed, found, newCount, notified, None, now);
    ScanResult(cog.(consecutiveFailures := 0), fin.db, scanId, [])
  }

  /** A scan that raised: the row is failed with the message and zero counts, the counter
      grows, and from the third consecutive failure on every failure sends an alert. */
  function Fail(cog: Cog, db: Database, scanId: int, q: Query, message: string, now: int): (r: ScanResult)
    requires db.Valid() && scanId in db.scans
    ensures r.db.Valid() && r.scanId == scanId
    ensures r.db.scans.Keys == db.scans.Keys
    ensures forall id :: id in db.scans && id != scanId ==> r.db.scans[id] == db.scans[id]
    ensures r.cog == cog.(consecutiveFailures := cog.consecutiveFailures + 1)
    ensures r.alerts == if r.cog.consecutiveFailures >= ConsecutiveFailureThreshold
                        then [ConsecutiveFailures(q.id, r.cog.consecutiveFailures)] else []
    ensures r.db.scans[scanId] == db.scans[scanId].(status := ScanStatus.Failed, listingsFound := 0,
              listingsNew := 0, listingsNotified := 0, errorMessage := Some(message), finishedAt := Some(now))
    ensures r.db.seen == db.seen && r.db.queries == db.queries && r.db.notifications == db.notifications
  {
    var fin := FinishScan(db, scanId, ScanStatus.Failed, 0, 0, 0, Some(message), now);
    var failures := cog.consecutiveFailures + 1;
    var alerts := if failures >= ConsecutiveFailureThreshold then [ConsecutiveFailures(q.id, failures)] else [];
    ScanResult(cog.(consecutiveFailures := failures), fin.db, scanId, alerts)
  }

  /** The listings a scan examines: the feed normalised and filtered, cut to the scan
      limit. */
  function Candidates(settings: Settings, passing: seq<Listing>): (ls: seq<Listing>)
    ensures |ls| == Min(|passing|, settings.maxListingsPerScan) && ls == passing[..|ls|]
  {
    Text.Take(passing, settings.maxListingsPerScan)
  }

  /** What every way of ending a scan guarantees: the scan's row, and only it, is
      finished at `now` as completed or failed, with notified <= new <= min(found, limit);
      a completed scan resets the failure counter and alerts nobody, a failed one grows
      the counter, records its message and alerts from the third consecutive failure on;
      the queries are untouched. */
  predicate Finished(r: ScanResult, cog: Cog, before: Database, scanId: int, q: Query, settings: Settings, now: int)
    requires scanId in before.scans
  {
    && r.db.Valid() && r.scanId == scanId
    && r.db.scans.Keys == before.scans.Keys
    && (forall id :: id in before.scans && id != scanId ==> r.db.scans[id] == before.scans[id])
    && r.db.queries == before.queries
    && var s := r.db.scans[scanId];
       && s.queryId == before.scans[scanId].queryId && s.startedAt == before.scans[scanId].startedAt
       && s.finishedAt == Some(now)
       && (s.status == ScanStatus.Completed || s.status == ScanStatus.Failed)
       && s.listingsNotified <= s.listingsNew <= Min(s.listingsFound, settings.maxListingsPerScan)
       && (s.status == ScanStatus.Completed ==>
             r.cog == cog.(consecutiveFailures := 0) && r.alerts == [] && s.errorMessage.None?)
       && (s.status == ScanStatus.Failed ==>
             r.cog == cog.(consecutiveFailures := cog.consecutiveFailures + 1) && s.errorMessage.Some?
             && r.alerts == if r.cog.consecutiveFailures >= ConsecutiveFailureThreshold
                            then [ConsecutiveFailures(q.id, r.cog.consecutiveFailures)] else [])
  }

  /** `run_scan`. A new running scan row is written first. A failed page request, a
      failing filter, or an exception from the verifier or the direct message fails the
      scan; an empty feed completes it with zero counts; otherwise the filtered listings
      are examined and the scan completes with found = the filtered count and
      notified <= new <= min(found, limit). Only listings that pass the filter are ever
      marked seen. */
  function RunScan(b: Build, settings: Settings, cog: Cog, db: Database, q: Query, ports: Ports, now: int): (r: ScanResult)
    requires db.Valid() && ports.Valid()
    ensures r.db.Valid()
    ensures r.scanId !in db.scans && r.db.scans.Keys == db.scans.Keys + {r.scanId}
    ensures forall id :: id in db.scans ==> r.db.scans[id] == db.scans[id]
    ensures var s := r.db.scans[r.scanId];
            && s.queryId == q.id && s.startedAt == now && s.finishedAt == Some(now)
            && (s.status == ScanStatus.Completed || s.status == ScanStatus.Failed)
            && s.listingsNotified <= s.listingsNew <= Min(s.listingsFound, settings.maxListingsPerScan)
            && (s.status == ScanStatus.Completed ==> r.cog == cog.(consecutiveFailures := 0) && r.alerts == [] && s.errorMessage.None?)
            && (s.status == ScanStatus.Failed ==>
                  r.cog == cog.(consecutiveFailures := cog.consecutiveFailures + 1) && s.errorMessage.Some?
                  && (r.alerts != [] <==> cog.consecutiveFailures + 1 >= ConsecutiveFailureThreshold))
    ensures var feed := Feed(settings, ports.search);
            var s := r.db.scans[r.scanId];
            feed.error.None? && s.status == ScanStatus.Completed ==>
              s.listingsFound == |Filter.FilterListings(Parser.NormalizeListings(feed.items), q, now)|
    ensures var feed := Feed(settings, ports.search);
            r.db.seen.Keys <= db.seen.Keys + SeenKeys(q.id, Filter.FilterListings(Parser.NormalizeListings(feed.items), q, now))
    ensures r.db.queries == db.queries
  {
    var started := StartScan(db, q.id, now);
    ScanFeed(b, settings, cog, started.db, started.value, q, ports, now)
  }

  /** The part of a scan after its row is written: fetch, normalise, filter, examine. */
  function ScanFeed(b: Build, settings: Settings, cog: Cog, db: Database, scanId: int, q: Query,
                    ports: Ports, now: int): (r: ScanResult)
    requires db.Valid() && ports.Valid() && scanId in db.scans
    ensures Finished(r, cog, db, scanId, q, settings, now)
    ensures var feed := Feed(settings, ports.search);
            var s := r.db.scans[scanId];
            feed.error.None? && s.status == ScanStatus.Completed ==>
              s.listingsFound == |Filter.FilterListings(Parser.NormalizeListings(feed.items), q, now)|
    ensures var feed := Feed(settings, ports.search);
            r.db.seen.Keys <= db.seen.Keys + SeenKeys(q.id, Filter.FilterListings(Parser.NormalizeListings(feed.items), q, now))
  {
    var feed := Feed(settings, ports.search);
    if feed.error.Some? then Fail(cog, db, scanId, q, feed.error.value, now)
    else if |feed.items| == 0 then
      assert Parser.NormalizeListings(feed.items) == [];
      Complete(cog, db, scanId, 0, 0, 0, now)
    else
      var normalized := Parser.NormalizeListings(feed.items);
      match FilterStep(b, normalized, q, now)
      case Failure(e) => Fail(cog, db, scanId, q, e, now)
      case Success(passing) => ScanPassing(b, settings, cog, db, scanId, q, ports, now, passing)
  }

  /** The part of a scan after filtering: the listings that passed, cut to the limit, go
      through the loop, and the scan row is finished with their counts or failed with
      the exception that ended the loop. */
  function ScanPassing(b: Build, settings: Settings, cog: Cog, db: Database, scanId: int, q: Query,
                       ports: Ports, now: int, passing: seq<Listing>): (r: ScanResult)
    requires db.Valid() && ports.Valid() && scanId in db.scans
    ensures Finished(r, cog, db, scanId, q, settings, now)
    ensures r.db.scans[scanId].status == ScanStatus.Completed ==> r.db.scans[scanId].listingsFound == |passing|
    ensures r.db.seen.Keys <= db.seen.Keys + SeenKeys(q.id, passing)
  {
    var ls := Candidates(settings, passing);
    var start := Progress(db, 0, 0, 0, 0, 0, None);
    var p := ScanListings(b, settings, q, ports, now, ls, start);
    ScanMarksExamined(b, settings, q, ports, now, ls, start);
    ScanFrame(b, settings, q, ports, now, ls, start);
    ScanCounts(b, settings, q, ports, now, ls, start);
    SeenKeysOfPrefix(q.id, ls, p.examined, passing);
    Conclude(cog, db, scanId, q, settings, p, |passing|, now)
  }

  /** The end of a scan once the loop has run: failed with the loop's exception, or
      completed with `found` and the loop's counts. */
  function Conclude(cog: Cog, db: Database, scanId: int, q: Query, settings: Settings, p: Progress,
                    found: nat, now: int): (r: ScanResult)
    requires db.Valid() && p.db.Valid() && scanId in db.scans
    requires p.db.scans == db.scans && p.db.queries == db.queries
    requires p.notified <= p.newCount <= Min(found, settings.maxListingsPerScan)
    ensures Finished(r, cog, db, scanId, q, settings, now)
    ensures r.db.scans[scanId].status == ScanStatus.Completed <==> p.error.None?
    ensures p.error.None? ==>
              && r.db.scans[scanId].listingsFound == found
              && r.db.scans[scanId].listingsNew == p.newCount && r.db.scans[scanId].listingsNotified == p.notified
    ensures r.db.seen == p.db.seen
  {
    if p.error.Some? then Fail(cog, p.db, scanId, q, p.error.value, now)
    else Complete(cog, p.db, scanId, found, p.newCount, p.notified, now)
  }

  lemma SeenKeysOfPrefix(queryId: int, ls: seq<Listing>, n: nat, all: seq<Listing>)
    requires n <= |ls| <= |all| && ls == all[..|ls|]
    ensures SeenKeys(queryId, ls[..n]) <= SeenKeys(queryId, all)
  {
    forall k | k in SeenKeys(queryId, ls[..n]) ensures k in SeenKeys(queryId, all) {
      SeenKeysMembers(queryId, ls[..n], k);
      SeenKeysMembers(queryId, all, k);
      var l :| l in ls[..n] && l.id == k.listingId;
      assert l in all;
    }
  }

  /** `_run_query_job`: no scan for a query that is gone or disabled. */
  function RunQueryJob(b: Build, settings: Settings, cog: Cog, db: Database, id: int, ports: Ports, now: int): (r: Option<ScanResult>)
    requires db.Valid() && ports.Valid()
    ensures r.None? <==> !Schedulable(db, id)
    ensures r.Some? ==> r.value.scanId in r.value.db.scans && r.value.db.scans[r.value.scanId].queryId == id
  {
    match GetQuery(db, id)
    case None => None
    case Some(q) => if !q.enabled then None else Some(RunScan(b, settings, cog, db, q, ports, now))
  }

  /** `start`: every listed enabled query gets its job, then the maintenance jobs. */
  function Start(cog: Cog, db: Database, ids: seq<int>, jitter: int -> int): (r: Cog)
    ensures r.consecutiveFailures == cog.consecutiveFailures && r.lastAuthAlert == cog.lastAuthAlert
    ensures HealthCheckJob in r.jobs && CleanupJob in r.jobs && KeepAliveJob in r.jobs
    ensures forall id :: QueryJob(id) in r.jobs <==> QueryJob(id) in cog.jobs || (id in ids && Schedulable(db, id))
  {
    cog.(jobs := StartJobs(cog.jobs, db, ids, jitter))
  }

  // ---------------------------------------------------------------------------
  // Properties of a scan
  // ---------------------------------------------------------------------------

  /** A feed without listings completes the scan with zero counts and resets the
      failure counter. */
  lemma EmptyFeedCompletes(b: Build, settings: Settings, cog: Cog, db: Database, q: Query, ports: Ports, now: int)
    requires db.Valid() && ports.Valid()
    requires Feed(settings, ports.search).error.None? && Feed(settings, ports.search).items == []
    ensures var r := RunScan(b, settings, cog, db, q, ports, now);
            var s := r.db.scans[r.scanId];
            && s.status == ScanStatus.Completed
            && s.listingsFound == 0 && s.listingsNew == 0 && s.listingsNotified == 0
            && r.cog.consecutiveFailures == 0 && r.db.seen == db.seen
  {
    var started := StartScan(db, q.id, now);
    assert RunScan(b, settings, cog, db, q, ports, now) == ScanFeed(b, settings, cog, started.db, started.value, q, ports, now);
  }

  /** A failed page request fails the scan with the request's error. */
  lemma PageErrorFails(b: Build, settings: Settings, cog: Cog, db: Database, q: Query, ports: Ports, now: int)
    requires db.Valid() && ports.Valid()
    requires Feed(settings, ports.search).error.Some?
    ensures var r := RunScan(b, settings, cog, db, q, ports, now);
            var s := r.db.scans[r.scanId];
            && s.status == ScanStatus.Failed && s.errorMessage == Feed(settings, ports.search).error
            && r.db.seen == db.seen
  {
    var started := StartScan(db, q.id, now);
    assert RunScan(b, settings, cog, db, q, ports, now) == ScanFeed(b, settings, cog, started.db, started.value, q, ports, now);
  }

  /** As written, a query with exclude terms fails every scan in which some listing
      passes the price and include checks: the exclude check raises on it. */
  lemma ExcludeTermsFailScanAsWritten(settings: Settings, cog: Cog, db: Database, q: Query, ports: Ports, now: int)
    requires db.Valid() && ports.Valid()
    requires var feed := Feed(settings, ports.search);
             && feed.error.None? && |feed.items| > 0 && |q.excludeTerms| > 0
             && exists x <- Parser.NormalizeListings(feed.items) :: Filter.MatchesPriceFilter(x, q) && Filter.MatchesIncludeTerms(x, q)
    ensures var r := RunScan(AsWritten, settings, cog, db, q, ports, now);
            && r.db.scans[r.scanId].status == ScanStatus.Failed
            && r.cog.consecutiveFailures == cog.consecutiveFailures + 1
            && r.db.seen == db.seen
  {
    var started := StartScan(db, q.id, now);
    var feed := Feed(settings, ports.search);
    assert FilterStep(AsWritten, Parser.NormalizeListings(feed.items), q, now).Failure?;
    assert RunScan(AsWritten, settings, cog, db, q, ports, now)
        == ScanFeed(AsWritten, settings, cog, started.db, started.value, q, ports, now);
  }

  /** With the intended exclude check the filter never fails a scan: a scan of a feed
      that arrived fails only through the verifier or the direct message. */
  lemma FilterNeverFailsIntended(ls: seq<Listing>, q: Query, now: int)
    ensures FilterStep(Intended, ls, q, now) == Success(Filter.FilterListings(ls, q, now))
  {
  }

  /** The gate: with AI on and a result below the threshold, the listing is marked seen
      and nothing else happens. */
  lemma LowConfidenceSkipped(b: Build, q: Query, ports: Ports, now: int, l: Listing, p: Progress)
    requires p.db.Valid() && ports.Valid() && p.error.None?
    requires q.aiEnabled
    requires var o := Verifier.Verify(q, ports.reply(l.id), ports.loads);
             o.Verified? && o.result.confidence < q.aiThreshold
    ensures var r := Examine(b, q, ports, now, l, p);
            && r.db.notifications == p.db.notifications && r.created == p.created && r.notified == p.notified
            && r.error.None? && IsListingSeen(r.db, q.id, l.id)
  {
  }

  /** No verifier result is no reason to skip: the listing is notified. */
  lemma UnavailableVerifierStillNotifies(b: Build, q: Query, ports: Ports, now: int, l: Listing, p: Progress)
    requires p.db.Valid() && ports.Valid() && p.error.None?
    requires Verifier.Verify(q, ports.reply(l.id), ports.loads).Unavailable?
    ensures Examine(b, q, ports, now, l, p).created == p.created + 1
  {
  }

  /** As written, a listing that reached nobody is still marked sent and counted as
      notified: here the configured Discord user cannot be found and no push channel is set up. */
  lemma UndeliveredMarkedSent(q: Query, ports: Ports, now: int, l: Listing, p: Progress,
                              confidence: Option<real>, reason: Option<string>)
    requires p.db.Valid() && ports.Valid() && p.error.None?
    requires ports.lookup(l.id).UserMissing? && |ports.manager.enabledClients| == 0
    ensures var r := Deliver(AsWritten, q, ports, now, l, p, confidence, reason);
            && r.error.None? && r.notified == p.notified + 1
            && forall id :: id in r.db.notifications && id !in p.db.notifications ==>
                 r.db.notifications[id].status == NotificationStatus.Sent
  {
  }

  /** With the intended check, a notification is marked sent exactly when the direct
      message or some push channel delivered it; one that reached nobody stays pending
      and is not counted. */
  lemma UndeliveredStaysPending(q: Query, ports: Ports, now: int, l: Listing, p: Progress,
                                confidence: Option<real>, reason: Option<string>)
    requires p.db.Valid() && ports.Valid() && p.error.None?
    requires Send(q, ports, l, confidence, reason).Success?
    ensures var r := Deliver(Intended, q, ports, now, l, p, confidence, reason);
            var d := Send(q, ports, l, confidence, reason).value;
            && r.error.None?
            && (r.notified == p.notified + 1 <==> d.dmOk || true in d.channels.Values)
            && forall id :: id in r.db.notifications && id !in p.db.notifications ==>
                 (r.db.notifications[id].status == NotificationStatus.Sent <==> d.dmOk || true in d.channels.Values)
  {
  }

  /** Past the threshold every failure alerts again; the alert is not one-shot. */
  lemma FailureAlertRepeats(cog: Cog, db: Database, s1: int, s2: int, q: Query, m1: string, m2: string, t1: int, t2: int)
    requires db.Valid() && s1 in db.scans && cog.consecutiveFailures + 1 >= ConsecutiveFailureThreshold
    requires var first := Fail(cog, db, s1, q, m1, t1); s2 in first.db.scans
    ensures var first := Fail(cog, db, s1, q, m1, t1);
            var second := Fail(first.cog, first.db, s2, q, m2, t2);
            first.alerts == [ConsecutiveFailures(q.id, cog.consecutiveFailures + 1)]
            && second.alerts == [ConsecutiveFailures(q.id, cog.consecutiveFailures + 2)]
  {
  }
}
