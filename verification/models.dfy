/** Records and enumerations of the watcher: queries, listings, seen-markers,
    notifications and scans, with the schema's defaults. Timestamps are integer
    seconds; prices and confidences are exact reals. */
module Models {
  import opened Wrappers

  /** The three scan intervals a query may be created with (minutes). */
  datatype QueryInterval = Fast | Normal | Slow {
    function Minutes(): int {
      match this
      case Fast => 60
      case Normal => 180
      case Slow => 360
    }
  }

  /** `QueryInterval(m)`: the member whose value is `m`, if any. */
  function IntervalFromMinutes(m: int): (r: Option<QueryInterval>)
    ensures r.Some? ==> r.value.Minutes() == m
    ensures r.None? <==> (m != 60 && m != 180 && m != 360)
  {
    if m == 60 then Some(Fast) else if m == 180 then Some(Normal) else if m == 360 then Some(Slow) else None
  }

  /** Every interval converts back to itself through its minute value. */
  lemma IntervalRoundTrip(i: QueryInterval)
    ensures IntervalFromMinutes(i.Minutes()) == Some(i)
  {
  }

  /** Status of a scan; the column stores `Value()`. */
  datatype ScanStatus = Pending | Running | Completed | Failed {
    function Value(): string {
      match this
      case Pending => "pending"
      case Running => "running"
      case Completed => "completed"
      case Failed => "failed"
    }

    predicate IsTerminal() {
      Completed? || Failed?
    }
  }

  /** `ScanStatus(value)`; `None` stands for the ValueError of an unknown value. */
  function ScanStatusFromValue(v: string): (r: Option<ScanStatus>)
    ensures r.Some? ==> r.value.Value() == v
  {
    if v == "pending" then Some(ScanStatus.Pending)
    else if v == "running" then Some(ScanStatus.Running)
    else if v == "completed" then Some(ScanStatus.Completed)
    else if v == "failed" then Some(ScanStatus.Failed)
    else None
  }

  /** Reading back a stored scan status gives the same status: the four values are
      distinct, so a status is exactly one of them. */
  lemma ScanStatusRoundTrip(s: ScanStatus)
    ensures ScanStatusFromValue(s.Value()) == Some(s)
  {
  }

  /** Status of a notification; the column stores `Value()`. */
  datatype NotificationStatus = Pending | Sent | Failed {
    function Value(): string {
      match this
      case Pending => "pending"
      case Sent => "sent"
      case Failed => "failed"
    }
  }

  /** `NotificationStatus(value)`; `None` stands for the ValueError of an unknown value. */
  function NotificationStatusFromValue(v: string): (r: Option<NotificationStatus>)
    ensures r.Some? ==> r.value.Value() == v
  {
    if v == "pending" then Some(NotificationStatus.Pending)
    else if v == "sent" then Some(NotificationStatus.Sent)
    else if v == "failed" then Some(NotificationStatus.Failed)
    else None
  }

  lemma NotificationStatusRoundTrip(s: NotificationStatus)
    ensures NotificationStatusFromValue(s.Value()) == Some(s)
  {
  }

  /** A watch query. The last three fields are read by the filter pipeline but are not
      columns of the store; a query read from the store carries their defaults. */
  datatype Query = Query(
    id: int,
    keyword: string,
    description: Option<string>,
    includeTerms: seq<string>,
    excludeTerms: seq<string>,
    minPrice: Option<real>,
    maxPrice: Option<real>,
    intervalMinutes: int,
    aiEnabled: bool,
    aiThreshold: real,
    enabled: bool,
    createdAt: int,
    updatedAt: int,
    freeShipping: bool,
    region: Option<string>,
    newPublishHours: Option<int>)

  // Schema defaults of the queries table.
  const DefaultIntervalMinutes: int := 60
  const DefaultAiEnabled: bool := true
  const DefaultAiThreshold: real := 0.7

  // Defaults of the fields the store does not hold.
  const DefaultFreeShipping: bool := false
  const DefaultRegion: Option<string> := None
  const DefaultNewPublishHours: Option<int> := None

  /** A query as the store's row mapping builds it: the stored columns, with the
      fields the store lacks at their defaults. */
  function StoredQuery(
    id: int, keyword: string, description: Option<string>,
    includeTerms: seq<string>, excludeTerms: seq<string>,
    minPrice: Option<real>, maxPrice: Option<real>,
    intervalMinutes: int, aiEnabled: bool, aiThreshold: real, enabled: bool,
    createdAt: int, updatedAt: int): (q: Query)
    ensures !q.freeShipping && q.region.None? && q.newPublishHours.None?
  {
    Query(id, keyword, description, includeTerms, excludeTerms, minPrice, maxPrice,
          intervalMinutes, aiEnabled, aiThreshold, enabled, createdAt, updatedAt,
          DefaultFreeShipping, DefaultRegion, DefaultNewPublishHours)
  }

  /** The tag a listing with free shipping carries. */
  const FreeShippingTag: string := "包邮"

  /** A normalised marketplace item. The fields after `detailUrl` are optional
      extensions read by the filters and the notifier. */
  datatype Listing = Listing(
    id: string,
    title: string,
    price: real,
    imageUrl: string,
    sellerId: string,
    sellerName: string,
    location: string,
    detailUrl: string,
    tags: seq<string>,
    postTime: Option<int>,
    originalPrice: Option<string>,
    wantsCount: Option<int>,
    sellerRating: real,
    sellerRegistrationDays: int,
    reputationScore: real)

  /** An item as the search port returns it. */
  datatype RawListing = RawListing(
    id: string,
    title: string,
    price: real,
    imageUrl: string,
    sellerId: string,
    sellerName: string,
    location: string,
    postTime: Option<int>,
    detailUrl: string,
    originalPrice: Option<string>,
    wantsCount: Option<int>,
    tags: seq<string>)

  /** Dedup marker for one (query, listing) pair, with a snapshot of the listing. */
  datatype ListingSeen = ListingSeen(
    queryId: int,
    listingId: string,
    title: string,
    price: real,
    sellerId: string,
    firstSeenAt: int,
    lastSeenAt: int)

  datatype Notification = Notification(
    queryId: int,
    listingId: string,
    status: NotificationStatus,
    aiRelevance: Option<real>,
    aiReason: Option<string>,
    sentAt: Option<int>,
    createdAt: int)

  datatype Scan = Scan(
    queryId: int,
    status: ScanStatus,
    listingsFound: int,
    listingsNew: int,
    listingsNotified: int,
    errorMessage: Option<string>,
    startedAt: int,
    finishedAt: Option<int>)

  /** A scans row as inserted with only its query and start time: every other column
      at its schema default (status pending, counts 0, no error, not finished). */
  function DefaultScanRow(queryId: int, startedAt: int): (s: Scan)
    ensures s.status == ScanStatus.Pending && s.listingsFound == 0 && s.listingsNew == 0 && s.listingsNotified == 0
    ensures s.errorMessage.None? && s.finishedAt.None?
  {
    Scan(queryId, ScanStatus.Pending, 0, 0, 0, None, startedAt, None)
  }
}
