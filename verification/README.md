# goofish-watcher: the decision core in Dafny

goofish-watcher is a Discord bot that watches the Goofish (Xianyu) second-hand marketplace.
A user registers watch queries: a keyword, include and exclude terms, a price range, an
interval and an AI relevance threshold. A scheduler runs each enabled query on its interval,
with a random jitter. One scan does the following:

- fetches result pages;
- normalises and filters the listings;
- skips listings already seen for that query, and stops after a streak of seen ones;
- asks an AI verifier whether a new listing is relevant;
- records a notification and sends it as a Discord direct message, then to the optional
  push channels (ntfy, Telegram, Bark, webhook).

Every scan is written to a `scans` table. A health check alerts on an expired login and on
a high failure rate. A cleanup job expires old seen-markers.

This project models that core as immutable datatypes and pure functions:

| module | models |
|---|---|
| `Models` | the enumerations, the records and the schema defaults |
| `Store` | the SQLite store as maps keyed by primary key, with id counters |
| `Filter` | the six filters, their conjunction, and the feed filter |
| `Parser` | normalisation of raw items into listings |
| `Parsers` | extraction from the marketplace's JSON: search items, ratings, seller age, reputation |
| `Scheduler` | the job table: one job per query, plus the maintenance jobs |
| `Verifier` | the request choice and the reading of the AI reply |
| `Notifier` | the embed, the direct message, and the push-channel record |
| `Notifications` | the channel manager's enabled subset and fan-out, and the message format |
| `Watcher` | the scan, the query job, `start`, the health check and the cleanup job |
| `Commands` | the `/query add`, `enable`, `disable` and `remove` commands |

`Text`, `Json` and `Wrappers` supply the Python string operations, a decoded-JSON tree, and
`Option`/`Result`.

The world outside the core is passed in as parameters (the `Ports` record of `Watcher`):

- the search pages, each either listings or a raised exception (see Left out on why the
  exception is more than the source's search produces);
- the verifier's HTTP reply and the JSON decoder;
- the Discord user lookup and the direct-message delivery, both per listing;
- what each push channel does;
- the jitter;
- the current time, in integer seconds.

Python exceptions are `Failure` values. They are caught where the source catches them.

The source has two defects that matter to a scan: the exclude filter and the "sent" check
(see Findings). The scan therefore takes a `Build` parameter. `AsWritten` keeps those two
defects. `Intended` corrects them. Neither build is the code exactly, because of the record
extension below.

Modelling choices:

- The consecutive-failure alert fires on every failure from the third on, as the health
  check does. It is not sent once.
- The filters and the notifier read fields that the `Query` and `Listing` records lack:
  `free_shipping`, `region` and `new_publish_hours` on queries; tags, publish time, original
  price, wants count and the seller fields on listings. The model deliberately gives both
  records these fields, with the defaults of tests/test_integration.py:175-181.
  `normalize_listing` leaves them at those defaults, and so does a query read from the
  store. The code as written instead raises `AttributeError` on them; see Left out.
- `delete_query` leaves the query's seen, notification and scan rows in place. The declared
  cascade never runs, because foreign keys are never enabled.

## Model

| member | source | states |
|---|---|---|
| Models.IntervalFromMinutes | db/models.py:6-9 | an interval exists exactly for 60, 180 and 360 minutes, and it carries that minute value |
| Models.IntervalRoundTrip | db/models.py:6-9 | every interval converts back to itself through its minute value |
| Models.ScanStatusFromValue | db/models.py:12-16 | a recognised stored value names the status whose value it is |
| Models.ScanStatusRoundTrip | db/models.py:12-16 | each of pending, running, completed and failed reads back as itself, so the four values are distinct |
| Models.NotificationStatusFromValue | db/models.py:19-22 | a recognised stored value names the notification status whose value it is |
| Models.NotificationStatusRoundTrip | db/models.py:19-22 | pending, sent and failed each read back as themselves |
| Models.StoredQuery | db/models.py:25-39 | a query built from stored columns has free shipping off, no region and no publish window |
| Models.DefaultScanRow | db/models.py:129-140 | a scan row inserted with only its query and start time is pending, with zero counts, no error and no finish time |
| Store.AddQuery | db/store.py:52-87 | a fresh id is inserted as an enabled query with the given keyword, terms and interval, created and updated now; other queries and tables are untouched |
| Store.AddQueryDefaults | db/store.py:52-63 | with only a keyword, the query has no description, terms or price bounds, a 60-minute interval, AI on at threshold 0.7, and is enabled |
| Store.UpdateQuery | db/store.py:102-132 | keys outside the ten updatable columns are dropped; with none left nothing is written and the answer is false; otherwise the answer is whether the row exists, and a written row takes the given columns and `updated_at` now; other rows and tables are untouched |
| Store.UpdateIgnoresOtherKeys | db/store.py:103-112 | updating with any arguments is updating with only those that name one of the ten updatable columns |
| Store.UpdateSetsGivenColumns | db/store.py:114-132 | after a successful update every updatable column given a value of its kind holds that value |
| Store.UpdateKeepsOtherColumns | db/store.py:124-132 | an update leaves every column it was not given unchanged, and the id and creation time too |
| Store.UpdateEnabledOnly | db/store.py:102-132 | updating only `enabled` on an existing query succeeds and changes only that flag and the update time |
| Store.DeleteQuery | db/store.py:134-137 | the row is removed, the answer is whether it existed, and the other tables keep the query's rows |
| Store.MarkListingSeen | db/store.py:158-177 | an upsert keyed by (query, listing): a new pair gets a row first and last seen now; an existing row only has its last-seen time moved; no other marker changes |
| Store.RetentionDays | db/store.py:187 | a missing or zero day count falls back to the default retention |
| Store.CleanupOldListings | db/store.py:186-193 | exactly the markers last seen before now minus the retention are deleted, and the count returned is how many were |
| Store.MarkedStaysSeen | db/store.py:158-193 | after marking, the pair is seen, and a later cleanup keeps it exactly when the marking time is within the retention window |
| Store.CleanupIdempotent | db/store.py:186-193 | a second cleanup at the same time deletes nothing and changes nothing |
| Store.CreateNotification | db/store.py:197-214 | a fresh id is inserted pending, unsent, with the given query, listing and AI data |
| Store.MarkNotificationSent | db/store.py:216-223 | whatever the prior status, the row becomes sent at now; the answer is whether it exists; no other row changes |
| Store.MarkSentTwice | db/store.py:216-223 | marking sent twice leaves the row sent with the second time |
| Store.StartScan | db/store.py:249-256 | a fresh scan row for the query is running, started now, unfinished, with zero counts and no error |
| Store.FinishScan | db/store.py:258-280 | the row's status, counts, error and finish time are set; the answer is whether it exists; no other scan changes |
| Store.RecentFailedIds | db/store.py:370-376 | the counted scans are exactly the failed ones started after the cut-off |
| Store.GetRecentFailures | db/store.py:370-376 | the failure count never exceeds the number of scans |
| Store.StartScanKeepsFailures | db/store.py:249-256 | starting a scan leaves the recent-failure count unchanged |
| Store.FailingRecentScanCounts | db/store.py:258-280 | failing a running scan that started inside the window raises the recent-failure count by exactly one |
| Store.CompletingScanKeepsFailures | db/store.py:258-280 | completing a running scan leaves the recent-failure count unchanged |
| Filter.MatchesExcludeTermsAsWritten | core/filter.py:20-24 | as written, the exclude check raises exactly when the exclude list is non-empty |
| Filter.ApplyFiltersAsWritten | core/filter.py:56-64 | the `and` chain raises exactly when price and include pass and exclude terms exist; without exclude terms it agrees with the intended conjunction |
| Filter.FiltersMeaning | core/filter.py:5-64 | a listing passes exactly when: its price is within the set bounds; every include term and no exclude term occurs in its title, ignoring case; it has the free-shipping tag if required; it is inside the publish window when both the window and its time are known; its location contains the region when both are non-empty |
| Filter.PriceBoundsInclusive | core/filter.py:5-10 | both bounds are inclusive and an unset bound admits every price |
| Filter.FilterListings | core/filter.py:67-68 | the result holds exactly the listings that pass, as an order-preserving subsequence of the feed, as many as pass |
| Filter.FilterListingsAsWritten | core/filter.py:67-68 | as written, the feed filter raises exactly when exclude terms exist and some listing passes price and include; when it does not raise it equals the intended filter |
| Filter.FilterIdempotent | core/filter.py:67-68 | filtering an already filtered feed changes nothing |
| Filter.FilterConcat | core/filter.py:67-68 | filtering a feed made of pages is filtering each page and concatenating |
| Filter.LowerIdempotent | core/filter.py:13-17 | lower-casing twice is lower-casing once |
| Filter.IncludeCaseInsensitive | core/filter.py:13-17 | writing the include terms in lower case does not change the verdict |
| Filter.EmptyExcludeTermRejectsAll | core/filter.py:20-24 | an empty exclude term occurs in every title, so every listing is rejected |
| Filter.AsWrittenFilterRaises | core/filter.py:20-24 | as written, one listing that reaches the exclude check makes the whole filter raise |
| Filter.AsWrittenAgreesWithoutExcludeTerms | core/filter.py:56-68 | without exclude terms, the filter as written returns the intended result |
| Filter.PriceScenario | tests/test_integration.py:104-122 | price 100 passes bounds 50 to 150 and fails a maximum of 80 |
| Filter.FreeShippingScenario | tests/test_integration.py:124-152 | with free shipping required, a listing tagged 包邮 passes and one without tags fails |
| Filter.RegionScenario | tests/test_integration.py:154-171 | region 上海 matches location 上海浦东新区 and region 北京 does not |
| Filter.PublishWindowInclusive | core/filter.py:35-45 | a listing exactly as old as the window passes, and one second older fails |
| Parser.NormalizeListing | core/parser.py:18-28 | the title is the raw title stripped; id, price, image, seller id and name, location and link are copied; the extension fields take their defaults |
| Parser.NormalizeListings | core/parser.py:31-32 | the result has the same length, with element i normalised from raw element i |
| Parser.NormalizedTitleIsStripped | core/parser.py:21 | a normalised title has no surrounding whitespace |
| Parser.NormalizeTitleIdempotent | core/parser.py:21 | normalising an already normalised listing leaves its title unchanged |
| Parser.NormalizeConcat | core/parser.py:31-32 | normalising a feed of pages is normalising each page |
| Parsers.CleanPrice | core/parsers.py:55-57 | the cleaned price text is non-empty, stripped, and free of ¥ and commas |
| Parsers.CleanPriceDropsLabel | core/parsers.py:55 | a leading 当前价 label does not change the cleaned price |
| Parsers.CleanPriceDropsYuan | core/parsers.py:55 | a leading ¥ does not change the cleaned price |
| Parsers.CleanPriceDropsComma | core/parsers.py:55 | a leading comma does not change the cleaned price |
| Parsers.CleanPriceKeepsPlain | core/parsers.py:55-57 | a non-empty stripped text with no ¥, no comma and no 当前价 is returned unchanged |
| Parsers.CleanPriceDropsInnerComma | core/parsers.py:56 | a thousands comma between two digit strings is removed and the digits are joined, so "1,299" cleans to "1299" |
| Parsers.CleanPriceDropsInnerYuan | core/parsers.py:56 | a ¥ between two digit strings is removed and the digits are joined |
| Parsers.LabelOnlyPriceIsZero | core/parsers.py:55-61 | a price that is only the 当前价 label cleans to "0" and is priced 0 |
| Parsers.TestPricePartsAreLabelOnly | tests/test_parsers.py:36 | the test price parts `[{"text": "当前价", "value": "9999"}]` read as the text 当前价, since only the text parts are joined |
| Parsers.PriceOf | core/parsers.py:58-61 | text without 万 that is not digits once dots are removed is priced 0; only text with 万, or digit text, can raise |
| Parsers.PriceOfFloat | core/parsers.py:58-61 | text with 万 is priced at `float` of the text with every 万 removed, times 10000; other text that is digits once dots are removed is priced at its `float`; either way the price raises exactly when that `float` does |
| Parsers.PriceOfDecimal | core/parsers.py:58-61 | a decimal text "<digits>.<digits>" is priced at its decimal value, and the same text followed by 万 at ten thousand times that |
| Parsers.PriceOfDigits | core/parsers.py:58-61 | a digit text is priced at its integer value |
| Parsers.PriceOfWan | core/parsers.py:58-59 | a digit count followed by 万 is priced at that count times 10000 |
| Parsers.NonNumericPriceIsZero | core/parsers.py:61 | a non-numeric text such as 面议 is priced 0 |
| Parsers.EmptyPriceIsZero | core/parsers.py:55-61 | an empty price text cleans to "0" and is priced 0 |
| Parsers.TagsOf | core/parsers.py:74-83 | only 包邮 and 验货宝 appear, and 包邮 appears exactly when the click tag is "freeship" |
| Parsers.InspectionTags | core/parsers.py:78-83 | at most one 验货宝 per r1 tag item, and nothing else |
| Parsers.TagContent | core/parsers.py:81 | reading `data.content` succeeds exactly when the item, and its `data` when present, are dicts; a present content is returned as is |
| Parsers.InspectionTagsCount | core/parsers.py:78-83 | the tags read exactly when every item's content can be tested for 验货宝, and then there is one 验货宝 per item whose content contains it |
| Parsers.InspectedCountPositive | core/parsers.py:82-83 | an item whose content contains 验货宝 makes the reference count positive |
| Parsers.InspectionTagFromContent | core/parsers.py:81-83 | when the tags read and some item's `data.content` is a string containing 验货宝, the tags contain 验货宝 |
| Parsers.TagsScenario | tests/test_integration.py:31-73 | click tag "freeship" and an r1 tag mentioning 验货宝 give both tags, 包邮 first |
| Parsers.DigitValue | core/parsers.py:86-88 | a value converts to a whole number exactly when its text is all digits |
| Parsers.PostTimeOf | core/parsers.py:85-90 | a publish time exists exactly when the value is truthy and all digits, and it is the millisecond value floor-divided by 1000 |
| Parsers.PostTimeOfNumber | core/parsers.py:85-90 | a positive numeric millisecond timestamp gives its floor division by 1000 |
| Parsers.PostTimeOfOther | core/parsers.py:85-90 | a value that is neither a string nor a non-negative integer gives no publish time |
| Parsers.DetailUrl | core/parsers.py:103 | the link rewrite succeeds exactly for a string link |
| Parsers.DetailUrlRewrite | core/parsers.py:103 | an app link becomes the web URL with the same path, and a link without the app scheme is kept |
| Parsers.ParseItem | core/parsers.py:36-109 | a parsed item came from an object, and its tags are only 包邮 and 验货宝 |
| Parsers.ParseItems | core/parsers.py:35-112 | the list parses exactly when every item does, giving one listing per item in order |
| Parsers.ParseSearchResults | core/parsers.py:28-116 | the listings of a response, or the empty list when anything raises |
| Parsers.MissingResultListIsEmpty | core/parsers.py:30-33 | a response without data, without a result list, or with an empty one parses to no listings |
| Parsers.OneBadItemEmptiesAll | core/parsers.py:114-116 | one item that raises empties the whole result |
| Parsers.GoodItemsAllKept | core/parsers.py:35-112 | when every item parses, every item is kept, in order |
| Parsers.CountCard | core/parsers.py:161-176 | one card adds at most one to the totals, never lowers them, and positives never exceed totals |
| Parsers.CountCards | core/parsers.py:161-176 | the totals grow by at most the number of cards, and positives never exceed totals |
| Parsers.SellerCardsCounted | core/parsers.py:161-176 | with only seller cards, the seller total grows by the number of cards and the positives by the cards rated 1 |
| Parsers.Rate | core/parsers.py:178-179 | a rate lies in 0 to 100, is 0 for no cards and 100 when all are positive |
| Parsers.RatingsOrRaise | core/parsers.py:152-189 | parsed ratings have positives within totals |
| Parsers.ParseRatings | core/parsers.py:152-201 | positives within totals, transactions the sum of both totals, a rate 0 when its total is 0, rates within 0 to 100, all zero when anything raises |
| Parsers.RatingsScenario | tests/test_integration.py:75-91 | three seller cards rated 1, 1 and -1 give total 3, positive 2 and rate 200/3 |
| Parsers.ParseUserHead | core/parsers.py:204-225 | the seller's age and names, or 0 days and empty names when anything raises |
| Parsers.RegDaysParsed | core/parsers.py:209-214 | a numeric age is read as it is, and a value that is not digits is 0 |
| Parsers.RegistrationText | core/parsers.py:234-241 | under a year the age is days followed by 天; a whole number of years is years followed by 年 |
| Parsers.RegistrationTextRoundTrip | core/parsers.py:234-241 | reading the registration text back gives the days, so no days are lost |
| Parsers.RegistrationTextTwoYears | tests/test_integration.py:93-99 | 730 days is shown as 2年 |
| Parsers.CalculateReputation | core/parsers.py:228-266 | the score is 0 without seller ratings and within 0 to 100 when the rate is; the text is the registration text; the other fields are passed through |
| Parsers.FullReputation | core/parsers.py:243-257 | an all-positive seller with at least 1000 transactions and ten years of age scores 100 |
| Scheduler.EffectiveInterval | bot/cogs/watcher.py:80-81 | the interval is at least 1, and is base plus jitter whenever that is at least 1 |
| Scheduler.IntervalWithinJitter | bot/cogs/watcher.py:80-81 | with jitter in [-J, J] and base - J >= 1, the interval lies in [base - J, base + J] |
| Scheduler.ScheduleQuery | bot/cogs/watcher.py:71-90 | a missing or disabled query changes nothing; otherwise the query has exactly one job with the jittered interval, and no other job changes |
| Scheduler.UnscheduleQuery | bot/cogs/watcher.py:92-96 | the query's job is gone, nothing else changes, and without a job nothing changes at all |
| Scheduler.ScheduleThenUnschedule | bot/cogs/watcher.py:71-96 | scheduling then unscheduling a query leaves the jobs as unscheduling alone would |
| Scheduler.RescheduleReplaces | bot/cogs/watcher.py:76-89 | scheduling twice leaves one job, with the second interval |
| Scheduler.ScheduleAll | bot/cogs/watcher.py:38-40 | every listed enabled query gets its jittered job, and every other job is kept as it was |
| Scheduler.StartJobs | bot/cogs/watcher.py:37-61 | after start, the health-check, cleanup and keep-alive jobs run every 6, 24 and 2 hours, and a query has a job exactly when it had one or is listed and enabled |
| Scheduler.StartSchedulesEnabled | bot/cogs/watcher.py:37-40 | starting from no jobs with the enabled queries listed, a query has a job exactly when it is enabled |
| Verifier.FetchImages | core/verifier.py:92-98 | only images that were fetched are sent, at most one per URL |
| Verifier.BuildRequest | core/verifier.py:86-116 | at most three images are sent, taken from the first three URLs, and the vision model is used exactly when at least one image was fetched |
| Verifier.TextFallback | core/verifier.py:100-106 | when none of the first three images can be fetched, the text model is used without images |
| Verifier.StripFence | core/verifier.py:141-145 | a reply that does not open with a fence is only stripped |
| Verifier.StripFenceRoundTrip | core/verifier.py:142-145 | a body wrapped in a fenced block, with any language tag, comes out unchanged |
| Verifier.StripFenceUnfenced | core/verifier.py:142-143 | text that is already stripped and has no fence is kept as it is |
| Verifier.FloatOf | core/verifier.py:150 | numbers convert to their value, and null, arrays and objects raise |
| Verifier.ReadVerdict | core/verifier.py:147-152 | missing fields default to not relevant, confidence 0 and an empty reason; a reply that is not an object raises |
| Verifier.ReadFullVerdict | core/verifier.py:148-152 | an object with all three fields is read as exactly those values |
| Verifier.ParseResponse | core/verifier.py:141-152 | a decode error exactly when the decoder rejects the de-fenced text; otherwise a result exactly when the fields can be read |
| Verifier.KeyOf | core/verifier.py:130 | a subscript by key finds the value of a present key, is a `KeyError` on a dict without it, and a `TypeError` on anything else |
| Verifier.FirstOf | core/verifier.py:130 | `[0]` is a `TypeError` exactly on a value that is not a list, string or dict; on a list it finds the first element, or is an `IndexError` when the list is empty |
| Verifier.EnvelopeContent | core/verifier.py:130 | `choices[0].message.content` is a `TypeError` when the body is not a dict, and a `KeyError`/`IndexError` when `choices` is missing or empty |
| Verifier.EnvelopeRoundTrip | core/verifier.py:130 | the content wrapped in a well-formed envelope is read back unchanged |
| Verifier.EnvelopeTypeErrors | core/verifier.py:130-139 | a null or list body, and `choices` that is null, a number, a boolean or a non-empty string, raise a `TypeError`, which the handlers do not catch |
| Verifier.Verify | core/verifier.py:59-139 | with AI off, relevant with confidence 1 and no request; a transport error, a body that is not JSON, or a `KeyError`/`IndexError` in the envelope gives no result; a `TypeError` in the envelope, or content that is not text, raises |
| Verifier.VerifyWithImages | core/verifier.py:59-139 | with AI off, no request; otherwise the request is the one built from the images; a transport, non-JSON, `KeyError`/`IndexError` envelope or decode error gives no result, a `TypeError` envelope or non-text content raises, and text content is parsed |
| Verifier.FencedReplyRead | core/verifier.py:125-152 | a fenced reply holding all three fields gives exactly those values as the result |
| Notifications.DefaultClient | core/notifications/__init__.py:6-10 | a client built without a flag is disabled |
| Notifications.ClassNameInjective | core/notifications/manager.py:36 | two channels have the same class name exactly when they are the same channel |
| Notifications.EnabledOf | core/notifications/manager.py:21 | the enabled subset holds exactly the enabled clients, and is no longer than the list |
| Notifications.NewManager | core/notifications/manager.py:14-21 | one client per channel in the order ntfy, Telegram, Bark, webhook, each enabled when configured; the enabled subset is fixed at construction |
| Notifications.Recorded | core/notifications/manager.py:37-41 | an exception is recorded as false, and a returned value unchanged |
| Notifications.ClientSend | core/notifications/__init__.py:9-14 | a disabled client reports false, and an enabled one does what its channel does |
| Notifications.Collect | core/notifications/manager.py:34-43 | one entry per client, keyed by class name, holding that client's recorded outcome |
| Notifications.SendToAll | core/notifications/manager.py:26-43 | nothing without enabled clients; otherwise exactly one entry per enabled client, keyed by class name, holding what that client alone did |
| Notifications.SendToAllByChannel | core/notifications/manager.py:14-43 | a channel has an entry exactly when it is configured, and the entry is its own outcome |
| Notifications.FailureIsIsolated | core/notifications/manager.py:31-41 | a channel that raises changes its own entry to false and no other entry |
| Notifications.FormatMessage | core/notifications/__init__.py:16-21 | title, price text and link from the record, with "N/A", "N/A" and "#" when missing, and the reason unchanged |
| Notifications.FormatEmptyRecord | core/notifications/__init__.py:16-21 | an empty record formats to the placeholders |
| Notifier.PriceField | core/notifier.py:56-59 | the price is shown, with the original price exactly when it is non-empty and not 暂无 |
| Notifier.RegistrationShortMatchesText | core/notifier.py:73-78 | the embed's age equals the full registration text exactly when under a year or a whole number of years |
| Notifier.RegistrationShortReadsBack | core/notifier.py:73-78 | the embed's age reads back as the days under a year, and as the whole years' days from a year on |
| Notifier.Shown | core/notifier.py:64-90 | the added fields come only from shown candidates, and none are added when none is shown |
| Notifier.ShownHasName | core/notifier.py:64-90 | among distinctly named candidates, a name is present exactly when its candidate is shown |
| Notifier.OptionalFields | core/notifier.py:64-90 | seven optional fields with distinct names |
| Notifier.FixedFields | core/notifier.py:56-62 | every embed starts with Price, Location and Query |
| Notifier.BuildEmbed | core/notifier.py:50-95 | the title is the first 256 characters, linked to the listing; price and location come first (Unknown for no location), then the query; a thumbnail exactly when there is an image; the seller in the footer |
| Notifier.EmbedOptionalFields | core/notifier.py:64-90 | each optional field appears exactly when its value is present (the reason non-empty, the numbers positive, the tags non-empty) |
| Notifier.OptionalHasName | core/notifier.py:64-90 | an optional field is in the embed exactly when it is shown |
| Notifier.ReasonFieldCut | core/notifier.py:69-70 | the reason is shown cut to 100 characters, not inline |
| Notifier.TagsFieldCut | core/notifier.py:88-90 | at most the first five tags are shown, joined with commas |
| Notifier.PlainListingEmbed | core/notifier.py:50-95 | a listing straight from the feed, without AI data, has only the three fixed fields |
| Notifier.SendDiscordDm | core/notifier.py:31-105 | a user that cannot be obtained gives false and no embed; otherwise the embed is built and the answer is true exactly on delivery; only an unexpected send exception escapes |
| Notifier.ProductData | core/notifier.py:107-119 | the record handed to the channels has exactly the ten listed keys |
| Notifier.ChannelMessage | core/notifier.py:107-121 | a channel shows the full title, the display price, the link and the reason (empty when none) |
| Notifier.SendListing | core/notifier.py:18-29 | the channels are tried whatever the direct message did; only an escaping direct-message exception fails the call; the DM answer is true exactly on delivery |
| Notifier.ChannelsIndependentOfDm | core/notifier.py:25-29 | the channel results are the same whether or not the direct message went out |
| Watcher.HealthCheck | bot/cogs/watcher.py:104-122 | the login alert is sent only on the first failing check since a good one; the flag records the last check; a failure-rate alert exactly when the last hour holds at least three failed scans |
| Watcher.AuthAlertOnce | bot/cogs/watcher.py:107-113 | a login that stays expired is reported once |
| Watcher.AuthAlertAfterRecovery | bot/cogs/watcher.py:107-115 | after a good check, the next failing check reports again |
| Watcher.RunCleanupJob | bot/cogs/watcher.py:124-127 | the cleanup keeps exactly the markers within the configured retention |
| Watcher.FetchPages | bot/cogs/watcher.py:151-164 | pages are requested while under the listing limit and within the page limit; every page before the last requested is non-empty; an early stop is an empty page or a raised request |
| Watcher.Feed | bot/cogs/watcher.py:151-164 | at most max // 50 + 1 pages are requested |
| Watcher.EmptyFirstPage | bot/cogs/watcher.py:161-162 | an empty first page ends the feed with no listings and no error |
| Watcher.Record | bot/cogs/watcher.py:221-223 | the notification is marked sent exactly when the build's "sent" check holds; nothing else changes |
| Watcher.Send | bot/cogs/watcher.py:214-219 | sending fails exactly when the user is found and the direct message raises |
| Watcher.Deliver | bot/cogs/watcher.py:207-223 | one new pending notification for the listing and the query; the notified count grows by one exactly when the build counts it delivered; a direct-message exception ends the scan |
| Watcher.Decide | bot/cogs/watcher.py:200-223 | a verifier exception ends the scan; a result below the threshold with AI on skips the listing; anything else creates one notification |
| Watcher.Examine | bot/cogs/watcher.py:189-223 | an unseen listing is marked seen before verification, and at most one notification is created |
| Watcher.SeenKeysMembers | bot/cogs/watcher.py:180-198 | a marker key is among a list's keys exactly when it is for the query and names a listing of the list |
| Watcher.Step | bot/cogs/watcher.py:180-223 | a seen listing grows the streak and stops the loop at the limit; an unseen one resets it, counts as new, and stops the loop only on an exception |
| Watcher.ScanListings | bot/cogs/watcher.py:179-223 | at most the given listings are taken, and the loop ends early only on an exception or a full streak |
| Watcher.ScanMarksExamined | bot/cogs/watcher.py:179-198 | the markers added are exactly those of the listings taken from the list |
| Watcher.ScanFrame | bot/cogs/watcher.py:179-223 | the loop leaves queries and scans alone and only adds notifications for the scanned query |
| Watcher.ScanCounts | bot/cogs/watcher.py:174-223 | notified <= created <= new <= examined, and as written every created notification is counted as notified |
| Watcher.AllSeenStops | bot/cogs/watcher.py:182-187 | when every listing is already seen, nothing changes and the loop stops after exactly the remaining streak (or at the end) |
| Watcher.FilterStep | bot/cogs/watcher.py:172 | a filter that succeeds gives the intended result, and the intended build never fails there |
| Watcher.Complete | bot/cogs/watcher.py:225-232 | the scan row alone is completed with its counts at now, the failure counter is reset, and nobody is alerted |
| Watcher.Fail | bot/cogs/watcher.py:238-245 | the scan row alone is failed with the message and zero counts, the counter grows, and an alert is sent from the third consecutive failure on |
| Watcher.Candidates | bot/cogs/watcher.py:179 | the examined listings are the passing ones cut to the scan limit |
| Watcher.RunScan | bot/cogs/watcher.py:146-245 | one new scan row for the query, started and finished now, completed or failed; notified <= new <= min(found, limit); found is the filtered count; only passing listings are ever marked; completion resets the counter, failure grows it and alerts from the third on; queries are untouched |
| Watcher.ScanFeed | bot/cogs/watcher.py:150-232 | after the row is written: fetch, normalise, filter and examine, ending in a finished row with found the filtered count |
| Watcher.ScanPassing | bot/cogs/watcher.py:174-232 | the passing listings are examined and the row finished with found equal to their number; only they are marked |
| Watcher.Conclude | bot/cogs/watcher.py:225-245 | the row is completed exactly when the loop ended without an exception, with the loop's counts |
| Watcher.RunQueryJob | bot/cogs/watcher.py:98-102 | no scan for a missing or disabled query; otherwise a scan of that query |
| Watcher.Start | bot/cogs/watcher.py:37-64 | the maintenance jobs are present, and a query has a job exactly when it had one or is listed and enabled; the counters are untouched |
| Watcher.EmptyFeedCompletes | bot/cogs/watcher.py:166-169 | a feed without listings completes the scan with zero counts, resets the counter and marks nothing |
| Watcher.PageErrorFails | bot/cogs/watcher.py:155-164 | a raised page request fails the scan with that error and marks nothing |
| Watcher.ExcludeTermsFailScanAsWritten | core/filter.py:23 | as written, a query with exclude terms fails every scan in which a listing passes price and include |
| Watcher.FilterNeverFailsIntended | bot/cogs/watcher.py:172 | with the intended exclude check, filtering always succeeds with the filtered feed |
| Watcher.LowConfidenceSkipped | bot/cogs/watcher.py:200-205 | with AI on and a result below the threshold, the listing is marked seen and nothing else happens |
| Watcher.UnavailableVerifierStillNotifies | bot/cogs/watcher.py:200-212 | a missing verifier result does not skip the listing: a notification is created |
| Watcher.UndeliveredMarkedSent | bot/cogs/watcher.py:214-223 | as written, a listing that reached nobody is still marked sent and counted |
| Watcher.UndeliveredStaysPending | bot/cogs/watcher.py:214-223 | intended: a notification is marked sent and counted exactly when the direct message or some channel delivered it |
| Watcher.FailureAlertRepeats | bot/cogs/watcher.py:241-245 | past the threshold, every further failure alerts again with the new count |
| Commands.SplitTerms | bot/commands/query.py:46-47 | no or empty input gives no terms; otherwise one trimmed term per comma-separated part |
| Commands.SplitTermsOfJoin | bot/commands/query.py:46-47 | trimmed, comma-free terms joined with commas split back into themselves |
| Commands.TrailingCommaGivesEmptyTerm | bot/commands/query.py:47 | a trailing comma leaves an empty last term |
| Commands.TrailingCommaExcludesAll | core/filter.py:20-24 | exclude input with a trailing comma rejects every listing |
| Commands.Schedule | bot/commands/query.py:59-60 | with a watcher, the query is scheduled and the counters are kept; without one nothing happens |
| Commands.Unschedule | bot/commands/query.py:105-106 | with a watcher, the query's job is removed and the counters are kept |
| Commands.Add | bot/commands/query.py:29-62 | an interval other than 60, 180 or 360 is refused with nothing written; otherwise a new enabled query with AI on, the split terms, the given prices and threshold is stored and scheduled with the jittered interval |
| Commands.Enable | bot/commands/query.py:82-93 | a missing query is reported and nothing changes; otherwise the flag is set and the query scheduled |
| Commands.Disable | bot/commands/query.py:97-108 | a missing query is reported and nothing changes, not even the jobs; otherwise the flag is cleared and the job removed |
| Commands.Remove | bot/commands/query.py:112-123 | the job is removed first, whether or not the query exists; the row is deleted, and a missing one reported |
| Commands.AddKeepsConsistent | bot/commands/query.py:49-60 | after `add`, a query has a job exactly when it exists and is enabled |
| Commands.EnableKeepsConsistent | bot/commands/query.py:85-91 | after `enable`, a query has a job exactly when it exists and is enabled |
| Commands.DisableKeepsConsistent | bot/commands/query.py:100-106 | after `disable`, a query has a job exactly when it exists and is enabled |
| Commands.RemoveKeepsConsistent | bot/commands/query.py:115-118 | after `remove`, a query has a job exactly when it exists and is enabled |
| Commands.StartIsConsistent | bot/cogs/watcher.py:37-40 | a watcher started with every enabled query listed has a job for exactly the enabled queries |

## Left out

- core/scanner.py (browser automation, cookies, sleeps) is not part of this model. A search is a parameter returning a page of raw listings or an exception.
- Watcher.PageErrorFails: the search port may raise, which over-approximates the source. Its `search` catches every exception and returns an empty page (core/scanner.py:259-261), so a raised page is a case the real search never produces; the lemma states what the scan's own handler would do with one.
- The extended `Query` and `Listing` fields are a deliberate departure from the code. As written, the free-shipping filter reads `query.free_shipping` (core/filter.py:28) and the notifier reads `listing.original_price` and `listing.seller_rating` (core/notifier.py:57, 116), which the records lack; each raises `AttributeError`, so every scan that reaches such a filter or a passing listing fails. The model gives the records those fields instead, so `Build.AsWritten` is the code with only this departure.
- The Discord user lookup is a parameter per listing id, because the notifier calls `fetch_user` once per listing (core/notifier.py:39); two listings of one scan may see different lookups.
- Filter.PublishWindowInclusive: the publish time is counted in seconds, while the scanner formats it to the minute (core/scanner.py:247) and the filter parses it back at that precision (core/filter.py:43). "One second older fails" is finer than the source can tell apart; only whole minutes reach the filter.
- Json.Str: Python's `str` of a list or dict (its full repr) is rendered as a placeholder, and floats are always positional, while Python switches to exponent form from 1e16 up and below 1e-4. So a dict price such as `{"text": "1.5万"}` cleans to a text without 万 and is priced 0, where Python's text keeps the 万, `float` raises and the whole response becomes empty; and a non-string AI reason is stored as the placeholder rather than its repr.
- Text.ParseFloat: only decimal literals with an optional sign are accepted. Python's `float` also accepts exponents ("1e1", so "1e1万" is 100000.0), "inf", "nan" and digit-group underscores ("1_0"); the model rejects those, and its reals cannot hold infinities or NaN.
- Parsers.ParseItem: inherits the `Json.Str` and `Text.ParseFloat` gaps. A list or dict price is priced 0 and kept where Python may raise, and an exponent price raises where Python converts it.
- Parsers.ParseSearchResults: inherits the same gaps. A response whose only raising item has a dict price with 万 keeps its listings, where Python returns the empty list.
- Verifier.FloatOf: a confidence string "1e-1", "inf" or "1_0" raises in the model, where Python converts it.
- The concrete ntfy, Telegram, Bark and webhook clients are not part of this model. Each channel's `send` is a parameter returning a value or an exception. The webhook client's templated path reads an undefined name and so always returns false; the parameter can express that, but the model does not single it out.
- bot/main.py and config.py (bootstrap, logging, environment) are not modelled. The settings the scan reads are a record passed in; the model fixes none of their values.
- The `list` and `test` query commands, and the logs, stats and alert commands, are Discord presentation and log-file I/O. They are not modelled.
- Concurrency is not modelled: the scheduler's timers, the manager's concurrent gather, the browser lock. Everything is sequential, and the manager's results are collected in client order.
- Floating point is modelled with exact reals. Number formatting (`,.2f`, percentages, `.0f`) is kept symbolic in the embed and in the channel record. The reputation score's `round(…, 2)` is not applied.
- Time is integer seconds, with `now` as a parameter. ISO timestamps, and the local-time vs UTC mismatch between the scanner and the publish-time filter, are left out.
- The verifier's prompt text and the request payload's model names, temperature and token limit are not modelled. Neither is the keep-alive job, which only calls the browser client.
- A failing health-alert send is swallowed by the source, so alerts are modelled as a list of alerts sent. Their Discord delivery is not modelled.
- The `parse_detail_json` parser is outside the scanned core and is not modelled.
- The JSON encoding of term lists in the store is assumed to round-trip. The SQL text is not modelled.
- Python's `lower`, `strip` and `isdigit` are modelled for ASCII letters, Python's whitespace set, and ASCII digits. Unicode case folding and non-ASCII digits are not modelled.
- The scan calls the verifier without image URLs, as the source does, so the scan uses `Verifier.Verify`. The image path is `Verifier.VerifyWithImages`.
- The jitter is a parameter: a number per call, or a function of the query id for `start`. Its random draw from [-J, J] appears only as the precondition of `Scheduler.IntervalWithinJitter`.
- Store.AddQuery: the contract does not restate the description, price, AI-flag and threshold columns. `Commands.Add` states the ones the command sets.
- Models.ScanStatusFromValue: states one direction only. The converse is `Models.ScanStatusRoundTrip`.
- Models.NotificationStatusFromValue: states one direction only. The converse is `Models.NotificationStatusRoundTrip`.
- Store.GetRecentFailures: states only a bound. Its meaning is stated through `Store.RecentFailedIds` and the lemmas `Store.StartScanKeepsFailures`, `Store.FailingRecentScanCounts` and `Store.CompletingScanKeepsFailures`.
- Verifier.StripFence: states only the unfenced case. The fenced case is stated by `Verifier.StripFenceRoundTrip`.
- Notifications.ClientSend: the disabled client's `False` comes from the concrete clients, which are not part of this model.

## Findings

| source | as written | input that shows it | evidently intended | confidence | as-written member | corrected member |
|---|---|---|---|---|---|---|
| core/filter.py:23 | the exclude check lower-cases the listing object, which has no such method, so it raises | any query with an exclude term, and a listing passing the price and include checks: the scan fails | compare the terms with the lower-cased title, as the include check does | not executed | Filter.FilterListingsAsWritten | Filter.FilterListings |
| bot/cogs/watcher.py:221 | `send_listing` returns a pair, which is always true, so every notification is marked sent and counted | a Discord user that cannot be found and no push channel configured: nothing is delivered, yet the notification is marked sent. As written this stays hidden, because the push-channel record reads `listing.seller_rating` first and raises (core/notifier.py:116); it shows once the records carry the extended fields, as in this model | mark sent only when the direct message or some channel delivered it | not executed | Watcher.UndeliveredMarkedSent | Watcher.UndeliveredStaysPending |

The scan uses the as-written behaviour under `Build.AsWritten`, shown by
`Watcher.ExcludeTermsFailScanAsWritten` and `Watcher.UndeliveredMarkedSent`. It uses the
corrected behaviour under `Build.Intended`, shown by `Watcher.FilterNeverFailsIntended` and
`Watcher.UndeliveredStaysPending`. The rest of the model (the filter, and the commands'
trailing-comma lemma) uses the corrected title-based exclude check.
