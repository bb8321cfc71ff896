/** The `/query` commands that change what is watched: add, enable, disable and
    remove. Each writes the store and keeps the watcher's job table in step with it.
    The Discord interaction is reduced to the reply the command sends; the random
    jitter of a new job is a parameter. */
module Commands {
  import opened Wrappers
  import opened Text
  import opened Models
  import opened Store
  import opened Scheduler
  import Filter
  import Watcher

  /** What the commands act on: the store, and the watcher once the bot has started it. */
  datatype Bot = Bot(db: Database, watcher: Option<Watcher.Cog>)

  /** The reply a command sends. */
  datatype Reply =
    | BadInterval
    | Added(id: int, keyword: string)
    | NotFound(id: int)
    | Enabled(id: int)
    | Disabled(id: int)
    | Removed(id: int)

  /** The job table agrees with the store: a query has a job exactly when it exists and
      is enabled. A bot without a watcher has no jobs to keep in step. */
  ghost predicate Consistent(bot: Bot) {
    bot.watcher.Some? ==>
      forall id :: QueryJob(id) in bot.watcher.value.jobs <==> Schedulable(bot.db, id)
  }

  /** `[t.strip() for t in s.split(",")] if s else []`. */
  function SplitTerms(input: Option<string>): (terms: seq<string>)
    ensures input.None? || input == Some("") ==> terms == []
    ensures input.Some? && input.value != "" ==> |terms| == |Split(input.value, ',')| >= 1
    ensures forall i :: 0 <= i < |terms| ==> IsStripped(terms[i])
  {
    if input.None? || input.value == "" then []
    else
      var parts := Split(input.value, ',');
      var terms := seq(|parts|, i requires 0 <= i < |parts| => Strip(parts[i]));
      StripAllStripped(parts, terms);
      terms
  }

  lemma StripAllStripped(parts: seq<string>, terms: seq<string>)
    requires |terms| == |parts| && forall i :: 0 <= i < |parts| ==> terms[i] == Strip(parts[i])
    ensures forall i :: 0 <= i < |terms| ==> IsStripped(terms[i])
  {
    forall i | 0 <= i < |terms| ensures IsStripped(terms[i]) {
      StripIsSlice(parts[i]);
    }
  }

  /** Terms that are already trimmed and free of commas, joined with commas, split back
      into themselves. */
  lemma SplitTermsOfJoin(terms: seq<string>)
    requires |terms| >= 1 && Join(terms, ',') != ""
    requires forall i :: 0 <= i < |terms| ==> ',' !in terms[i] && IsStripped(terms[i])
    ensures SplitTerms(Some(Join(terms, ','))) == terms
  {
    SplitJoin(terms, ',');
    var r := SplitTerms(Some(Join(terms, ',')));
    forall i | 0 <= i < |terms| ensures r[i] == terms[i] {
      StripOfStripped(terms[i]);
    }
  }

  /** A trailing comma leaves an empty last term. */
  lemma TrailingCommaGivesEmptyTerm(s: string)
    ensures var terms := SplitTerms(Some(s + ","));
            |terms| >= 2 && terms[|terms| - 1] == ""
  {
    SplitAppend(s, ',', "");
    assert s + "," == s + [','] + "";
    assert Strip("") == "";
  }

  /** An exclude input with a trailing comma therefore rejects every listing: the empty
      term occurs in every title. */
  lemma TrailingCommaExcludesAll(s: string, q: Query, l: Listing, now: int)
    requires q.excludeTerms == SplitTerms(Some(s + ","))
    ensures !Filter.ApplyFilters(l, q, now)
  {
    TrailingCommaGivesEmptyTerm(s);
    Filter.EmptyExcludeTermRejectsAll(l, q, now);
  }

  /** `watcher.schedule_query(id)` when the bot has a watcher. */
  function Schedule(watcher: Option<Watcher.Cog>, db: Database, id: int, jitter: int): (r: Option<Watcher.Cog>)
    ensures r.Some? <==> watcher.Some?
    ensures r.Some? ==> r.value.jobs == ScheduleQuery(watcher.value.jobs, db, id, jitter)
                        && r.value.consecutiveFailures == watcher.value.consecutiveFailures
                        && r.value.lastAuthAlert == watcher.value.lastAuthAlert
  {
    match watcher
    case None => None
    case Some(cog) => Some(cog.(jobs := ScheduleQuery(cog.jobs, db, id, jitter)))
  }

  /** `watcher.unschedule_query(id)` when the bot has a watcher. */
  function Unschedule(watcher: Option<Watcher.Cog>, id: int): (r: Option<Watcher.Cog>)
    ensures r.Some? <==> watcher.Some?
    ensures r.Some? ==> r.value.jobs == UnscheduleQuery(watcher.value.jobs, id)
                        && r.value.consecutiveFailures == watcher.value.consecutiveFailures
                        && r.value.lastAuthAlert == watcher.value.lastAuthAlert
  {
    match watcher
    case None => None
    case Some(cog) => Some(cog.(jobs := UnscheduleQuery(cog.jobs, id)))
  }

  /** `/query add`. An interval other than 60, 180 or 360 is refused before anything is
      written. Otherwise the query is stored enabled with AI on, the comma-separated
      terms split and trimmed, and the new query is scheduled. */
  function Add(bot: Bot, keyword: string, includeText: Option<string>, excludeText: Option<string>,
               minPrice: Option<real>, maxPrice: Option<real>, interval: int, aiThreshold: real,
               jitter: int, now: int): (r: (Bot, Reply))
    requires bot.db.Valid()
    ensures r.0.db.Valid()
    ensures IntervalFromMinutes(interval).None? <==> r.1 == BadInterval
    ensures r.1 == BadInterval ==> r.0 == bot
    ensures r.1 != BadInterval ==>
              && r.1.Added? && r.1.keyword == keyword
              && r.1.id !in bot.db.queries && r.0.db.queries.Keys == bot.db.queries.Keys + {r.1.id}
              && (forall id :: id in bot.db.queries ==> r.0.db.queries[id] == bot.db.queries[id])
              && var q := r.0.db.queries[r.1.id];
                 && q.keyword == keyword && q.enabled && q.aiEnabled && q.aiThreshold == aiThreshold
                 && q.intervalMinutes == interval && q.minPrice == minPrice && q.maxPrice == maxPrice
                 && q.includeTerms == SplitTerms(includeText) && q.excludeTerms == SplitTerms(excludeText)
                 && (r.0.watcher.Some? ==>
                       QueryJob(r.1.id) in r.0.watcher.value.jobs &&
                       r.0.watcher.value.jobs[QueryJob(r.1.id)] == EveryMinutes(EffectiveInterval(interval, jitter)))
    ensures r.0.watcher.Some? <==> bot.watcher.Some?
  {
    if IntervalFromMinutes(interval).None? then (bot, BadInterval)
    else
      var added := AddQuery(bot.db, keyword, None, SplitTerms(includeText), SplitTerms(excludeText),
                            minPrice, maxPrice, interval, true, aiThreshold, now);
      assert Schedulable(added.db, added.value);
      (Bot(added.db, Schedule(bot.watcher, added.db, added.value, jitter)), Added(added.value, keyword))
  }

  /** `/query enable`: the flag is set and the query scheduled when it exists; a missing
      query is reported and nothing changes. */
  function Enable(bot: Bot, id: int, jitter: int, now: int): (r: (Bot, Reply))
    requires bot.db.Valid()
    ensures r.0.db.Valid()
    ensures id !in bot.db.queries <==> r == (bot, NotFound(id))
    ensures id in bot.db.queries ==>
              && r.1 == Enabled(id)
              && r.0.db.queries == bot.db.queries[id := bot.db.queries[id].(enabled := true, updatedAt := now)]
              && (r.0.watcher.Some? ==>
                    QueryJob(id) in r.0.watcher.value.jobs &&
                    r.0.watcher.value.jobs[QueryJob(id)] == EveryMinutes(EffectiveInterval(bot.db.queries[id].intervalMinutes, jitter)))
    ensures r.0.watcher.Some? <==> bot.watcher.Some?
  {
    var kwargs := map["enabled" := VBool(true)];
    assert "enabled" in kwargs.Keys * UpdatableColumns;
    var updated := UpdateQuery(bot.db, id, kwargs, now);
    if !updated.value then (bot, NotFound(id))
    else
      UpdateEnabledOnly(bot.db, id, true, now);
      assert Schedulable(updated.db, id);
      (Bot(updated.db, Schedule(bot.watcher, updated.db, id, jitter)), Enabled(id))
  }

  /** `/query disable`: the flag is cleared and the job removed when the query exists; a
      missing query is reported and nothing changes, not even the job table. */
  function Disable(bot: Bot, id: int, now: int): (r: (Bot, Reply))
    requires bot.db.Valid()
    ensures r.0.db.Valid()
    ensures id !in bot.db.queries <==> r == (bot, NotFound(id))
    ensures id in bot.db.queries ==>
              && r.1 == Disabled(id)
              && r.0.db.queries == bot.db.queries[id := bot.db.queries[id].(enabled := false, updatedAt := now)]
              && (r.0.watcher.Some? ==> QueryJob(id) !in r.0.watcher.value.jobs)
    ensures r.0.watcher.Some? <==> bot.watcher.Some?
  {
    var kwargs := map["enabled" := VBool(false)];
    assert "enabled" in kwargs.Keys * UpdatableColumns;
    var updated := UpdateQuery(bot.db, id, kwargs, now);
    if !updated.value then (bot, NotFound(id))
    else
      UpdateEnabledOnly(bot.db, id, false, now);
      (Bot(updated.db, Unschedule(bot.watcher, id)), Disabled(id))
  }

  /** `/query remove`: the job is removed first, whether or not the query exists; then
      the row is deleted, and a missing query is reported. */
  function Remove(bot: Bot, id: int): (r: (Bot, Reply))
    requires bot.db.Valid()
    ensures r.0.db.Valid()
    ensures r.1 == (if id in bot.db.queries then Removed(id) else NotFound(id))
    ensures r.0.db.queries == bot.db.queries - {id}
    ensures r.0.watcher == Unschedule(bot.watcher, id)
  {
    var watcher := Unschedule(bot.watcher, id);
    var deleted := DeleteQuery(bot.db, id);
    assert deleted.db.queries == bot.db.queries - {id};
    (Bot(deleted.db, watcher), if deleted.value then Removed(id) else NotFound(id))
  }

  /** `add` keeps the job table in step with the store. */
  lemma AddKeepsConsistent(bot: Bot, keyword: string, includeText: Option<string>,
                           excludeText: Option<string>, minPrice: Option<real>, maxPrice: Option<real>,
                           interval: int, aiThreshold: real, jitter: int, now: int)
    requires bot.db.Valid() && Consistent(bot)
    ensures Consistent(Add(bot, keyword, includeText, excludeText, minPrice, maxPrice, interval, aiThreshold, jitter, now).0)
  {
    var r := Add(bot, keyword, includeText, excludeText, minPrice, maxPrice, interval, aiThreshold, jitter, now);
    if r.1 != BadInterval && r.0.watcher.Some? {
      forall k ensures QueryJob(k) in r.0.watcher.value.jobs <==> Schedulable(r.0.db, k) {
        if k != r.1.id {
          assert Schedulable(r.0.db, k) <==> Schedulable(bot.db, k);
        }
      }
    }
  }

  /** `enable` keeps the job table in step with the store. */
  lemma EnableKeepsConsistent(bot: Bot, id: int, jitter: int, now: int)
    requires bot.db.Valid() && Consistent(bot)
    ensures Consistent(Enable(bot, id, jitter, now).0)
  {
    var r := Enable(bot, id, jitter, now);
    if id in bot.db.queries && r.0.watcher.Some? {
      forall k ensures QueryJob(k) in r.0.watcher.value.jobs <==> Schedulable(r.0.db, k) {
        if k != id {
          assert Schedulable(r.0.db, k) <==> Schedulable(bot.db, k);
        }
      }
    }
  }

  /** `disable` keeps the job table in step with the store. */
  lemma DisableKeepsConsistent(bot: Bot, id: int, now: int)
    requires bot.db.Valid() && Consistent(bot)
    ensures Consistent(Disable(bot, id, now).0)
  {
    var r := Disable(bot, id, now);
    if id in bot.db.queries && r.0.watcher.Some? {
      forall k ensures QueryJob(k) in r.0.watcher.value.jobs <==> Schedulable(r.0.db, k) {
        if k != id {
          assert Schedulable(r.0.db, k) <==> Schedulable(bot.db, k);
        }
      }
    }
  }

  /** `remove` keeps the job table in step with the store, whether or not the query
      existed. */
  lemma RemoveKeepsConsistent(bot: Bot, id: int)
    requires bot.db.Valid() && Consistent(bot)
    ensures Consistent(Remove(bot, id).0)
  {
    var r := Remove(bot, id);
    if r.0.watcher.Some? {
      forall k ensures QueryJob(k) in r.0.watcher.value.jobs <==> Schedulable(r.0.db, k) {
        if k != id {
          assert Schedulable(r.0.db, k) <==> Schedulable(bot.db, k);
        }
      }
    }
  }

  /** A watcher started with every enabled query listed is consistent with the store. */
  lemma StartIsConsistent(db: Database, ids: seq<int>, jitter: int -> int)
    requires forall i :: i in EnabledQueryIds(db) ==> i in ids
    ensures Consistent(Bot(db, Some(Watcher.Start(Watcher.NewCog, db, ids, jitter))))
  {
    forall id ensures QueryJob(id) in Watcher.Start(Watcher.NewCog, db, ids, jitter).jobs <==> Schedulable(db, id) {
      StartSchedulesEnabled(db, ids, jitter, id);
    }
  }
}
