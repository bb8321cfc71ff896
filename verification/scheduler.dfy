/** The watcher's job table: one interval job per scheduled query and three periodic
    maintenance jobs, keyed by job id. The timer that fires the jobs is not modelled;
    the random jitter of a query's interval is a parameter. */
module Scheduler {
  import opened Wrappers
  import opened Models
  import opened Store

  const HealthCheckIntervalHours: int := 6
  const CleanupIntervalHours: int := 24
  const KeepAliveIntervalHours: int := 2

  /** A job id: `query_<id>` for a query's scan, or one of the maintenance jobs. Distinct
      queries have distinct ids. */
  datatype JobKey = QueryJob(queryId: int) | HealthCheckJob | CleanupJob | KeepAliveJob

  datatype Trigger = EveryMinutes(minutes: int) | EveryHours(hours: int)

  /** The scheduler's jobs. A map holds at most one job per id, as `replace_existing`
      guarantees. */
  type Jobs = map<JobKey, Trigger>

  /** The interval a query is scheduled with: its own interval moved by the jitter, but at
      least one minute. */
  function EffectiveInterval(base: int, jitter: int): (m: int)
    ensures m >= 1
    ensures base + jitter >= 1 ==> m == base + jitter
  {
    Max(1, base + jitter)
  }

  /** With a jitter drawn from [-J, J] the interval stays within J minutes of the query's
      own interval whenever that interval exceeds J. */
  lemma IntervalWithinJitter(base: int, jitter: int, bound: nat)
    requires -(bound as int) <= jitter <= bound
    requires base - bound >= 1
    ensures base - bound <= EffectiveInterval(base, jitter) <= base + bound
  {
  }

  /** Whether `schedule_query` would find the query and schedule it. */
  predicate Schedulable(db: Database, id: int) {
    id in db.queries && db.queries[id].enabled
  }

  /** `schedule_query`: nothing for a missing or disabled query; otherwise any job of that
      query is replaced by one job with the jittered interval, and no other job changes. */
  function ScheduleQuery(jobs: Jobs, db: Database, id: int, jitter: int): (r: Jobs)
    ensures !Schedulable(db, id) ==> r == jobs
    ensures Schedulable(db, id) ==>
              QueryJob(id) in r && r[QueryJob(id)] == EveryMinutes(EffectiveInterval(db.queries[id].intervalMinutes, jitter))
    ensures forall k :: k != QueryJob(id) ==> (k in r <==> k in jobs) && (k in r ==> r[k] == jobs[k])
  {
    match GetQuery(db, id)
    case None => jobs
    case Some(q) =>
      if !q.enabled then jobs
      else
        var without := if QueryJob(id) in jobs then jobs - {QueryJob(id)} else jobs;
        without[QueryJob(id) := EveryMinutes(EffectiveInterval(q.intervalMinutes, jitter))]
  }

  /** `unschedule_query`: the query's job is removed if there is one; nothing else
      changes. */
  function UnscheduleQuery(jobs: Jobs, id: int): (r: Jobs)
    ensures QueryJob(id) !in r
    ensures forall k :: k != QueryJob(id) ==> (k in r <==> k in jobs) && (k in r ==> r[k] == jobs[k])
    ensures QueryJob(id) !in jobs ==> r == jobs
  {
    if QueryJob(id) in jobs then jobs - {QueryJob(id)} else jobs
  }

  /** Scheduling and then unscheduling a query leaves the other jobs as they were. */
  lemma ScheduleThenUnschedule(jobs: Jobs, db: Database, id: int, jitter: int)
    ensures UnscheduleQuery(ScheduleQuery(jobs, db, id, jitter), id) == UnscheduleQuery(jobs, id)
  {
    var a := UnscheduleQuery(ScheduleQuery(jobs, db, id, jitter), id);
    var b := UnscheduleQuery(jobs, id);
    assert a.Keys == b.Keys;
  }

  /** Scheduling a query twice leaves one job, with the second interval. */
  lemma RescheduleReplaces(jobs: Jobs, db: Database, id: int, j1: int, j2: int)
    ensures ScheduleQuery(ScheduleQuery(jobs, db, id, j1), db, id, j2) == ScheduleQuery(jobs, db, id, j2)
  {
    var a := ScheduleQuery(ScheduleQuery(jobs, db, id, j1), db, id, j2);
    var b := ScheduleQuery(jobs, db, id, j2);
    assert a.Keys == b.Keys;
  }

  /** Query jobs scheduled, in order, for the listed ids. */
  predicate ScheduledBy(db: Database, ids: seq<int>, k: JobKey) {
    k.QueryJob? && k.queryId in ids && Schedulable(db, k.queryId)
  }

  /** Scheduling each listed query in turn: every listed enabled query gets its job,
      and every other job is left as it was. */
  function ScheduleAll(jobs: Jobs, db: Database, ids: seq<int>, jitter: int -> int): (r: Jobs)
    ensures forall id <- ids | Schedulable(db, id) ::
              QueryJob(id) in r && r[QueryJob(id)] == EveryMinutes(EffectiveInterval(db.queries[id].intervalMinutes, jitter(id)))
    ensures forall k :: !ScheduledBy(db, ids, k) ==> (k in r <==> k in jobs) && (k in r ==> r[k] == jobs[k])
    decreases |ids|
  {
    if |ids| == 0 then jobs
    else
      var init := ids[..|ids| - 1];
      var last := ids[|ids| - 1];
      assert forall id :: id in ids <==> id in init || id == last;
      ScheduleQuery(ScheduleAll(jobs, db, init, jitter), db, last, jitter(last))
  }

  /** The jobs after `start`: every listed query scheduled, then the health-check,
      cleanup and keep-alive jobs every 6, 24 and 2 hours. */
  function StartJobs(jobs: Jobs, db: Database, ids: seq<int>, jitter: int -> int): (r: Jobs)
    ensures HealthCheckJob in r && CleanupJob in r && KeepAliveJob in r
    ensures r[HealthCheckJob] == EveryHours(HealthCheckIntervalHours)
    ensures r[CleanupJob] == EveryHours(CleanupIntervalHours)
    ensures r[KeepAliveJob] == EveryHours(KeepAliveIntervalHours)
    ensures forall id <- ids | Schedulable(db, id) ::
              QueryJob(id) in r && r[QueryJob(id)] == EveryMinutes(EffectiveInterval(db.queries[id].intervalMinutes, jitter(id)))
    ensures forall id :: QueryJob(id) in r <==> QueryJob(id) in jobs || (id in ids && Schedulable(db, id))
  {
    ScheduleAll(jobs, db, ids, jitter)[HealthCheckJob := EveryHours(HealthCheckIntervalHours)]
      [CleanupJob := EveryHours(CleanupIntervalHours)]
      [KeepAliveJob := EveryHours(KeepAliveIntervalHours)]
  }

  /** Starting from no jobs with every enabled query listed, a query has a job exactly
      when it exists and is enabled. */
  lemma StartSchedulesEnabled(db: Database, ids: seq<int>, jitter: int -> int, id: int)
    requires forall i :: i in EnabledQueryIds(db) ==> i in ids
    ensures QueryJob(id) in StartJobs(map[], db, ids, jitter) <==> id in EnabledQueryIds(db)
  {
  }
}
