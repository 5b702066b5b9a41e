/** The statistics dashboard container
    (components/statistics-dashboard/statistics-dashboard.container.ts): probe once,
    load loudly once, then reload quietly on a 1000 ms interval until destroyed. */
module StatisticsDashboard {
  import opened Common
  import opened Statistics

  /** How far `ngOnInit` has got. */
  datatype InitStage = NotStarted | Probing | LoadingStats | Settled

  class StatisticsDashboardContainer {
    var isStatsAvailable: bool
    var stats: seq<ClickStats>
    var loading: bool
    var refreshInterval: Option<nat>
    var stage: InitStage
    /** Quiet loads issued by interval ticks and not yet settled. */
    var outstandingQuietLoads: nat
    /** The id the browser's `setInterval` hands out next (ids start at 1). */
    var nextIntervalId: nat
    /** The intervals the browser is running for this container. */
    ghost var runningIntervals: set<nat>

    /** `loading` is true exactly while the loud load is outstanding, and at most
        one interval runs, the one whose handle is kept. */
    ghost predicate Valid()
      reads this
    {
      && (loading <==> stage == LoadingStats)
      && (stage == LoadingStats ==> isStatsAvailable)
      && 0 < nextIntervalId
      && runningIntervals == (if refreshInterval.Some? then {refreshInterval.value} else {})
      && (refreshInterval.Some? ==> 0 < refreshInterval.value < nextIntervalId)
      && (refreshInterval.Some? ==> isStatsAvailable && stage == Settled)
    }

    constructor ()
      ensures Valid()
      ensures !isStatsAvailable && stats == [] && !loading
      ensures refreshInterval == None && runningIntervals == {} && stage == NotStarted
      ensures outstandingQuietLoads == 0
    {
      isStatsAvailable, stats, loading := false, [], false;
      refreshInterval, stage := None, NotStarted;
      outstandingQuietLoads, nextIntervalId := 0, 1;
      runningIntervals := {};
    }

    /** `ngOnInit`: the availability probe is issued. */
    method NgOnInit()
      requires Valid() && stage == NotStarted
      modifies this`stage
      ensures Valid() && stage == Probing
    {
      stage := Probing;
    }

    /** `checkStatsAvailability` has settled: a probe that throws counts as "not
        available". Only when available does `loadStats` start, raising `loading`. */
    method ProbeResolved(reply: Reply<bool>)
      requires Valid() && stage == Probing
      modifies this`isStatsAvailable, this`stage, this`loading
      ensures Valid()
      ensures isStatsAvailable == (reply.Resolved? && reply.value)
      ensures loading == isStatsAvailable
      ensures stage == if isStatsAvailable then LoadingStats else Settled
    {
      isStatsAvailable := reply.Resolved? && reply.value;
      if isStatsAvailable {
        loading := true;
        stage := LoadingStats;
      } else {
        stage := Settled;
      }
    }

    /** `loadStats` has settled: a successful load replaces the stats wholesale, a
        failed one leaves them; `loading` is lowered on both paths and the
        auto-refresh starts. */
    method StatsLoaded(reply: Reply<seq<ClickStats>>)
      requires Valid() && stage == LoadingStats
      modifies this
      ensures Valid()
      ensures !loading && stage == Settled && isStatsAvailable
      ensures reply.Resolved? ==> stats == reply.value
      ensures reply.Rejected? ==> stats == old(stats)
      ensures refreshInterval == Some(old(nextIntervalId)) && runningIntervals == {old(nextIntervalId)}
      ensures outstandingQuietLoads == old(outstandingQuietLoads) && nextIntervalId == old(nextIntervalId) + 1
    {
      if reply.Resolved? {
        stats := reply.value;
      }
      loading := false;
      stage := Settled;
      StartAutoRefresh();
    }

    /** `startAutoRefresh`: any running interval is stopped first, so exactly one
        interval runs afterwards. */
    method StartAutoRefresh()
      requires Valid() && isStatsAvailable && stage == Settled
      modifies this`refreshInterval, this`nextIntervalId, this`runningIntervals
      ensures Valid()
      ensures refreshInterval == Some(old(nextIntervalId))
      ensures runningIntervals == {old(nextIntervalId)}
      ensures nextIntervalId == old(nextIntervalId) + 1
    {
      StopAutoRefresh();
      refreshInterval := Some(nextIntervalId);
      runningIntervals := runningIntervals + {nextIntervalId};
      nextIntervalId := nextIntervalId + 1;
    }

    /** `stopAutoRefresh`: clears the running interval, if any; stopping a stopped
        dashboard changes nothing. */
    method StopAutoRefresh()
      requires Valid()
      modifies this`refreshInterval, this`runningIntervals
      ensures Valid()
      ensures refreshInterval == None && runningIntervals == {}
      ensures old(refreshInterval).None? ==> runningIntervals == old(runningIntervals)
    {
      if refreshInterval.Some? {
        runningIntervals := runningIntervals - {refreshInterval.value};
        refreshInterval := None;
      }
    }

    /** `ngOnDestroy`. */
    method NgOnDestroy()
      requires Valid()
      modifies this`refreshInterval, this`runningIntervals
      ensures Valid()
      ensures refreshInterval == None && runningIntervals == {}
    {
      StopAutoRefresh();
    }

    /** The interval fires: a quiet load is issued while the feature is available,
        whether or not an earlier one is still outstanding. */
    method IntervalTick()
      requires Valid() && refreshInterval.Some?
      modifies this`outstandingQuietLoads
      ensures Valid()
      ensures outstandingQuietLoads == old(outstandingQuietLoads) + (if isStatsAvailable then 1 else 0)
    {
      if isStatsAvailable {
        outstandingQuietLoads := outstandingQuietLoads + 1;
      }
    }

    /** `loadStatsQuietly` has settled: success replaces the stats wholesale,
        failure leaves them; `loading` is never touched. */
    method QuietLoadSettled(reply: Reply<seq<ClickStats>>)
      requires Valid() && outstandingQuietLoads > 0
      modifies this`outstandingQuietLoads, this`stats
      ensures Valid()
      ensures outstandingQuietLoads == old(outstandingQuietLoads) - 1
      ensures reply.Resolved? ==> stats == reply.value
      ensures reply.Rejected? ==> stats == old(stats)
    {
      outstandingQuietLoads := outstandingQuietLoads - 1;
      if reply.Resolved? {
        stats := reply.value;
      }
    }
  }

  /** `ngOnDestroy` can run while `ngOnInit` is still waiting for the loud load.
      It finds no interval to stop, and the load then starts one that nothing
      stops. */
  method DestroyDuringLoadLeavesInterval() returns (intervalRunning: bool)
    ensures intervalRunning
  {
    var c := new StatisticsDashboardContainer();
    c.NgOnInit();
    c.ProbeResolved(Resolved(true));
    c.NgOnDestroy();
    c.StatsLoaded(Resolved([]));
    intervalRunning := c.refreshInterval.Some?;
  }
}
