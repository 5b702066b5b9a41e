/** The url-shortener container (components/url-shortener/url-shortener.container.ts):
    single-flight shortening with the outcome mapped to a status and an error
    message, and the quick stats (number of urls, total clicks) with their
    refresh interval. Each `await` splits an operation into the event that starts
    it and the event that delivers the gateway's reply. */
module ShortenerContainer {
  import opened Common
  import opened Errors
  import opened Status
  import opened Statistics

  const EmptyShortPath: string := "The returned short path is empty"

  /** How far the chain started by `ngOnInit` (`checkStatsFeature`) has got. */
  datatype InitStage = NotStarted | Probing | LoadingInitialStats | Settled

  class UrlShortenerContainer {
    var url: Option<string>
    var shortPath: Option<string>
    var errorMessage: Option<string>
    var shorteningUrlInProgress: bool
    var status: Option<ShortenStatus>
    var isStatsAvailable: bool
    var totalUrls: nat
    var totalClicks: int
    var statsRefreshInterval: Option<nat>
    var stage: InitStage
    /** 100 ms reload timers armed after a successful shortening, not yet fired. */
    var armedStatsReloads: nat
    /** Stats loads started by an interval tick or a reload timer, not yet settled. */
    var outstandingStatsLoads: nat
    /** The id the browser's `setInterval` hands out next (ids start at 1). */
    var nextIntervalId: nat
    /** The intervals the browser is running for this container. */
    ghost var runningIntervals: set<nat>
    /** The urls handed to the gateway's shorten operation, oldest first. */
    ghost var shortenRequests: seq<string>

    ghost predicate Valid()
      reads this
    {
      && (shorteningUrlInProgress ==> shortPath == None)
      && 0 < nextIntervalId
      && runningIntervals == (if statsRefreshInterval.Some? then {statsRefreshInterval.value} else {})
      && (statsRefreshInterval.Some? ==> 0 < statsRefreshInterval.value < nextIntervalId)
      && (statsRefreshInterval.Some? ==> isStatsAvailable && stage == Settled)
      && (stage == LoadingInitialStats ==> isStatsAvailable)
    }

    /** The shortening state. */
    ghost function ShortenView(): (Option<string>, Option<string>, Option<string>, bool, Option<ShortenStatus>, seq<string>)
      reads this
    {
      (url, shortPath, errorMessage, shorteningUrlInProgress, status, shortenRequests)
    }

    /** The quick-stats state, apart from the armed reload timers. */
    ghost function StatsView(): (bool, nat, int, Option<nat>, InitStage, nat, nat, set<nat>)
      reads this
    {
      (isStatsAvailable, totalUrls, totalClicks, statsRefreshInterval, stage,
       outstandingStatsLoads, nextIntervalId, runningIntervals)
    }

    constructor ()
      ensures Valid()
      ensures url == None && shortPath == None && errorMessage == None && status == None
      ensures !shorteningUrlInProgress && !isStatsAvailable && totalUrls == 0 && totalClicks == 0
      ensures statsRefreshInterval == None && runningIntervals == {} && stage == NotStarted
      ensures armedStatsReloads == 0 && outstandingStatsLoads == 0 && shortenRequests == []
    {
      url, shortPath, errorMessage, status := None, None, None, None;
      shorteningUrlInProgress, isStatsAvailable := false, false;
      totalUrls, totalClicks := 0, 0;
      statsRefreshInterval, stage := None, NotStarted;
      armedStatsReloads, outstandingStatsLoads := 0, 0;
      nextIntervalId := 1;
      runningIntervals, shortenRequests := {}, [];
    }

    /** `onUrlChanged`. */
    method OnUrlChanged(u: Option<string>)
      requires Valid()
      modifies this`url
      ensures Valid() && url == u
    {
      url := u;
    }

    /** `shorten` up to its `await`: `shortPath` is cleared on every call; a call
        made while a request is outstanding is dropped; an empty url is rejected
        locally with `MISSING_URL`; otherwise the flag is raised and the url is
        handed to the gateway. */
    method Shorten()
      requires Valid()
      modifies this
      ensures Valid()
      ensures StatsView() == old(StatsView()) && armedStatsReloads == old(armedStatsReloads)
      ensures shortPath == None && url == old(url) && errorMessage == old(errorMessage)
      ensures old(shorteningUrlInProgress) ==>
                shorteningUrlInProgress && status == old(status) && shortenRequests == old(shortenRequests)
      ensures !old(shorteningUrlInProgress) && !Truthy(old(url)) ==>
                !shorteningUrlInProgress && status == Some(MissingUrl) && shortenRequests == old(shortenRequests)
      ensures !old(shorteningUrlInProgress) && Truthy(old(url)) ==>
                shorteningUrlInProgress && status == old(status)
                && shortenRequests == old(shortenRequests) + [old(url).value]
    {
      shortPath := None;
      if shorteningUrlInProgress {
        return;
      }
      if !Truthy(url) {
        status := Some(MissingUrl);
        return;
      }
      shorteningUrlInProgress := true;
      shortenRequests := shortenRequests + [url.value];
    }

    /** The rest of `shortenUrl`, once the gateway has answered. An empty short
        path is thrown as `{ error: { detail } }` and takes the failure path; the
        flag is lowered on every path; the url is kept. */
    method ShortenResponse(reply: Reply<Option<string>>)
      requires Valid() && shorteningUrlInProgress
      modifies this
      ensures Valid()
      ensures StatsView() == old(StatsView())
      ensures !shorteningUrlInProgress && url == old(url) && shortenRequests == old(shortenRequests)
      ensures reply.Resolved? && Truthy(reply.value) ==>
                && shortPath == reply.value
                && status == Some(RequestSuccess)
                && errorMessage == old(errorMessage)
                && armedStatsReloads == old(armedStatsReloads) + (if isStatsAvailable then 1 else 0)
      ensures reply.Resolved? && !Truthy(reply.value) ==>
                && shortPath == None
                && status == Some(RequstFailure)
                && errorMessage == Some(EmptyShortPath)
                && armedStatsReloads == old(armedStatsReloads)
      ensures reply.Rejected? ==>
                && shortPath == None
                && status == Some(RequstFailure)
                && errorMessage == Some(ExtractErrorMessage(reply.error))
                && armedStatsReloads == old(armedStatsReloads)
    {
      var caught: Option<Thrown> := None;
      match reply {
        case Resolved(returned) =>
          if !Truthy(returned) {
            caught := Some(WithErrorField(Some(EmptyShortPath)));
          } else {
            shortPath := returned;
            status := Some(RequestSuccess);
            if isStatsAvailable {
              armedStatsReloads := armedStatsReloads + 1;
            }
          }
        case Rejected(e) =>
          caught := Some(e);
      }
      if caught.Some? {
        status := Some(RequstFailure);
        errorMessage := Some(ExtractErrorMessage(caught.value));
      }
      shorteningUrlInProgress := false;
    }

    /** `ngOnInit`: the availability probe is issued. */
    method NgOnInit()
      requires Valid() && stage == NotStarted
      modifies this`stage
      ensures Valid() && stage == Probing
    {
      stage := Probing;
    }

    /** The probe has settled: a probe that fails counts as "not available"; only
        when available is the initial load issued. */
    method ProbeResolved(reply: Reply<bool>)
      requires Valid() && stage == Probing
      modifies this`isStatsAvailable, this`stage
      ensures Valid()
      ensures isStatsAvailable == (reply.Resolved? && reply.value)
      ensures stage == if isStatsAvailable then LoadingInitialStats else Settled
    {
      isStatsAvailable := reply.Resolved? && reply.value;
      stage := if isStatsAvailable then LoadingInitialStats else Settled;
    }

    /** `loadQuickStats` / `loadQuickStatsQuietly` once the stats have arrived: the
        url count and the click total are both taken from the new list; a failed
        load leaves both as they were. */
    method ApplyQuickStats(reply: Reply<seq<ClickStats>>)
      requires Valid()
      modifies this`totalUrls, this`totalClicks
      ensures Valid()
      ensures reply.Resolved? ==> totalUrls == |reply.value| && totalClicks == TotalClicks(reply.value)
      ensures reply.Rejected? ==> totalUrls == old(totalUrls) && totalClicks == old(totalClicks)
    {
      if reply.Resolved? {
        totalUrls := |reply.value|;
        totalClicks := TotalClicks(reply.value);
      }
    }

    /** The initial load has settled; the auto-refresh is started afterwards
        whatever the load's outcome. */
    method InitialStatsLoaded(reply: Reply<seq<ClickStats>>)
      requires Valid() && stage == LoadingInitialStats
      modifies this
      ensures Valid()
      ensures ShortenView() == old(ShortenView())
      ensures stage == Settled
      ensures reply.Resolved? ==> totalUrls == |reply.value| && totalClicks == TotalClicks(reply.value)
      ensures reply.Rejected? ==> totalUrls == old(totalUrls) && totalClicks == old(totalClicks)
      ensures statsRefreshInterval == Some(old(nextIntervalId)) && runningIntervals == {old(nextIntervalId)}
      ensures nextIntervalId == old(nextIntervalId) + 1 && isStatsAvailable == old(isStatsAvailable)
      ensures armedStatsReloads == old(armedStatsReloads) && outstandingStatsLoads == old(outstandingStatsLoads)
    {
      ApplyQuickStats(reply);
      stage := Settled;
      StartStatsAutoRefresh();
    }

    /** `startStatsAutoRefresh`: any running interval is stopped first, so exactly
        one interval runs afterwards. */
    method StartStatsAutoRefresh()
      requires Valid() && isStatsAvailable && stage == Settled
      modifies this`statsRefreshInterval, this`nextIntervalId, this`runningIntervals
      ensures Valid()
      ensures statsRefreshInterval == Some(old(nextIntervalId))
      ensures runningIntervals == {old(nextIntervalId)}
      ensures nextIntervalId == old(nextIntervalId) + 1
    {
      StopStatsAutoRefresh();
      statsRefreshInterval := Some(nextIntervalId);
      runningIntervals := runningIntervals + {nextIntervalId};
      nextIntervalId := nextIntervalId + 1;
    }

    /** `stopStatsAutoRefresh`: clears the running interval, if any; stopping a
        stopped container changes nothing. */
    method StopStatsAutoRefresh()
      requires Valid()
      modifies this`statsRefreshInterval, this`runningIntervals
      ensures Valid()
      ensures statsRefreshInterval == None && runningIntervals == {}
      ensures old(statsRefreshInterval).None? ==> runningIntervals == old(runningIntervals)
    {
      if statsRefreshInterval.Some? {
        runningIntervals := runningIntervals - {statsRefreshInterval.value};
        statsRefreshInterval := None;
      }
    }

    /** `ngOnDestroy`. */
    method NgOnDestroy()
      requires Valid()
      modifies this`statsRefreshInterval, this`runningIntervals
      ensures Valid()
      ensures statsRefreshInterval == None && runningIntervals == {}
    {
      StopStatsAutoRefresh();
    }

    /** The refresh interval fires: a quiet load is issued while the feature is
        available. Nothing stops a tick from issuing a load while an earlier one
        is still outstanding. */
    method IntervalTick()
      requires Valid() && statsRefreshInterval.Some?
      modifies this`outstandingStatsLoads
      ensures Valid()
      ensures outstandingStatsLoads == old(outstandingStatsLoads) + (if isStatsAvailable then 1 else 0)
    {
      if isStatsAvailable {
        outstandingStatsLoads := outstandingStatsLoads + 1;
      }
    }

    /** A 100 ms timer armed by a successful shortening fires and issues a load. */
    method StatsReloadTimerFires()
      requires Valid() && armedStatsReloads > 0
      modifies this`armedStatsReloads, this`outstandingStatsLoads
      ensures Valid()
      ensures armedStatsReloads == old(armedStatsReloads) - 1
      ensures outstandingStatsLoads == old(outstandingStatsLoads) + 1
    {
      armedStatsReloads := armedStatsReloads - 1;
      outstandingStatsLoads := outstandingStatsLoads + 1;
    }

    /** One outstanding load settles, in whatever order the replies arrive; it is
        applied even after the interval has been stopped. */
    method StatsLoadSettled(reply: Reply<seq<ClickStats>>)
      requires Valid() && outstandingStatsLoads > 0
      modifies this`outstandingStatsLoads, this`totalUrls, this`totalClicks
      ensures Valid()
      ensures outstandingStatsLoads == old(outstandingStatsLoads) - 1
      ensures reply.Resolved? ==> totalUrls == |reply.value| && totalClicks == TotalClicks(reply.value)
      ensures reply.Rejected? ==> totalUrls == old(totalUrls) && totalClicks == old(totalClicks)
    {
      outstandingStatsLoads := outstandingStatsLoads - 1;
      ApplyQuickStats(reply);
    }
  }

  /** `ngOnDestroy` can run while `checkStatsFeature` is still waiting for the
      initial load. It finds no interval to stop, and the load then starts one
      that nothing stops. */
  method DestroyDuringInitialLoadLeavesInterval() returns (intervalRunning: bool)
    ensures intervalRunning
  {
    var c := new UrlShortenerContainer();
    c.NgOnInit();
    c.ProbeResolved(Resolved(true));
    c.NgOnDestroy();
    c.InitialStatsLoaded(Rejected(NotAnObject));
    intervalRunning := c.statsRefreshInterval.Some?;
  }
}
