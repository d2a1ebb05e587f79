/** The sync hook the screens use: the only guard against running two syncs at once is
    the `isSyncing` flag, checked on entry. The service's callbacks are replayed in the
    order the service made them, so every intermediate value of `syncProgress` is
    reported in `progressTrace`. */
module SyncHookModel {
  import opened Common
  import opened Hymns
  import opened LocalStore
  import opened Sync

  /** The values `syncProgress` takes, one per `onProgress` call. */
  function Somes(ps: seq<SyncProgress>): (r: seq<Option<SyncProgress>>)
    ensures |r| == |ps| && forall i :: 0 <= i < |ps| ==> r[i] == Some(ps[i])
  {
    seq(|ps|, i requires 0 <= i < |ps| => Some(ps[i]))
  }

  class SyncHook {
    var isSyncing: bool
    var syncProgress: Option<SyncProgress>
    var syncStats: Option<SyncStats>
    const service: SyncService

    constructor(service: SyncService)
      ensures this.service == service
      ensures !isSyncing && syncProgress.None? && syncStats.None?
    {
      this.service := service;
      isSyncing, syncProgress, syncStats := false, None, None;
    }

    /** `loadSyncStats`: reads the statistics at clock `now` (the read never rejects). */
    method LoadSyncStats(now: int, unreadable: set<string>)
      modifies this
      ensures syncStats == Some(GetSyncStats(service.local.store, unreadable, now))
      ensures isSyncing == old(isSyncing) && syncProgress == old(syncProgress)
    {
      syncStats := Some(GetSyncStats(service.local.store, unreadable, now));
    }

    /** `onProgress`: the latest event replaces the previous one. */
    method OnProgress(p: SyncProgress)
      modifies this
      ensures syncProgress == Some(p)
      ensures isSyncing == old(isSyncing) && syncStats == old(syncStats)
    {
      syncProgress := Some(p);
    }

    /** `onComplete`: clears the flag and the progress, and reloads the statistics only
        after a successful sync. */
    method OnComplete(result: SyncResult, now: int, unreadable: set<string>)
      modifies this
      ensures !isSyncing && syncProgress.None?
      ensures result.success ==> syncStats == Some(GetSyncStats(service.local.store, unreadable, now))
      ensures !result.success ==> syncStats == old(syncStats)
    {
      isSyncing := false;
      syncProgress := None;
      if result.success {
        LoadSyncStats(now, unreadable);
      }
    }

    /** The service's `onProgress` calls, in order; the trace holds `syncProgress` after each. */
    method Replay(events: seq<SyncProgress>) returns (trace: seq<Option<SyncProgress>>)
      modifies this
      ensures trace == Somes(events)
      ensures isSyncing == old(isSyncing) && syncStats == old(syncStats)
    {
      trace := [];
      for i := 0 to |events|
        invariant trace == Somes(events[..i])
        invariant isSyncing == old(isSyncing) && syncStats == old(syncStats)
      {
        OnProgress(events[i]);
        trace := trace + [syncProgress];
        assert Somes(events[..i + 1]) == Somes(events[..i]) + [Some(events[i])];
      }
      assert events[..|events|] == events;
    }

    /** `startSync(force)`: a no-op while a sync runs; otherwise raises the flag, clears the
        progress, runs `forceSync` or `syncIfNeeded` and replays its callbacks. `events`
        are the arguments of the service's `onProgress` calls. */
    method StartSync(force: bool, pages: int -> Result<HinosPaginados, Exc>, now: nat, unreadable: set<string>, saveFault: WriteFault)
      returns (result: Option<SyncResult>, progressTrace: seq<Option<SyncProgress>>, requested: seq<int>, events: seq<SyncProgress>)
      modifies this, service.local
      ensures old(isSyncing) ==>
        result.None? && progressTrace == [] && requested == [] && events == []
        && isSyncing && syncProgress == old(syncProgress) && syncStats == old(syncStats)
        && service.local.store == old(service.local.store)
      ensures !old(isSyncing) ==>
        result.Some? && |progressTrace| >= 2
        && progressTrace[0].None? && progressTrace[|progressTrace| - 1].None?
        && (forall i :: 0 < i < |progressTrace| - 1 ==> progressTrace[i].Some?)
        && !isSyncing && syncProgress.None?
        && (result.value.success ==> syncStats == Some(GetSyncStats(service.local.store, unreadable, now)))
        && (!result.value.success ==> syncStats == old(syncStats))
      ensures !old(isSyncing) ==> progressTrace == [None] + Somes(events) + [None]
      ensures !old(isSyncing) && force ==> requested != [] && requested[0] == 1
      ensures !old(isSyncing) && (force || !IsCacheValid(old(service.local.store), unreadable, now)) ==>
        FullSync(old(service.local.store), service.local.store, pages, now, saveFault, result.value, events, requested)
      ensures !old(isSyncing) && !force && IsCacheValid(old(service.local.store), unreadable, now) ==>
        requested == [] && events == [] && service.local.store == old(service.local.store)
        && result == Some(SyncResult(true, |LoadHinos(service.local.store, unreadable)|, None))
    {
      if isSyncing {
        return None, [], [], [];
      }
      isSyncing := true;
      syncProgress := None;
      progressTrace := [None];
      var r, completions;
      if force {
        r, events, completions, requested := service.ForceSync(pages, now, saveFault);
      } else {
        r, events, completions, requested := service.SyncIfNeeded(pages, now, unreadable, saveFault);
      }
      var replayed := Replay(events);
      progressTrace := progressTrace + replayed;
      assert completions == [r];
      OnComplete(r, now, unreadable);
      progressTrace := progressTrace + [syncProgress];
      result := Some(r);
    }
  }
}
