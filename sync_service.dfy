/** The sync orchestrator: downloads every page of the hymn list with limit 100, skips
    pages whose request fails, saves the accumulated list once at the end, and reports
    progress and completion through callbacks. Callback invocations are returned as
    sequences in call order; `pages(p)` is what `getHinos(p, 100)` answers for page `p`. */
module Sync {
  import opened Common
  import opened Hymns
  import opened LocalStore
  import Api

  const PageLimit := 100

  datatype SyncProgress = SyncProgress(currentPage: int, totalPages: int, currentHinos: int, totalHinos: int, isComplete: bool)

  datatype SyncResult = SyncResult(success: bool, totalHinos: int, error: Option<string>)

  datatype SyncStats = SyncStats(hasLocalData: bool, totalHinos: nat, lastUpdate: Option<DateValue>, cacheValid: bool)

  /** The hymns a page answer contributes: its list when it arrived, nothing when it failed. */
  function Items(answer: Result<HinosPaginados, Exc>): seq<HinoLocal>
  {
    if answer.Success? then answer.value.hinos else []
  }

  /** Pages `2..n`, in the order the loop requests them. */
  function LaterPages(n: int): (r: seq<int>)
    ensures |r| == if n < 2 then 0 else n - 1
    ensures forall i :: 0 <= i < |r| ==> r[i] == i + 2
    decreases n
  {
    if n < 2 then [] else LaterPages(n - 1) + [n]
  }

  /** The hymns of pages `2..n` that arrived, in page order. */
  function FetchedUpTo(pages: int -> Result<HinosPaginados, Exc>, n: int): seq<HinoLocal>
    decreases n
  {
    if n < 2 then [] else FetchedUpTo(pages, n - 1) + Items(pages(n))
  }

  /** The progress events of pages `2..n`: one per page that arrived, carrying the running count. */
  function EventsUpTo(pages: int -> Result<HinosPaginados, Exc>, n: int, totalPages: int, firstCount: int, totalHinos: int)
    : (r: seq<SyncProgress>)
    ensures forall e :: e in r ==> !e.isComplete && e.totalPages == totalPages && e.totalHinos == totalHinos
    ensures forall i :: 0 <= i < |r| ==> 2 <= r[i].currentPage <= n
    decreases n
  {
    if n < 2 then []
    else
      EventsUpTo(pages, n - 1, totalPages, firstCount, totalHinos)
      + (if pages(n).Success? then [SyncProgress(n, totalPages, firstCount + |FetchedUpTo(pages, n)|, totalHinos, false)] else [])
  }

  /** The last page the loop reaches for a reported page count. */
  function LastPage(totalPages: int): int
  {
    if totalPages < 2 then 1 else totalPages
  }

  /** One turn of the loop extends the list and the events by page `n`'s share. */
  lemma PageStep(pages: int -> Result<HinosPaginados, Exc>, n: int, totalPages: int, totalHinos: int,
                 firstHinos: seq<HinoLocal>, allHinos: seq<HinoLocal>, progress: seq<SyncProgress>)
    requires n >= 2
    requires allHinos == firstHinos + FetchedUpTo(pages, n - 1)
    requires progress == EventsUpTo(pages, n - 1, totalPages, |firstHinos|, totalHinos)
    ensures pages(n).Success? ==>
      var all' := allHinos + pages(n).value.hinos;
      all' == firstHinos + FetchedUpTo(pages, n)
      && progress + [SyncProgress(n, totalPages, |all'|, totalHinos, false)]
         == EventsUpTo(pages, n, totalPages, |firstHinos|, totalHinos)
    ensures pages(n).Failure? ==>
      allHinos == firstHinos + FetchedUpTo(pages, n)
      && progress == EventsUpTo(pages, n, totalPages, |firstHinos|, totalHinos)
  {
    var before := FetchedUpTo(pages, n - 1);
    if pages(n).Success? {
      ConcatAssoc(firstHinos, before, pages(n).value.hinos);
    } else {
      assert before + [] == before;
      assert progress + [] == progress;
    }
  }

  class SyncService {
    const local: LocalStorageService

    constructor(local: LocalStorageService)
      ensures this.local == local
    {
      this.local := local;
    }

    /** `syncAllHinos`. `requested` lists the pages asked for, `progress` the `onProgress`
        events and `completions` the `onComplete` calls, each in order. */
    method SyncAllHinos(pages: int -> Result<HinosPaginados, Exc>, now: nat, saveFault: WriteFault)
      returns (result: SyncResult, progress: seq<SyncProgress>, completions: seq<SyncResult>, requested: seq<int>)
      modifies local
      ensures completions == [result]
      ensures FullSync(old(local.store), local.store, pages, now, saveFault, result, progress, requested)
    {
      requested := [1];
      var firstResponse := pages(1);
      if firstResponse.Failure? {
        result := SyncResult(false, 0, Some(ErrorMessage(firstResponse.error)));
        return result, [], [result], requested;
      }
      var totalPages := firstResponse.value.paginacao.totalPaginas;
      var totalHinos := firstResponse.value.paginacao.total;
      var allHinos := firstResponse.value.hinos;
      progress := [SyncProgress(1, totalPages, |allHinos|, totalHinos, false)];
      var later, laterRequested;
      allHinos, later, laterRequested := DownloadLaterPages(pages, totalPages, totalHinos, allHinos);
      progress := progress + later;
      requested := requested + laterRequested;
      var saved := local.SaveHinos(allHinos, now, saveFault);
      if saved.Threw? {
        result := SyncResult(false, 0, Some(ErrorMessage(saved.exc)));
        return result, progress, [result], requested;
      }
      result := SyncResult(true, |allHinos|, None);
      progress := progress + [SyncProgress(totalPages, totalPages, |allHinos|, |allHinos|, true)];
      completions := [result];
    }

    /** The `while` loop of `syncAllHinos`: pages `2..totalPages` in order, each requested
        once; a failed page is skipped and the loop goes on. */
    method DownloadLaterPages(pages: int -> Result<HinosPaginados, Exc>, totalPages: int, totalHinos: int, firstHinos: seq<HinoLocal>)
      returns (allHinos: seq<HinoLocal>, progress: seq<SyncProgress>, requested: seq<int>)
      ensures allHinos == firstHinos + FetchedUpTo(pages, totalPages)
      ensures progress == EventsUpTo(pages, totalPages, totalPages, |firstHinos|, totalHinos)
      ensures requested == LaterPages(totalPages)
    {
      allHinos, progress, requested := firstHinos, [], [];
      var pagina := 2;
      var hasMorePages := true;
      while hasMorePages && pagina <= totalPages
        invariant 2 <= pagina && (pagina == 2 || pagina <= totalPages + 1)
        invariant !hasMorePages ==> pagina > totalPages
        invariant allHinos == firstHinos + FetchedUpTo(pages, pagina - 1)
        invariant progress == EventsUpTo(pages, pagina - 1, totalPages, |firstHinos|, totalHinos)
        invariant requested == LaterPages(pagina - 1)
        decreases totalPages - pagina
      {
        PageStep(pages, pagina, totalPages, totalHinos, firstHinos, allHinos, progress);
        requested := requested + [pagina];
        var response := pages(pagina);
        if response.Success? {
          allHinos := allHinos + response.value.hinos;
          progress := progress + [SyncProgress(pagina, totalPages, |allHinos|, totalHinos, false)];
          hasMorePages := pagina < totalPages;
          pagina := pagina + 1;
        } else {
          pagina := pagina + 1;
          if pagina > totalPages {
            hasMorePages := false;
          }
        }
      }
      assert pagina - 1 == LastPage(totalPages);
    }

    /** `forceSync`: a sync regardless of the cache. */
    method ForceSync(pages: int -> Result<HinosPaginados, Exc>, now: nat, saveFault: WriteFault)
      returns (result: SyncResult, progress: seq<SyncProgress>, completions: seq<SyncResult>, requested: seq<int>)
      modifies local
      ensures completions == [result] && requested != [] && requested[0] == 1
      ensures FullSync(old(local.store), local.store, pages, now, saveFault, result, progress, requested)
      ensures result.success ==> IsCacheValid(local.store, {}, now) && |LoadHinos(local.store, {})| == result.totalHinos
    {
      result, progress, completions, requested := SyncAllHinos(pages, now, saveFault);
      if result.success {
        ThreeDistinctKeys();
        ParseIntOfNat(now);
      }
    }

    /** `syncIfNeeded`: with a valid cache nothing is requested and the cached count is
        reported as a success; otherwise a full sync. */
    method SyncIfNeeded(pages: int -> Result<HinosPaginados, Exc>, now: nat, unreadable: set<string>, saveFault: WriteFault)
      returns (result: SyncResult, progress: seq<SyncProgress>, completions: seq<SyncResult>, requested: seq<int>)
      modifies local
      ensures completions == [result]
      ensures IsCacheValid(old(local.store), unreadable, now) ==>
        requested == [] && progress == [] && local.store == old(local.store)
        && result == SyncResult(true, |LoadHinos(local.store, unreadable)|, None)
      ensures !IsCacheValid(old(local.store), unreadable, now) ==>
        FullSync(old(local.store), local.store, pages, now, saveFault, result, progress, requested)
        && requested != [] && requested[0] == 1
    {
      if NeedsSync(local.store, unreadable, now) {
        result, progress, completions, requested := SyncAllHinos(pages, now, saveFault);
      } else {
        var stats := GetCacheStats(local.store, unreadable);
        result := SyncResult(true, stats.totalHinos, None);
        progress, completions, requested := [], [result], [];
      }
    }

    /** `smartSync`: offline it reports the local count, or a failure when there is none,
        without calling `onComplete`; online it is `syncIfNeeded`. */
    method SmartSync(online: bool, pages: int -> Result<HinosPaginados, Exc>, now: nat, unreadable: set<string>, saveFault: WriteFault)
      returns (result: SyncResult, progress: seq<SyncProgress>, completions: seq<SyncResult>, requested: seq<int>)
      modifies local
      ensures !online ==> requested == [] && progress == [] && completions == [] && local.store == old(local.store)
      ensures !online ==>
        var stats := GetCacheStats(old(local.store), unreadable);
        result == if stats.totalHinos > 0 then SyncResult(true, stats.totalHinos, None)
                  else SyncResult(false, 0, Some("Sem conexão com a internet e sem dados locais"))
      ensures online ==> completions == [result]
      ensures online && IsCacheValid(old(local.store), unreadable, now) ==>
        requested == [] && progress == [] && local.store == old(local.store)
        && result == SyncResult(true, |LoadHinos(local.store, unreadable)|, None)
      ensures online && !IsCacheValid(old(local.store), unreadable, now) ==>
        FullSync(old(local.store), local.store, pages, now, saveFault, result, progress, requested)
    {
      if !online {
        var stats := GetCacheStats(local.store, unreadable);
        if stats.totalHinos > 0 {
          result := SyncResult(true, stats.totalHinos, None);
        } else {
          result := SyncResult(false, 0, Some("Sem conexão com a internet e sem dados locais"));
        }
        return result, [], [], [];
      }
      result, progress, completions, requested := SyncIfNeeded(pages, now, unreadable, saveFault);
    }
  }

  /** What a full sync promises: a failed first page changes nothing; otherwise every page
      up to the reported total is requested once, the list is saved, and the progress events
      run page by page up to a final completed event when the save succeeds. */
  ghost predicate FullSync(before: Store, after: Store, pages: int -> Result<HinosPaginados, Exc>, now: nat,
                           saveFault: WriteFault, result: SyncResult, progress: seq<SyncProgress>, requested: seq<int>)
  {
    (pages(1).Failure? ==>
        result == SyncResult(false, 0, Some(ErrorMessage(pages(1).error)))
        && progress == [] && requested == [1] && after == before)
    && (pages(1).Success? ==>
        var first := pages(1).value;
        var totalPages := first.paginacao.totalPaginas;
        var all := first.hinos + FetchedUpTo(pages, totalPages);
        var events := [SyncProgress(1, totalPages, |first.hinos|, first.paginacao.total, false)]
                      + EventsUpTo(pages, totalPages, totalPages, |first.hinos|, first.paginacao.total);
        requested == [1] + LaterPages(totalPages)
        && after == AfterSaveHinos(before, all, now, Performed(saveFault, 2))
        && (Reported(saveFault, 2).Done? ==>
              result == SyncResult(true, |all|, None)
              && progress == events + [SyncProgress(totalPages, totalPages, |all|, |all|, true)])
        && (Reported(saveFault, 2).Threw? ==>
              result == SyncResult(false, 0, Some(ErrorMessage(saveFault.exc))) && progress == events))
  }

  /** `needsSync`: a sync is due exactly when the cache is not valid. */
  predicate NeedsSync(store: Store, unreadable: set<string>, now: int): (r: bool)
    ensures LastUpdateKey in unreadable || LastUpdateKey !in store ==> r
    ensures forall t: nat :: LastUpdateKey !in unreadable && LastUpdateKey in store && store[LastUpdateKey] == Text(NatToString(t))
              ==> (r <==> now - t >= CacheDuration)
  {
    !IsCacheValid(store, unreadable, now)
  }

  /** `getSyncStats` */
  function GetSyncStats(store: Store, unreadable: set<string>, now: int): (r: SyncStats)
    ensures r.hasLocalData <==> r.totalHinos > 0
    ensures r.cacheValid <==> !NeedsSync(store, unreadable, now)
    ensures r.totalHinos == GetCacheStats(store, unreadable).totalHinos
  {
    var stats := GetCacheStats(store, unreadable);
    SyncStats(stats.totalHinos > 0, stats.totalHinos, stats.lastUpdate, IsCacheValid(store, unreadable, now))
  }

  // ----- properties of a sync run --------------------------------------------------

  /** Strictly increasing pages, a non-decreasing count, and counts within `[lo, hi]`. */
  predicate Ordered(ev: seq<SyncProgress>, lo: int, hi: int)
  {
    (forall i, j :: 0 <= i < j < |ev| ==> ev[i].currentPage < ev[j].currentPage && ev[i].currentHinos <= ev[j].currentHinos)
    && (forall i :: 0 <= i < |ev| ==> lo <= ev[i].currentHinos <= hi)
  }

  /** Progress events of later pages come in strictly increasing page order with a
      non-decreasing running count that never exceeds the final count. */
  lemma {:induction false} EventsOrdered(pages: int -> Result<HinosPaginados, Exc>, n: int, totalPages: int, firstCount: nat, totalHinos: int)
    ensures Ordered(EventsUpTo(pages, n, totalPages, firstCount, totalHinos), firstCount, firstCount + |FetchedUpTo(pages, n)|)
    decreases n
  {
    if n >= 2 {
      EventsOrdered(pages, n - 1, totalPages, firstCount, totalHinos);
      var prev := EventsUpTo(pages, n - 1, totalPages, firstCount, totalHinos);
      var ev := EventsUpTo(pages, n, totalPages, firstCount, totalHinos);
      var tail := if pages(n).Success? then [SyncProgress(n, totalPages, firstCount + |FetchedUpTo(pages, n)|, totalHinos, false)] else [];
      assert ev == prev + tail;
      assert |FetchedUpTo(pages, n - 1)| <= |FetchedUpTo(pages, n)|;
      forall i, j | 0 <= i < j < |ev|
        ensures ev[i].currentPage < ev[j].currentPage && ev[i].currentHinos <= ev[j].currentHinos
      {
        assert ev[i] == prev[i];
        if j >= |prev| {
          assert ev[j] == tail[0];
        }
      }
      forall i | 0 <= i < |ev|
        ensures firstCount <= ev[i].currentHinos <= firstCount + |FetchedUpTo(pages, n)|
      {
        if i < |prev| {
          assert ev[i] == prev[i];
        }
      }
    }
  }

  /** The pages `getHinos` answers from the local list `l` when the remote fails or the
      device is offline. */
  ghost predicate AnswersFromLocal(pages: int -> Result<HinosPaginados, Exc>, l: seq<HinoLocal>)
  {
    forall p :: pages(p) == Success(Api.LocalPage(l, p, PageLimit))
  }

  lemma {:induction false} LocalRunPrefix(pages: int -> Result<HinosPaginados, Exc>, l: seq<HinoLocal>, n: nat)
    requires AnswersFromLocal(pages, l) && n >= 1
    ensures Items(pages(1)) + FetchedUpTo(pages, n) == Api.PagesUpTo(l, PageLimit, n)
  {
    assert Items(pages(n)) == Api.PageOf(l, n, PageLimit);
    if n == 1 {
      assert FetchedUpTo(pages, 1) == [];
      assert Items(pages(1)) + [] == Items(pages(1));
      assert Api.PagesUpTo(l, PageLimit, 1) == [] + Api.PageOf(l, 1, PageLimit);
    } else {
      LocalRunPrefix(pages, l, n - 1);
      var first, before := Items(pages(1)), FetchedUpTo(pages, n - 1);
      calc {
        first + FetchedUpTo(pages, n);
        first + (before + Items(pages(n)));
        { ConcatAssoc(first, before, Items(pages(n))); }
        (first + before) + Items(pages(n));
        Api.PagesUpTo(l, PageLimit, n - 1) + Api.PageOf(l, n, PageLimit);
      }
    }
  }

  /** A sync that runs while every page comes from the local fallback (`getHinos` with the
      remote down and hymns stored) walks exactly the local pages and saves the same list
      back: no page is skipped and nothing is duplicated. */
  lemma SyncFromLocalResavesList(pages: int -> Result<HinosPaginados, Exc>, l: seq<HinoLocal>)
    requires AnswersFromLocal(pages, l) && l != []
    ensures pages(1).value.paginacao.totalPaginas == CeilDiv(|l|, PageLimit)
    ensures pages(1).value.hinos + FetchedUpTo(pages, pages(1).value.paginacao.totalPaginas) == l
  {
    var t := CeilDiv(|l|, PageLimit);
    LocalRunPrefix(pages, l, t);
    Api.LocalPagesCoverList(l, PageLimit);
  }
}
