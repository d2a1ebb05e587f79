/** The remote hymn API client: a bounded retry loop around `fetch`, a five-minute
    in-memory memo keyed by endpoint and parameters, the normalisation of the two
    pagination shapes the server sends, and the local fallbacks each read uses when the
    request fails. `fetch`, the connectivity probe and the clock are parameters. */
module Api {
  import opened Common
  import opened Hymns
  import opened LocalStore

  /** Five minutes in milliseconds. */
  const MemoDuration := 5 * 60 * 1000

  const MaxRetries := 3

  // ----- the retry loop -----------------------------------------------------------

  /** What one `fetch` attempt gives: an `ok` response with its JSON body, a response
      with a non-`ok` status, or a rejection (a timeout abort, a network error, a bad body). */
  datatype Attempt<T> = Delivered(body: T) | HttpStatus(status: int) | Rejected(exc: Exc)

  /** The value the `catch` block sees for a failed attempt. */
  function AttemptError<T>(a: Attempt<T>): Exc
    requires !a.Delivered?
  {
    match a
    case HttpStatus(s) => ErrorObj("Error", "HTTP error! status: " + IntToString(s))
    case Rejected(e) => e
  }

  /** Only an `AbortError` or an error whose message mentions "timeout" is retried. */
  predicate IsRetryable(e: Exc)
  {
    e.ErrorObj? && (e.name == "AbortError" || Includes(e.message, "timeout"))
  }

  /** How a request goes from attempt `attempt` on: its outcome, the number of `fetch`
      calls made and the milliseconds spent waiting between them. */
  datatype RequestRun<T> = RequestRun(outcome: Result<T, Exc>, attempts: nat, waited: nat)

  /** `fetch(k)` is what attempt number `k` of the request gives. */
  function Run<T>(fetch: nat -> Attempt<T>, attempt: nat): (r: RequestRun<T>)
    requires 1 <= attempt <= MaxRetries
    ensures 1 <= r.attempts <= MaxRetries - attempt + 1
    ensures r.outcome.Success? <==> fetch(attempt + r.attempts - 1).Delivered?
    ensures r.outcome.Success? ==> r.outcome.value == fetch(attempt + r.attempts - 1).body
    ensures r.outcome.Failure? ==> r.outcome.error == AttemptError(fetch(attempt + r.attempts - 1))
    ensures r.outcome.Failure? && IsRetryable(r.outcome.error) ==> attempt + r.attempts - 1 == MaxRetries
    ensures r.waited == Backoff(attempt, r.attempts - 1)
    decreases MaxRetries - attempt
  {
    var a := fetch(attempt);
    if a.Delivered? then RequestRun(Success(a.body), 1, 0)
    else if IsRetryable(AttemptError(a)) && attempt < MaxRetries then
      var rest := Run(fetch, attempt + 1);
      BackoffFirst(attempt, rest.attempts - 1);
      RequestRun(rest.outcome, rest.attempts + 1, rest.waited + 1000 * attempt)
    else RequestRun(Failure(AttemptError(a)), 1, 0)
  }

  /** The waiting time of `retries` retries after attempt `first`: the sum of `1000 * k`
      for `k` in `first .. first + retries - 1`. */
  function Backoff(first: nat, retries: nat): nat
  {
    if retries == 0 then 0 else Backoff(first, retries - 1) + 1000 * (first + retries - 1)
  }

  /** The sum split at its first term. */
  lemma {:induction false} BackoffFirst(first: nat, retries: nat)
    ensures Backoff(first, retries + 1) == 1000 * first + Backoff(first + 1, retries)
  {
    if retries > 0 {
      BackoffFirst(first, retries - 1);
    }
  }

  /** `makeRequest`: at most three attempts; a retryable failure waits `1000 * attempt` ms
      and tries again, any other failure ends the loop, and the last error is thrown. */
  method MakeRequest<T>(fetch: nat -> Attempt<T>) returns (r: Result<T, Exc>, attempts: nat, waited: nat)
    ensures RequestRun(r, attempts, waited) == Run(fetch, 1)
  {
    var attempt := 1;
    var lastError: Exc := NonError;
    attempts, waited := 0, 0;
    // The loop header never ends the loop: every iteration returns, retries or breaks.
    while true
      invariant 1 <= attempt <= MaxRetries && attempts == attempt - 1
      invariant Run(fetch, 1).outcome == Run(fetch, attempt).outcome
      invariant Run(fetch, 1).attempts == attempts + Run(fetch, attempt).attempts
      invariant Run(fetch, 1).waited == waited + Run(fetch, attempt).waited
      decreases MaxRetries - attempt
    {
      var a := fetch(attempt);
      attempts := attempts + 1;
      if a.Delivered? {
        return Success(a.body), attempts, waited;
      }
      lastError := AttemptError(a);
      if IsRetryable(lastError) && attempt < MaxRetries {
        waited := waited + 1000 * attempt;
        attempt := attempt + 1;
      } else {
        break;
      }
    }
    r := Failure(lastError);
  }

  /** A non-`ok` HTTP status is never retried: its message has no "timeout" in it. */
  lemma HttpErrorIsFinal<T>(a: Attempt<T>)
    requires a.HttpStatus?
    ensures !IsRetryable(AttemptError(a))
  {
    var msg := "HTTP error! status: " + IntToString(a.status);
    assert 'i' !in msg;
    IncludesChar(msg, "timeout", 'i');
  }

  /** Every attempt before the last failed with a retryable error; the request gives up
      as soon as an error is not retryable, and after the third attempt in any case. */
  lemma {:induction false} EarlierAttemptsRetried<T>(fetch: nat -> Attempt<T>, attempt: nat, k: nat)
    requires 1 <= attempt <= MaxRetries
    requires attempt <= k < attempt + Run(fetch, attempt).attempts - 1
    ensures !fetch(k).Delivered? && IsRetryable(AttemptError(fetch(k)))
    decreases MaxRetries - attempt
  {
    if k > attempt {
      EarlierAttemptsRetried(fetch, attempt + 1, k);
    }
  }

  /** Three timeouts in a row: three calls, 1000 + 2000 ms of waiting, and the third
      timeout is what the caller sees. */
  lemma ThreeTimeouts<T>(fetch: nat -> Attempt<T>, e1: Exc, e2: Exc, e3: Exc)
    requires fetch(1) == Rejected(e1) && fetch(2) == Rejected(e2) && fetch(3) == Rejected(e3)
    requires IsRetryable(e1) && IsRetryable(e2) && IsRetryable(e3)
    ensures Run(fetch, 1) == RequestRun(Failure(e3), 3, 3000)
  {
  }

  /** A first attempt that fails with a non-retryable error is the only one. */
  lemma FirstHardFailureStops<T>(fetch: nat -> Attempt<T>)
    requires !fetch(1).Delivered? && !IsRetryable(AttemptError(fetch(1)))
    ensures Run(fetch, 1) == RequestRun(Failure(AttemptError(fetch(1))), 1, 0)
  {
  }

  // ----- response bodies --------------------------------------------------------------

  /** A hymn as the server sends it. */
  datatype RawHino = RawHino(number: int, title: string, author: Option<string>, audioUrl: Option<string>)

  /** The nested pagination object; any field may be missing. */
  datatype RawPaginacao = RawPaginacao(pagina: Option<int>, porPagina: Option<int>, total: Option<int>, totalPaginas: Option<int>)

  /** A list response. `hinos` is `None` when the body is `null` or has no `hinos` array;
      the flat `currentPage`/`totalPages`/`totalHinos` fields are the older shape. */
  datatype ListBody = ListBody(
    hinos: Option<seq<RawHino>>,
    paginacao: Option<RawPaginacao>,
    currentPage: Option<int>,
    totalPages: Option<int>,
    totalHinos: Option<int>)

  datatype RawStats = RawStats(totalHinos: Option<int>, hinosComAudio: Option<int>, porcentagemComAudio: Option<int>)

  /** `x || d` for a possibly missing number: `undefined` and `0` both fall through. */
  function Or(x: Option<int>, d: int): (r: int)
    ensures r != 0 || d == 0
    ensures x.Some? && x.value != 0 ==> r == x.value
    ensures (x.None? || x.value == 0) ==> r == d
  {
    if x.Some? && x.value != 0 then x.value else d
  }

  /** The pagination of a list response: each field from `paginacao`, else from the flat
      field, else the default (requested page, limit, item count, one page). */
  function Normalise(b: ListBody, pagina: int, limit: int, count: int): (r: Paginacao)
    ensures var p := b.paginacao;
      (p.Some? && p.value.pagina.Some? && p.value.pagina.value != 0 ==> r.pagina == p.value.pagina.value)
      && ((p.None? || Or(p.value.pagina, 0) == 0) ==> r.pagina == Or(b.currentPage, pagina))
      && (p.Some? && Or(p.value.porPagina, 0) != 0 ==> r.porPagina == p.value.porPagina.value)
      && ((p.None? || Or(p.value.porPagina, 0) == 0) ==> r.porPagina == limit)
      && (p.Some? && Or(p.value.total, 0) != 0 ==> r.total == p.value.total.value)
      && ((p.None? || Or(p.value.total, 0) == 0) ==> r.total == Or(b.totalHinos, count))
      && (p.Some? && Or(p.value.totalPaginas, 0) != 0 ==> r.totalPaginas == p.value.totalPaginas.value)
      && ((p.None? || Or(p.value.totalPaginas, 0) == 0) ==> r.totalPaginas == Or(b.totalPages, 1))
    ensures r.totalPaginas != 0
  {
    var p := if b.paginacao.Some? then b.paginacao.value else RawPaginacao(None, None, None, None);
    Paginacao(
      Or(p.pagina, Or(b.currentPage, pagina)),
      Or(p.porPagina, limit),
      Or(p.total, Or(b.totalHinos, count)),
      Or(p.totalPaginas, Or(b.totalPages, 1)))
  }

  /** A zero in the nested object is not a value: the flat field is used instead. */
  lemma ZeroPageFallsThrough(b: ListBody, pagina: int, limit: int, count: int)
    requires b.paginacao == Some(RawPaginacao(Some(0), None, None, None))
    requires b.currentPage == Some(7)
    ensures Normalise(b, pagina, limit, count).pagina == 7
    ensures Normalise(b, pagina, limit, count).porPagina == limit
  {
  }

  /** The mapping of `getHinos`: an empty `audioUrl` becomes `undefined`, while `audio`
      keeps the raw value. */
  function FromListed(h: RawHino): (r: HinoLocal)
    ensures r.numero == h.number && r.titulo == h.title && r.autor == h.author && r.audio == h.audioUrl
    ensures r.audioUrl.Some? <==> h.audioUrl.Some? && h.audioUrl.value != []
  {
    HinoLocal(h.number, h.title, h.author, h.audioUrl, if h.audioUrl.Some? && h.audioUrl.value != [] then h.audioUrl else None)
  }

  /** The mapping of the other endpoints: `audioUrl` is copied as it is. */
  function FromRaw(h: RawHino): (r: HinoLocal)
    ensures r.numero == h.number && r.titulo == h.title && r.autor == h.author
    ensures r.audio == h.audioUrl && r.audioUrl == h.audioUrl
  {
    HinoLocal(h.number, h.title, h.author, h.audioUrl, h.audioUrl)
  }

  // ----- local fallback pages ----------------------------------------------------------

  /** `xs.slice((pagina - 1) * limit, (pagina - 1) * limit + limit)` */
  function PageOf<T>(xs: seq<T>, pagina: int, limit: int): (r: seq<T>)
    requires limit > 0
    ensures |r| <= limit
    ensures forall x :: x in r ==> x in xs
    ensures pagina >= 1 ==> r == xs[Min((pagina - 1) * limit, |xs|)..Min((pagina - 1) * limit + limit, |xs|)]
  {
    PageStart(pagina, limit);
    Slice(xs, (pagina - 1) * limit, (pagina - 1) * limit + limit)
  }

  lemma PageStart(pagina: int, limit: int)
    requires limit > 0
    ensures pagina >= 1 ==> (pagina - 1) * limit >= 0
  {
  }

  /** The page the local fallbacks build: the slice, `total` = list length and
      `totalPaginas` = ⌈length / limit⌉. */
  function LocalPage(hinos: seq<HinoLocal>, pagina: int, limit: int): (r: HinosPaginados)
    requires limit > 0
    ensures r.hinos == PageOf(hinos, pagina, limit)
    ensures r.paginacao == Paginacao(pagina, limit, |hinos|, CeilDiv(|hinos|, limit))
  {
    HinosPaginados(PageOf(hinos, pagina, limit), Paginacao(pagina, limit, |hinos|, CeilDiv(|hinos|, limit)))
  }

  /** The page the search endpoints return when there is nothing to show. */
  function EmptyPage(pagina: int, limit: int): HinosPaginados
  {
    HinosPaginados([], Paginacao(pagina, limit, 0, 0))
  }

  /** Pages `1..n` laid end to end. */
  function PagesUpTo<T>(xs: seq<T>, limit: int, n: nat): seq<T>
    requires limit > 0
  {
    if n == 0 then [] else PagesUpTo(xs, limit, n - 1) + PageOf(xs, n, limit)
  }

  lemma {:induction false} PagesUpToPrefix<T>(xs: seq<T>, limit: int, n: nat)
    requires limit > 0
    ensures PagesUpTo(xs, limit, n) == xs[..Min(n * limit, |xs|)]
  {
    if n > 0 {
      PagesUpToPrefix(xs, limit, n - 1);
      NextPageStart(n, limit);
      PrefixExtend(xs, (n - 1) * limit, n * limit);
    }
  }

  lemma PrefixExtend<T>(xs: seq<T>, lo: int, hi: int)
    requires 0 <= lo <= hi
    ensures xs[..Min(lo, |xs|)] + xs[Min(lo, |xs|)..Min(hi, |xs|)] == xs[..Min(hi, |xs|)]
  {
  }

  lemma NextPageStart(n: nat, limit: int)
    requires limit > 0
    ensures n >= 1 ==> (n - 1) * limit >= 0
    ensures (n - 1) * limit + limit == n * limit
  {
  }

  /** Reading pages `1..⌈length / limit⌉` one after the other gives back the whole list. */
  lemma LocalPagesCoverList<T>(xs: seq<T>, limit: int)
    requires limit > 0
    ensures PagesUpTo(xs, limit, CeilDiv(|xs|, limit)) == xs
  {
    PagesUpToPrefix(xs, limit, CeilDiv(|xs|, limit));
    assert xs[..|xs|] == xs;
  }

  // ----- what the list endpoints answer --------------------------------------------

  /** The `try` block of `getHinos` after the request: a mapped, normalised page, or the
      error it throws (the request's own, or "invalid response" for a body without hymns). */
  function TryHinos(out: Result<ListBody, Exc>, pagina: int, limit: int): (r: Result<HinosPaginados, Exc>)
    ensures out.Failure? ==> r == Failure(out.error)
    ensures out.Success? && out.value.hinos.None? ==> r == Failure(ErrorObj("Error", "Resposta da API inválida"))
    ensures out.Success? && out.value.hinos.Some? ==>
              r.Success? && r.value.hinos == Map(out.value.hinos.value, FromListed)
              && r.value.paginacao == Normalise(out.value, pagina, limit, |out.value.hinos.value|)
    ensures r.Success? ==> out.Success? && out.value.hinos.Some?
  {
    match out
    case Failure(e) => Failure(e)
    case Success(b) =>
      if b.hinos.None? then Failure(ErrorObj("Error", "Resposta da API inválida"))
      else
        var mapped := Map(b.hinos.value, FromListed);
        Success(HinosPaginados(mapped, Normalise(b, pagina, limit, |mapped|)))
  }

  /** The `catch` block of `getHinos`: a page of the local list when it has hymns, else the
      original error again. */
  function WithLocalFallback(tried: Result<HinosPaginados, Exc>, localHinos: seq<HinoLocal>, pagina: int, limit: int)
    : (r: Result<HinosPaginados, Exc>)
    requires limit > 0
    ensures tried.Success? ==> r == tried
    ensures tried.Failure? && localHinos != [] ==> r == Success(LocalPage(localHinos, pagina, limit))
    ensures r.Failure? <==> tried.Failure? && localHinos == []
    ensures r.Failure? ==> r == tried
  {
    if tried.Success? || localHinos == [] then tried else Success(LocalPage(localHinos, pagina, limit))
  }

  /** The offline branch of `getHinos`. */
  function OfflineHinos(localHinos: seq<HinoLocal>, pagina: int, limit: int): (r: Result<HinosPaginados, Exc>)
    requires limit > 0
    ensures r.Failure? <==> localHinos == []
    ensures r.Failure? ==> r.error == ErrorObj("Error", "Sem conexão e sem dados locais disponíveis")
    ensures r.Success? ==> r.value == LocalPage(localHinos, pagina, limit)
  {
    if localHinos != [] then Success(LocalPage(localHinos, pagina, limit))
    else Failure(ErrorObj("Error", "Sem conexão e sem dados locais disponíveis"))
  }

  /** What the search-style endpoints (text, author, range) answer after the request:
      the mapped page, an empty page for a body without a hymn array, or on failure a
      page of the local matches, or an empty page when there are none. */
  function ListAnswer(out: Result<ListBody, Exc>, localMatches: seq<HinoLocal>, pagina: int, limit: int)
    : (r: HinosPaginados)
    requires limit > 0
    ensures out.Success? && out.value.hinos.Some? ==>
      r.hinos == Map(out.value.hinos.value, FromRaw) && r.paginacao.totalPaginas != 0
      && r.paginacao == Normalise(out.value, pagina, limit, |out.value.hinos.value|)
    ensures out.Success? && out.value.hinos.None? ==> r == EmptyPage(pagina, limit)
    ensures out.Failure? ==> r == if localMatches == [] then EmptyPage(pagina, limit) else LocalPage(localMatches, pagina, limit)
  {
    match out
    case Success(b) =>
      if b.hinos.None? then EmptyPage(pagina, limit)
      else HinosPaginados(Map(b.hinos.value, FromRaw), Normalise(b, pagina, limit, |b.hinos.value|))
    case Failure(_) =>
      if localMatches == [] then EmptyPage(pagina, limit) else LocalPage(localMatches, pagina, limit)
  }

  /** On a failed request the search-style answer has `total` 0 exactly when there are no
      local matches; it never has more hymns than the limit. */
  lemma FailedListAnswer(e: Exc, localMatches: seq<HinoLocal>, pagina: int, limit: int)
    requires limit > 0
    ensures var r := ListAnswer(Failure(e), localMatches, pagina, limit);
      |r.hinos| <= limit
      && (r.paginacao.total == 0 <==> localMatches == [])
      && (r.paginacao.totalPaginas == 0 <==> localMatches == [])
      && (forall h :: h in r.hinos ==> h in localMatches)
  {
  }

  // ----- statistics and audio --------------------------------------------------------

  /** The statistics `getEstatisticas` builds from a non-null body. */
  function StatsOf(d: RawStats): (r: Estatisticas)
    ensures r.hinosSemAudio == r.totalHinos - r.hinosComAudio
    ensures r.totalAudios == r.hinosComAudio
    ensures r.totalHinos == Or(d.totalHinos, 0) && r.hinosComAudio == Or(d.hinosComAudio, 0)
    ensures r.porcentagemComAudio == Or(d.porcentagemComAudio, 0)
  {
    var total, comAudio := Or(d.totalHinos, 0), Or(d.hinosComAudio, 0);
    Estatisticas(total, comAudio, comAudio, total - comAudio, Or(d.porcentagemComAudio, 0))
  }

  /** `hino.audioUrl && hino.audioUrl.trim() !== ''` */
  predicate HasAudio(h: HinoLocal)
  {
    h.audioUrl.Some? && h.audioUrl.value != [] && Trim(h.audioUrl.value) != []
  }

  /** `getAudios` builds the file name from the URL, not from `audio`. */
  function ListedAudio(h: HinoLocal): (a: Audio)
    ensures a.numero == h.numero && a.titulo == h.titulo && a.autor == h.autor
    ensures h.audioUrl.Some? ==> a.audioUrl == h.audioUrl.value && a.filename == h.audioUrl.value
  {
    var url := if h.audioUrl.Some? then h.audioUrl.value else [];
    Audio(h.numero, h.titulo, h.autor, url, url)
  }

  /** The audio page `getAudios` returns from the hymn list it fetched, given the audio
      count the statistics reported (0 when they were missing or failed). */
  function AudiosPage(hinos: seq<HinoLocal>, pagina: int, limit: int, statsCount: int): (r: AudiosPaginados)
    requires limit > 0
    ensures r.audios == Map(PageOf(Filter(hinos, HasAudio), pagina, limit), ListedAudio)
    ensures forall a :: a in r.audios ==> exists h :: h in hinos && HasAudio(h) && a == ListedAudio(h)
    ensures |r.audios| <= limit
    ensures forall a :: a in r.audios ==> Trim(a.audioUrl) != [] && a.filename == a.audioUrl
    ensures r.paginacao.pagina == pagina && r.paginacao.porPagina == limit
    ensures statsCount == 0 ==>
              r.paginacao.total == |Filter(hinos, HasAudio)| && r.paginacao.totalPaginas == CeilDiv(|Filter(hinos, HasAudio)|, limit)
    ensures statsCount != 0 ==> r.paginacao.total == statsCount && r.paginacao.totalPaginas == CeilDiv(statsCount, limit)
  {
    var withAudio := Filter(hinos, HasAudio);
    var page := PageOf(withAudio, pagina, limit);
    var audios := Map(page, ListedAudio);
    assert forall a :: a in audios ==> Trim(a.audioUrl) != [] && a.filename == a.audioUrl by {
      forall a | a in audios ensures Trim(a.audioUrl) != [] && a.filename == a.audioUrl {
        var i :| 0 <= i < |audios| && audios[i] == a;
        assert page[i] in page;
      }
    }
    var total := if statsCount == 0 then |withAudio| else statsCount;
    AudiosPaginados(audios, Paginacao(pagina, limit, total, CeilDiv(total, limit)))
  }

  /** The audio `getAudioPorHino` and `getAudioAleatorio` build from a hymn with a
      non-empty `audioUrl`; the file name comes from `audio`. */
  function AudioOf(h: HinoLocal): (r: Option<Audio>)
    ensures r.Some? <==> h.audioUrl.Some? && h.audioUrl.value != []
    ensures r.Some? ==>
              r.value.numero == h.numero && r.value.audioUrl == h.audioUrl.value
              && r.value.filename == (if h.audio.Some? then h.audio.value else [])
  {
    if h.audioUrl.Some? && h.audioUrl.value != [] then
      Some(Audio(h.numero, h.titulo, h.autor, h.audioUrl.value, if h.audio.Some? then h.audio.value else []))
    else None
  }

  /** The audios of a hymn page, in page order: one per hymn with a non-empty URL. */
  function AudiosOf(hinos: seq<HinoLocal>): (r: seq<Audio>)
    ensures |r| <= |hinos|
    ensures forall a :: a in r ==> a.audioUrl != []
  {
    if hinos == [] then []
    else
      var rest := AudiosOf(hinos[1..]);
      match AudioOf(hinos[0])
      case Some(a) => [a] + rest
      case None => rest
  }

  lemma {:induction false} AudiosOfAppend(hs: seq<HinoLocal>, h: HinoLocal)
    ensures AudiosOf(hs + [h]) == AudiosOf(hs) + (if AudioOf(h).Some? then [AudioOf(h).value] else [])
  {
    if hs == [] {
      assert [h][1..] == [];
      assert hs + [h] == [h];
    } else {
      assert (hs + [h])[1..] == hs[1..] + [h];
      AudiosOfAppend(hs[1..], h);
    }
  }

  // ----- memo keys -------------------------------------------------------------------

  const HinosEndpoint := "/api/hinos"
  const BuscarEndpoint := "/api/hinos/buscar"
  const EstatisticasEndpoint := "/api/hinos/estatisticas"

  function HinoEndpoint(numero: int): string { "/api/hinos/" + IntToString(numero) }
  function AutorEndpoint(autor: string): string { "/api/hinos/autor/" + autor }
  function FaixaEndpoint(inicio: int, fim: int): string { "/api/hinos/faixa/" + IntToString(inicio) + "/" + IntToString(fim) }

  /** `JSON.stringify({pagina, limit})` */
  function PageParams(pagina: int, limit: int): string
  {
    "{\"pagina\":" + IntToString(pagina) + ",\"limit\":" + IntToString(limit) + "}"
  }

  /** `JSON.stringify({q, pagina, limit})`, with `q` written between quotes as it is. */
  function SearchParams(q: string, pagina: int, limit: int): string
  {
    "{\"q\":\"" + q + "\",\"pagina\":" + IntToString(pagina) + ",\"limit\":" + IntToString(limit) + "}"
  }

  /** `getCacheKey(endpoint, params)`: the endpoint followed by the rendered parameters. */
  function CacheKey(endpoint: string, params: Option<string>): (k: string)
    ensures StartsWith(k, endpoint)
  {
    endpoint + (if params.Some? then params.value else "")
  }

  /** Every memo key of a hymn endpoint starts with `/api/hinos`, so clearing that endpoint
      drops all of them. */
  lemma HymnKeysShareEndpoint(numero: int, q: string, autor: string, inicio: int, fim: int, pagina: int, limit: int)
    ensures StartsWith(CacheKey(HinosEndpoint, Some(PageParams(pagina, limit))), HinosEndpoint)
    ensures StartsWith(CacheKey(HinoEndpoint(numero), None), HinosEndpoint)
    ensures StartsWith(CacheKey(BuscarEndpoint, Some(SearchParams(q, pagina, limit))), HinosEndpoint)
    ensures StartsWith(CacheKey(EstatisticasEndpoint, None), HinosEndpoint)
    ensures StartsWith(CacheKey(AutorEndpoint(autor), Some(PageParams(pagina, limit))), HinosEndpoint)
    ensures StartsWith(CacheKey(FaixaEndpoint(inicio, fim), Some(PageParams(pagina, limit))), HinosEndpoint)
  {
    assert StartsWith(HinoEndpoint(numero), HinosEndpoint);
    assert StartsWith(AutorEndpoint(autor), HinosEndpoint);
    assert StartsWith(FaixaEndpoint(inicio, fim), HinosEndpoint);
    PrefixTransitive(CacheKey(HinoEndpoint(numero), None), HinoEndpoint(numero), HinosEndpoint);
    PrefixTransitive(CacheKey(BuscarEndpoint, Some(SearchParams(q, pagina, limit))), BuscarEndpoint, HinosEndpoint);
    PrefixTransitive(CacheKey(EstatisticasEndpoint, None), EstatisticasEndpoint, HinosEndpoint);
    PrefixTransitive(CacheKey(AutorEndpoint(autor), Some(PageParams(pagina, limit))), AutorEndpoint(autor), HinosEndpoint);
    PrefixTransitive(CacheKey(FaixaEndpoint(inicio, fim), Some(PageParams(pagina, limit))), FaixaEndpoint(inicio, fim), HinosEndpoint);
  }

  lemma PrefixTransitive(s: string, t: string, u: string)
    requires StartsWith(s, t) && StartsWith(t, u)
    ensures StartsWith(s, u)
  {
    assert s[..|u|] == s[..|t|][..|u|];
  }

  // ----- the memo ----------------------------------------------------------------------

  /** A memoised answer of one of the endpoints. */
  datatype MemoData = PageData(page: HinosPaginados) | HinoData(hino: HinoLocal) | StatsData(stats: Estatisticas)

  datatype MemoEntry = MemoEntry(data: MemoData, timestamp: int)

  type Memo = map<string, MemoEntry>

  /** `getFromCache(key)` at clock `now`: the entry's data while it is younger than five minutes. */
  function FromCache(memo: Memo, key: string, now: int): (r: Option<MemoData>)
    ensures r.Some? <==> key in memo && now - memo[key].timestamp < MemoDuration
    ensures r.Some? ==> r.value == memo[key].data
  {
    if key in memo && now - memo[key].timestamp < MemoDuration then Some(memo[key].data) else None
  }

  /** The memo without the keys that start with `endpoint`. */
  function WithoutPrefix(memo: Memo, endpoint: string): (r: Memo)
    ensures forall k :: k in r <==> k in memo && !StartsWith(k, endpoint)
    ensures forall k :: k in r ==> r[k] == memo[k]
  {
    map k | k in memo && !StartsWith(k, endpoint) :: memo[k]
  }

  /** An entry set at `now` is served for exactly the next five minutes. */
  lemma MemoWindow(memo: Memo, key: string, data: MemoData, now: int, later: int)
    ensures FromCache(memo[key := MemoEntry(data, now)], key, later) == (if later - now < MemoDuration then Some(data) else None)
  {
  }

  /** Clearing an endpoint makes every key under it miss, keeps every other answer, and
      clearing it again changes nothing. */
  lemma ClearEndpointSpec(memo: Memo, endpoint: string, key: string, now: int)
    ensures StartsWith(key, endpoint) ==> FromCache(WithoutPrefix(memo, endpoint), key, now).None?
    ensures !StartsWith(key, endpoint) ==> FromCache(WithoutPrefix(memo, endpoint), key, now) == FromCache(memo, key, now)
    ensures WithoutPrefix(WithoutPrefix(memo, endpoint), endpoint) == WithoutPrefix(memo, endpoint)
  {
  }

  class ApiService {
    /** The module-level `cache` map. */
    var memo: Memo
    /** The offline store the fallbacks read. */
    const local: LocalStorageService

    constructor(local: LocalStorageService)
      ensures this.local == local && memo == map[]
    {
      this.local := local;
      memo := map[];
    }

    /** `setCache(key, data)`: stamps the entry with the clock. */
    method SetCache(key: string, data: MemoData, now: int)
      modifies this
      ensures memo == old(memo)[key := MemoEntry(data, now)]
    {
      memo := memo[key := MemoEntry(data, now)];
    }

    /** `clearCache()` */
    method ClearCache()
      modifies this
      ensures memo == map[]
    {
      memo := map[];
    }

    /** `clearCacheForEndpoint(endpoint)`: walks the keys and deletes those with the prefix. */
    method ClearCacheForEndpoint(endpoint: string)
      modifies this
      ensures memo == WithoutPrefix(old(memo), endpoint)
    {
      var keys := memo.Keys;
      while keys != {}
        invariant keys <= old(memo).Keys
        invariant memo == map k | k in old(memo) && (k in keys || !StartsWith(k, endpoint)) :: old(memo)[k]
        decreases keys
      {
        var k :| k in keys;
        if StartsWith(k, endpoint) {
          memo := memo - {k};
        }
        keys := keys - {k};
      }
    }

    /** `getHinos(pagina, limit)`: a fresh memo entry, else (offline) a local page or an
        error, else (online) the remote page, memoised, or the local fallback. `requests`
        counts the `fetch` calls. */
    method GetHinos(pagina: int, limit: int, now: int, online: bool, fetch: nat -> Attempt<ListBody>, unreadable: set<string>)
      returns (r: Result<HinosPaginados, Exc>, requests: nat)
      requires limit > 0
      modifies this
      ensures var key := CacheKey(HinosEndpoint, Some(PageParams(pagina, limit)));
        var hit := FromCache(old(memo), key, now);
        var localHinos := LoadHinos(local.store, unreadable);
        if hit.Some? && hit.value.PageData? then
          r == Success(hit.value.page) && requests == 0 && memo == old(memo)
        else if !online then
          r == OfflineHinos(localHinos, pagina, limit) && requests == 0 && memo == old(memo)
        else
          var tried := TryHinos(Run(fetch, 1).outcome, pagina, limit);
          requests == Run(fetch, 1).attempts
          && r == WithLocalFallback(tried, localHinos, pagina, limit)
          && memo == (if tried.Success? then old(memo)[key := MemoEntry(PageData(tried.value), now)] else old(memo))
      ensures r.Failure? && !FromCache(old(memo), CacheKey(HinosEndpoint, Some(PageParams(pagina, limit))), now).Some? ==>
        LoadHinos(local.store, unreadable) == []
    {
      var key := CacheKey(HinosEndpoint, Some(PageParams(pagina, limit)));
      var cached := FromCache(memo, key, now);
      if cached.Some? && cached.value.PageData? {
        return Success(cached.value.page), 0;
      }
      if !online {
        var localHinos := LoadHinos(local.store, unreadable);
        if |localHinos| > 0 {
          return Success(LocalPage(localHinos, pagina, limit)), 0;
        }
        return Failure(ErrorObj("Error", "Sem conexão e sem dados locais disponíveis")), 0;
      }
      var out, attempts, _ := MakeRequest(fetch);
      requests := attempts;
      var tried := TryHinos(out, pagina, limit);
      if tried.Success? {
        SetCache(key, PageData(tried.value), now);
        return tried, requests;
      }
      var localHinos := LoadHinos(local.store, unreadable);
      if |localHinos| > 0 {
        r := Success(LocalPage(localHinos, pagina, limit));
      } else {
        r := tried;
      }
    }

    /** The shared body of the text, author and range searches. */
    method FetchList(key: string, pagina: int, limit: int, now: int, fetch: nat -> Attempt<ListBody>, localMatches: seq<HinoLocal>)
      returns (r: HinosPaginados, requests: nat)
      requires limit > 0
      modifies this
      ensures var hit := FromCache(old(memo), key, now);
        if hit.Some? && hit.value.PageData? then
          r == hit.value.page && requests == 0 && memo == old(memo)
        else
          var out := Run(fetch, 1).outcome;
          requests == Run(fetch, 1).attempts
          && r == ListAnswer(out, localMatches, pagina, limit)
          && memo == (if out.Success? && out.value.hinos.Some? then old(memo)[key := MemoEntry(PageData(r), now)] else old(memo))
    {
      var cached := FromCache(memo, key, now);
      if cached.Some? && cached.value.PageData? {
        return cached.value.page, 0;
      }
      var out, attempts, _ := MakeRequest(fetch);
      requests := attempts;
      r := ListAnswer(out, localMatches, pagina, limit);
      if out.Success? && out.value.hinos.Some? {
        SetCache(key, PageData(r), now);
      }
    }

    /** `buscarHinosPorTexto(query, pagina, limit)`; the fallback searches the local list. */
    method BuscarHinosPorTexto(query: string, pagina: int, limit: int, now: int, fetch: nat -> Attempt<ListBody>, unreadable: set<string>)
      returns (r: HinosPaginados, requests: nat)
      requires limit > 0
      modifies this
      ensures var key := CacheKey(BuscarEndpoint, Some(SearchParams(query, pagina, limit)));
        var hit := FromCache(old(memo), key, now);
        var out := Run(fetch, 1).outcome;
        (hit.Some? && hit.value.PageData? ==> r == hit.value.page && requests == 0 && memo == old(memo))
        && (!(hit.Some? && hit.value.PageData?) ==>
              r == ListAnswer(out, SearchHinos(local.store, unreadable, query), pagina, limit)
              && requests == Run(fetch, 1).attempts
              && memo == (if out.Success? && out.value.hinos.Some? then old(memo)[key := MemoEntry(PageData(r), now)] else old(memo)))
    {
      r, requests := FetchList(CacheKey(BuscarEndpoint, Some(SearchParams(query, pagina, limit))), pagina, limit, now, fetch,
                               SearchHinos(local.store, unreadable, query));
    }

    /** `getHinosPorAutor(autor, pagina, limit)`; the fallback filters the local list by author. */
    method GetHinosPorAutor(autor: string, pagina: int, limit: int, now: int, fetch: nat -> Attempt<ListBody>, unreadable: set<string>)
      returns (r: HinosPaginados, requests: nat)
      requires limit > 0
      modifies this
      ensures var key := CacheKey(AutorEndpoint(autor), Some(PageParams(pagina, limit)));
        var hit := FromCache(old(memo), key, now);
        var out := Run(fetch, 1).outcome;
        (hit.Some? && hit.value.PageData? ==> r == hit.value.page && requests == 0 && memo == old(memo))
        && (!(hit.Some? && hit.value.PageData?) ==>
              r == ListAnswer(out, GetHinosByAuthor(local.store, unreadable, autor), pagina, limit)
              && requests == Run(fetch, 1).attempts
              && memo == (if out.Success? && out.value.hinos.Some? then old(memo)[key := MemoEntry(PageData(r), now)] else old(memo)))
    {
      r, requests := FetchList(CacheKey(AutorEndpoint(autor), Some(PageParams(pagina, limit))), pagina, limit, now, fetch,
                               GetHinosByAuthor(local.store, unreadable, autor));
    }

    /** `getHinosPorFaixa(inicio, fim, pagina, limit)`; the fallback is the sorted local range. */
    method GetHinosPorFaixa(inicio: int, fim: int, pagina: int, limit: int, now: int, fetch: nat -> Attempt<ListBody>, unreadable: set<string>)
      returns (r: HinosPaginados, requests: nat)
      requires limit > 0
      modifies this
      ensures var key := CacheKey(FaixaEndpoint(inicio, fim), Some(PageParams(pagina, limit)));
        var hit := FromCache(old(memo), key, now);
        var out := Run(fetch, 1).outcome;
        (hit.Some? && hit.value.PageData? ==> r == hit.value.page && requests == 0 && memo == old(memo))
        && (!(hit.Some? && hit.value.PageData?) ==>
              r == ListAnswer(out, GetHinosByRange(local.store, unreadable, inicio, fim), pagina, limit)
              && requests == Run(fetch, 1).attempts
              && memo == (if out.Success? && out.value.hinos.Some? then old(memo)[key := MemoEntry(PageData(r), now)] else old(memo)))
    {
      r, requests := FetchList(CacheKey(FaixaEndpoint(inicio, fim), Some(PageParams(pagina, limit))), pagina, limit, now, fetch,
                               GetHinosByRange(local.store, unreadable, inicio, fim));
    }

    /** `getHinoPorNumero(numero)`: a body without a (non-zero) number is `null`; only a
        failed request falls back to the local list. */
    method GetHinoPorNumero(numero: int, now: int, fetch: nat -> Attempt<RawHino>, unreadable: set<string>)
      returns (r: Option<HinoLocal>, requests: nat)
      modifies this
      ensures var key := CacheKey(HinoEndpoint(numero), None);
        var hit := FromCache(old(memo), key, now);
        var out := Run(fetch, 1).outcome;
        if hit.Some? && hit.value.HinoData? then
          r == Some(hit.value.hino) && requests == 0 && memo == old(memo)
        else
          requests == Run(fetch, 1).attempts
          && (out.Success? && out.value.number != 0 ==>
                r == Some(FromRaw(out.value)) && memo == old(memo)[key := MemoEntry(HinoData(FromRaw(out.value)), now)])
          && (out.Success? && out.value.number == 0 ==> r.None? && memo == old(memo))
          && (out.Failure? ==> r == GetHinoByNumber(local.store, unreadable, numero) && memo == old(memo))
    {
      var key := CacheKey(HinoEndpoint(numero), None);
      var cached := FromCache(memo, key, now);
      if cached.Some? && cached.value.HinoData? {
        return Some(cached.value.hino), 0;
      }
      var out, attempts, _ := MakeRequest(fetch);
      requests := attempts;
      if out.Success? {
        if out.value.number != 0 {
          var hino := FromRaw(out.value);
          SetCache(key, HinoData(hino), now);
          return Some(hino), requests;
        }
        return None, requests;
      }
      r := GetHinoByNumber(local.store, unreadable, numero);
    }

    /** `getHinoAleatorio()`: not memoised; a failed request falls back to a random local hymn. */
    method GetHinoAleatorio(fetch: nat -> Attempt<RawHino>, unreadable: set<string>)
      returns (r: Option<HinoLocal>, requests: nat)
      ensures requests == Run(fetch, 1).attempts
      ensures var out := Run(fetch, 1).outcome;
        (out.Success? && out.value.number != 0 ==> r == Some(FromRaw(out.value)))
        && (out.Success? && out.value.number == 0 ==> r.None?)
        && (out.Failure? ==> (r.None? <==> LoadHinos(local.store, unreadable) == [])
                             && (r.Some? ==> r.value in LoadHinos(local.store, unreadable)))
    {
      var out, attempts, _ := MakeRequest(fetch);
      requests := attempts;
      if out.Success? {
        if out.value.number != 0 {
          return Some(FromRaw(out.value)), requests;
        }
        return None, requests;
      }
      r := local.GetRandomHino(unreadable);
    }

    /** `getEstatisticas()`: memoised; a failed request is rethrown (no local fallback). */
    method GetEstatisticas(now: int, fetch: nat -> Attempt<Option<RawStats>>)
      returns (r: Result<Option<Estatisticas>, Exc>, requests: nat)
      modifies this
      ensures var key := CacheKey(EstatisticasEndpoint, None);
        var hit := FromCache(old(memo), key, now);
        var out := Run(fetch, 1).outcome;
        if hit.Some? && hit.value.StatsData? then
          r == Success(Some(hit.value.stats)) && requests == 0 && memo == old(memo)
        else
          requests == Run(fetch, 1).attempts
          && (out.Failure? ==> r == Failure(out.error) && memo == old(memo))
          && (out.Success? && out.value.None? ==> r == Success(None) && memo == old(memo))
          && (out.Success? && out.value.Some? ==>
                r == Success(Some(StatsOf(out.value.value)))
                && memo == old(memo)[key := MemoEntry(StatsData(StatsOf(out.value.value)), now)])
    {
      var key := CacheKey(EstatisticasEndpoint, None);
      var cached := FromCache(memo, key, now);
      if cached.Some? && cached.value.StatsData? {
        return Success(Some(cached.value.stats)), 0;
      }
      var out, attempts, _ := MakeRequest(fetch);
      requests := attempts;
      match out {
        case Failure(e) =>
          r := Failure(e);
        case Success(body) =>
          if body.Some? {
            var stats := StatsOf(body.value);
            SetCache(key, StatsData(stats), now);
            r := Success(Some(stats));
          } else {
            r := Success(None);
          }
      }
    }

    /** `getAudios(pagina, limit)`: the statistics give the audio count (a failure there is
        ignored), then hymn page 1 with limit 640 is fetched and its hymns with a non-blank
        URL are paged; only a failure of that fetch propagates. */
    method GetAudios(pagina: int, limit: int, now: int, statsFetch: nat -> Attempt<Option<RawStats>>,
                     online: bool, hinosFetch: nat -> Attempt<ListBody>, unreadable: set<string>)
      returns (r: Result<AudiosPaginados, Exc>)
      requires limit > 0
      modifies this
      ensures r.Success? ==> |r.value.audios| <= limit && r.value.paginacao.pagina == pagina
      ensures r.Success? ==> forall a :: a in r.value.audios ==> Trim(a.audioUrl) != []
      ensures r.Failure? ==> LoadHinos(local.store, unreadable) == []
    {
      var stats, _ := GetEstatisticas(now, statsFetch);
      var totalAudios := 0;
      if stats.Success? && stats.value.Some? {
        totalAudios := stats.value.value.hinosComAudio;
      }
      var response, _ := GetHinos(1, 640, now, online, hinosFetch, unreadable);
      if response.Failure? {
        return Failure(response.error);
      }
      r := Success(AudiosPage(response.value.hinos, pagina, limit, totalAudios));
    }

    /** `getAudioPorHino(numero)`: the hymn lookup, kept only when it has an audio URL. */
    method GetAudioPorHino(numero: int, now: int, fetch: nat -> Attempt<RawHino>, unreadable: set<string>)
      returns (r: Option<Audio>, requests: nat)
      modifies this
      ensures r.Some? ==> r.value.audioUrl != []
      ensures Run(fetch, 1).outcome.Failure? && !(FromCache(old(memo), CacheKey(HinoEndpoint(numero), None), now).Some?
                && FromCache(old(memo), CacheKey(HinoEndpoint(numero), None), now).value.HinoData?) ==>
        r == (match GetHinoByNumber(local.store, unreadable, numero) case Some(h) => AudioOf(h) case None => None)
    {
      var hino;
      hino, requests := GetHinoPorNumero(numero, now, fetch, unreadable);
      r := if hino.Some? then AudioOf(hino.value) else None;
    }

    /** `getAudioAleatorio()`: the random hymn, kept only when it has an audio URL. */
    method GetAudioAleatorio(fetch: nat -> Attempt<RawHino>, unreadable: set<string>)
      returns (r: Option<Audio>, requests: nat)
      ensures r.Some? ==> r.value.audioUrl != []
      ensures Run(fetch, 1).outcome.Success? && Run(fetch, 1).outcome.value.number != 0 ==>
        r == AudioOf(FromRaw(Run(fetch, 1).outcome.value))
    {
      var hino;
      hino, requests := GetHinoAleatorio(fetch, unreadable);
      r := if hino.Some? then AudioOf(hino.value) else None;
    }

    /** `buscarAudiosPorTexto(query, pagina, limit)`: the text search, keeping the hymns with
        an audio URL; the pagination is passed through unchanged. */
    method BuscarAudiosPorTexto(query: string, pagina: int, limit: int, now: int, fetch: nat -> Attempt<ListBody>, unreadable: set<string>)
      returns (r: AudiosPaginados, requests: nat)
      requires limit > 0
      modifies this
      ensures var key := CacheKey(BuscarEndpoint, Some(SearchParams(query, pagina, limit)));
        var hit := FromCache(old(memo), key, now);
        var out := Run(fetch, 1).outcome;
        var page := if hit.Some? && hit.value.PageData? then hit.value.page
                    else ListAnswer(out, SearchHinos(local.store, unreadable, query), pagina, limit);
        r == AudiosPaginados(AudiosOf(page.hinos), page.paginacao)
        && requests == (if hit.Some? && hit.value.PageData? then 0 else Run(fetch, 1).attempts)
      ensures forall a :: a in r.audios ==> a.audioUrl != []
    {
      var response;
      response, requests := BuscarHinosPorTexto(query, pagina, limit, now, fetch, unreadable);
      var hinos := response.hinos;
      var audios: seq<Audio> := [];
      for i := 0 to |hinos|
        invariant audios == AudiosOf(hinos[..i])
      {
        var hino := hinos[i];
        AudiosOfAppend(hinos[..i], hino);
        TakeSnoc(hinos, i + 1);
        if hino.audioUrl.Some? && hino.audioUrl.value != [] {
          audios := audios + [AudioOf(hino).value];
        }
      }
      assert hinos[..|hinos|] == hinos;
      r := AudiosPaginados(audios, response.paginacao);
    }
  }
}
