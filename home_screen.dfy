/** The hymn list screen: a paged list that a search can replace and "load more" extends.
    The API client's answers are parameters: `pages(p)` is what `getHinos(p, 20)` answers
    (a failure is the error it throws), `lookup(n)` what `getHinoPorNumero(n)` answers,
    `search(p)` what `buscarHinosPorTexto(searchText, p, 20)` answers and `pick` what
    `getHinoAleatorio()` answers; those three never throw. */
module HomeScreenModel {
  import opened Common
  import opened Hymns
  import opened Api
  import opened SearchInput

  const LoadFailedMessage := "Não foi possível carregar os hinos. Tente novamente."
  const RandomFailedMessage := "Não foi possível buscar um hino aleatório"
  const RandomLabel := "\U{1F3B2} Hino Aleatório"

  function NotFoundMessage(n: int): string
  {
    "O hino número " + IntToString(n) + " não foi encontrado."
  }

  /** The alert a caught error raises: the connection message for an abort or a timeout. */
  function ErrorMessageFor(e: Exc, otherwise: string): string
  {
    if IsRetryable(e) then ConnectionMessage else otherwise
  }

  /** The list pages 1..n concatenated, when every one of them loaded. */
  function ListedUpTo(pages: int -> Result<HinosPaginados, Exc>, n: int): (r: Option<seq<HinoLocal>>)
    decreases n
  {
    if n <= 0 then Some([])
    else match ListedUpTo(pages, n - 1)
      case None => None
      case Some(prev) => if pages(n).Success? then Some(prev + pages(n).value.hinos) else None
  }

  class HomeScreen {
    var hinos: seq<HinoLocal>
    var loading: bool
    var searchText: string
    var searching: bool
    var paginaAtual: int
    var carregandoMais: bool
    var temMaisPaginas: bool
    var totalHinos: int
    var totalPaginas: int
    var alert: Option<string>

    constructor()
      ensures hinos == [] && loading && searchText == [] && !searching && paginaAtual == 1
      ensures !carregandoMais && temMaisPaginas && totalHinos == 0 && totalPaginas == 0 && alert.None?
    {
      hinos, loading, searchText, searching := [], true, [], false;
      paginaAtual, carregandoMais, temMaisPaginas := 1, false, true;
      totalHinos, totalPaginas, alert := 0, 0, None;
    }

    /** `carregarHinos(pagina, resetar)`: a reset replaces the list and the totals, a
        continuation appends the page; either way more pages remain while `pagina` is
        below the page count. A failure only raises an alert. */
    method CarregarHinos(pagina: int, resetar: bool, pages: int -> Result<HinosPaginados, Exc>)
      returns (requested: seq<Request>)
      modifies this
      ensures requested == [ListPage(pagina)]
      ensures !carregandoMais && (resetar ==> !loading) && (!resetar ==> loading == old(loading))
      ensures searchText == old(searchText) && searching == old(searching)
      ensures resetar ==> paginaAtual == 1
      ensures !resetar ==> paginaAtual == old(paginaAtual) && totalHinos == old(totalHinos) && totalPaginas == old(totalPaginas)
      ensures pages(pagina).Success? ==>
        var page := pages(pagina).value;
        alert == old(alert) && temMaisPaginas == (pagina < page.paginacao.totalPaginas)
        && (resetar ==> hinos == page.hinos && totalHinos == page.paginacao.total
                        && totalPaginas == page.paginacao.totalPaginas)
        && (!resetar ==> hinos == old(hinos) + page.hinos)
      ensures pages(pagina).Failure? ==>
        hinos == old(hinos) && alert == Some(ErrorMessageFor(pages(pagina).error, LoadFailedMessage))
        && (resetar ==> temMaisPaginas && totalHinos == old(totalHinos) && totalPaginas == old(totalPaginas))
        && (!resetar ==> temMaisPaginas == old(temMaisPaginas))
    {
      if resetar {
        loading := true;
        paginaAtual := 1;
        temMaisPaginas := true;
      } else {
        carregandoMais := true;
      }
      requested := [ListPage(pagina)];
      var response := pages(pagina);
      if response.Success? {
        var page := response.value;
        if resetar {
          hinos := page.hinos;
          totalHinos := page.paginacao.total;
          totalPaginas := page.paginacao.totalPaginas;
        } else {
          hinos := hinos + page.hinos;
        }
        temMaisPaginas := pagina < page.paginacao.totalPaginas;
      } else {
        alert := Some(ErrorMessageFor(response.error, LoadFailedMessage));
      }
      if resetar {
        loading := false;
      }
      carregandoMais := false;
    }

    /** Clears the list for a number that is not looked up or not found. */
    method ShowNothing()
      modifies this
      ensures hinos == [] && !temMaisPaginas && totalHinos == 0 && totalPaginas == 0
      ensures searchText == old(searchText) && paginaAtual == old(paginaAtual) && alert == old(alert)
    {
      hinos, temMaisPaginas, totalHinos, totalPaginas := [], false, 0, 0;
    }

    /** `buscarHinos`: reloads, looks a number up, rejects an out-of-range number without
        a request, or runs the text search on page 1. */
    method BuscarHinos(pages: int -> Result<HinosPaginados, Exc>, lookup: int -> Option<HinoLocal>, search: int -> HinosPaginados)
      returns (requested: seq<Request>)
      modifies this
      ensures searchText == old(searchText) && paginaAtual == 1
      ensures var q := Dispatch(old(searchText));
        (q.Reload? ==>
           (requested == [ListPage(1)]
            && !loading && !carregandoMais
            && (pages(1).Success? ==>
                  (hinos == pages(1).value.hinos && totalHinos == pages(1).value.paginacao.total
                   && totalPaginas == pages(1).value.paginacao.totalPaginas && alert == old(alert)
                   && temMaisPaginas == (1 < pages(1).value.paginacao.totalPaginas)))
            && (pages(1).Failure? ==>
                  (hinos == old(hinos) && alert == Some(ErrorMessageFor(pages(1).error, LoadFailedMessage))
                   && temMaisPaginas && totalHinos == old(totalHinos) && totalPaginas == old(totalPaginas)))))
        && (!q.Reload? ==> !searching)
        && (q.ByNumber? && lookup(q.n).Some? ==>
              (requested == [NumberLookup(q.n)]
               && hinos == [lookup(q.n).value] && !temMaisPaginas && totalHinos == 1 && totalPaginas == 1))
        && (q.ByNumber? && lookup(q.n).None? ==>
              (requested == [NumberLookup(q.n)]
               && hinos == [] && !temMaisPaginas && totalHinos == 0 && totalPaginas == 0
               && alert == Some(NotFoundMessage(q.n))))
        && (q.TooLarge? ==>
              (requested == [] && hinos == [] && !temMaisPaginas && totalHinos == 0
               && totalPaginas == 0 && alert == Some(TooLargeMessage)))
        && (q.NonPositive? ==>
              (requested == [] && hinos == [] && !temMaisPaginas && totalHinos == 0
               && totalPaginas == 0 && alert == Some(NonPositiveMessage)))
        && (q.ByText? ==>
              (requested == [TextPage(old(searchText), 1)]
               && hinos == search(1).hinos && totalHinos == search(1).paginacao.total
               && totalPaginas == search(1).paginacao.totalPaginas
               && temMaisPaginas == (search(1).paginacao.pagina < search(1).paginacao.totalPaginas)))
    {
      var q := Dispatch(searchText);
      if q.Reload? {
        paginaAtual := 1;
        requested := CarregarHinos(1, true, pages);
        return;
      }
      searching := true;
      paginaAtual := 1;
      match q {
        case ByNumber(n) =>
          requested := [NumberLookup(n)];
          var found := lookup(n);
          if found.Some? {
            hinos, temMaisPaginas, totalHinos, totalPaginas := [found.value], false, 1, 1;
          } else {
            ShowNothing();
            alert := Some(NotFoundMessage(n));
          }
        case TooLarge(n) =>
          requested := [];
          alert := Some(TooLargeMessage);
          ShowNothing();
        case NonPositive(n) =>
          requested := [];
          alert := Some(NonPositiveMessage);
          ShowNothing();
        case ByText =>
          requested := [TextPage(searchText, 1)];
          var response := search(1);
          hinos := response.hinos;
          temMaisPaginas := response.paginacao.pagina < response.paginacao.totalPaginas;
          totalHinos := response.paginacao.total;
          totalPaginas := response.paginacao.totalPaginas;
      }
      searching := false;
    }

    /** `carregarMaisHinos`, as written: `paginaAtual` advances after the list branch even
        when `carregarHinos` caught a failure, because that call never rethrows. */
    method CarregarMaisHinos(pages: int -> Result<HinosPaginados, Exc>, search: int -> HinosPaginados)
      returns (requested: seq<Request>)
      modifies this
      ensures old(carregandoMais) || !old(temMaisPaginas) ==>
        requested == [] && hinos == old(hinos) && paginaAtual == old(paginaAtual)
        && temMaisPaginas == old(temMaisPaginas) && carregandoMais == old(carregandoMais)
      ensures !old(carregandoMais) && old(temMaisPaginas) ==>
        var p := old(paginaAtual) + 1;
        paginaAtual == p && !carregandoMais && searchText == old(searchText)
        && (Trim(old(searchText)) != [] ==>
              (requested == [TextPage(old(searchText), p)]
               && hinos == old(hinos) + search(p).hinos
               && temMaisPaginas == (p < search(p).paginacao.totalPaginas)))
        && (Trim(old(searchText)) == [] ==>
              (requested == [ListPage(p)]
               && (pages(p).Success? ==>
                     (hinos == old(hinos) + pages(p).value.hinos
                      && temMaisPaginas == (p < pages(p).value.paginacao.totalPaginas)))
               && (pages(p).Failure? ==> (hinos == old(hinos) && temMaisPaginas == old(temMaisPaginas)))))
    {
      if carregandoMais || !temMaisPaginas {
        return [];
      }
      var proxima := paginaAtual + 1;
      carregandoMais := true;
      if Trim(searchText) != [] {
        requested := [TextPage(searchText, proxima)];
        var response := search(proxima);
        hinos := hinos + response.hinos;
        temMaisPaginas := proxima < response.paginacao.totalPaginas;
      } else {
        requested := CarregarHinos(proxima, false, pages);
      }
      paginaAtual := proxima;
      carregandoMais := false;
    }

    /** Load-more that advances `paginaAtual` only when the page arrived, as the audio
        screen does: the list then always holds pages 1..paginaAtual. */
    method CarregarMaisHinosCorrigido(pages: int -> Result<HinosPaginados, Exc>, search: int -> HinosPaginados)
      returns (requested: seq<Request>)
      modifies this
      ensures searchText == old(searchText)
      ensures old(carregandoMais) || !old(temMaisPaginas) ==>
        requested == [] && hinos == old(hinos) && paginaAtual == old(paginaAtual)
        && temMaisPaginas == old(temMaisPaginas) && carregandoMais == old(carregandoMais)
      ensures !old(carregandoMais) && old(temMaisPaginas) && Trim(old(searchText)) == [] ==>
        var p := old(paginaAtual) + 1;
        requested == [ListPage(p)] && !carregandoMais
        && (pages(p).Success? ==>
              (paginaAtual == p && hinos == old(hinos) + pages(p).value.hinos
               && temMaisPaginas == (p < pages(p).value.paginacao.totalPaginas)))
        && (pages(p).Failure? ==>
              (paginaAtual == old(paginaAtual) && hinos == old(hinos) && temMaisPaginas == old(temMaisPaginas)))
      ensures Trim(old(searchText)) == [] && old(paginaAtual) >= 0 && ListedUpTo(pages, old(paginaAtual)) == Some(old(hinos)) ==>
        ListedUpTo(pages, paginaAtual) == Some(hinos)
    {
      if carregandoMais || !temMaisPaginas {
        return [];
      }
      var proxima := paginaAtual + 1;
      carregandoMais := true;
      if Trim(searchText) != [] {
        requested := [TextPage(searchText, proxima)];
        var response := search(proxima);
        hinos := hinos + response.hinos;
        temMaisPaginas := proxima < response.paginacao.totalPaginas;
        paginaAtual := proxima;
      } else {
        requested := CarregarHinos(proxima, false, pages);
        if pages(proxima).Success? {
          paginaAtual := proxima;
        }
      }
      carregandoMais := false;
    }

    /** `buscarHinoAleatorio`: the picked hymn becomes the whole list. */
    method BuscarHinoAleatorio(pick: Option<HinoLocal>) returns (requested: seq<Request>)
      modifies this
      ensures requested == [RandomPick] && paginaAtual == 1 && !searching
      ensures pick.Some? ==>
        hinos == [pick.value] && !temMaisPaginas && totalHinos == 1 && totalPaginas == 1
        && searchText == RandomLabel
      ensures pick.None? ==>
        hinos == old(hinos) && searchText == old(searchText) && alert == Some(RandomFailedMessage)
    {
      searching := true;
      paginaAtual := 1;
      requested := [RandomPick];
      if pick.Some? {
        hinos, temMaisPaginas, totalHinos, totalPaginas := [pick.value], false, 1, 1;
        searchText := RandomLabel;
      } else {
        alert := Some(RandomFailedMessage);
      }
      searching := false;
    }
  }

  /** Page 2 fails once: the list keeps page 1 only, yet the next "load more" asks for
      page 3, so page 2 is never shown. */
  method LoadMoreSkipsFailedPage(pages: int -> Result<HinosPaginados, Exc>, search: int -> HinosPaginados)
    returns (shown: seq<HinoLocal>, pagina: int, second: seq<Request>)
    requires pages(1).Success? && pages(1).value.paginacao.totalPaginas >= 3 && pages(2).Failure?
    ensures shown == pages(1).value.hinos && pagina == 2 && second == [ListPage(3)]
    ensures ListedUpTo(pages, pagina) == None
  {
    var screen := new HomeScreen();
    var _ := screen.CarregarHinos(1, true, pages);
    var _ := screen.CarregarMaisHinos(pages, search);
    shown, pagina := screen.hinos, screen.paginaAtual;
    second := screen.CarregarMaisHinos(pages, search);
  }

  /** The same failure with the corrected load-more: the next request asks for page 2 again. */
  method CorrectedLoadMoreRetriesPage(pages: int -> Result<HinosPaginados, Exc>, search: int -> HinosPaginados)
    returns (shown: seq<HinoLocal>, pagina: int, second: seq<Request>)
    requires pages(1).Success? && pages(1).value.paginacao.totalPaginas >= 3 && pages(2).Failure?
    ensures shown == pages(1).value.hinos && pagina == 1 && second == [ListPage(2)]
    ensures ListedUpTo(pages, pagina) == Some(shown)
  {
    var screen := new HomeScreen();
    var _ := screen.CarregarHinos(1, true, pages);
    assert ListedUpTo(pages, 1) == Some([] + pages(1).value.hinos);
    assert [] + pages(1).value.hinos == pages(1).value.hinos;
    var _ := screen.CarregarMaisHinosCorrigido(pages, search);
    shown, pagina := screen.hinos, screen.paginaAtual;
    second := screen.CarregarMaisHinosCorrigido(pages, search);
  }
}
