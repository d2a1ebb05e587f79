/** The audio list screen: the same paging and search rules as the hymn list, over the
    hymns that have an audio file. The API client's answers are parameters: `audios(p)` is
    what `getAudios(p, 20)` answers (a failure is the error it throws), `lookup(n)` what
    `getAudioPorHino(n)` answers, `search(p)` what `buscarAudiosPorTexto(searchText, p, 20)`
    answers and `pick` what `getAudioAleatorio()` answers; those three never throw. */
module AudioScreenModel {
  import opened Common
  import opened Hymns
  import opened Api
  import opened SearchInput

  const LoadFailedMessage := "Não foi possível carregar os áudios. Tente novamente."
  const LoadMoreFailedMessage := "Não foi possível carregar mais áudios. Tente novamente."
  const RandomFailedMessage := "Não foi possível buscar um áudio aleatório"
  const RandomLabel := "\U{1F3B2} Áudio Aleatório"

  function NotFoundMessage(n: int): string
  {
    "O áudio do hino número " + IntToString(n) + " não foi encontrado."
  }

  function ErrorMessageFor(e: Exc, otherwise: string): string
  {
    if IsRetryable(e) then ConnectionMessage else otherwise
  }

  /** The audio pages 1..n concatenated, when every one of them loaded. */
  function ListedUpTo(audios: int -> Result<AudiosPaginados, Exc>, n: int): Option<seq<Audio>>
    decreases n
  {
    if n <= 0 then Some([])
    else match ListedUpTo(audios, n - 1)
      case None => None
      case Some(prev) => if audios(n).Success? then Some(prev + audios(n).value.audios) else None
  }

  class AudioScreen {
    var audios: seq<Audio>
    var loading: bool
    var searchText: string
    var searching: bool
    var paginaAtual: int
    var carregandoMais: bool
    var temMaisPaginas: bool
    var totalAudios: int
    var totalPaginas: int
    var alert: Option<string>

    constructor()
      ensures audios == [] && loading && searchText == [] && !searching && paginaAtual == 1
      ensures !carregandoMais && temMaisPaginas && totalAudios == 0 && totalPaginas == 0 && alert.None?
    {
      audios, loading, searchText, searching := [], true, [], false;
      paginaAtual, carregandoMais, temMaisPaginas := 1, false, true;
      totalAudios, totalPaginas, alert := 0, 0, None;
    }

    /** `carregarAudios(pagina, resetar)`: as on the hymn list, except that `loading` is
        cleared whether or not the call was a reset. */
    method CarregarAudios(pagina: int, resetar: bool, pages: int -> Result<AudiosPaginados, Exc>)
      returns (requested: seq<Request>)
      modifies this
      ensures requested == [ListPage(pagina)]
      ensures !carregandoMais && !loading
      ensures searchText == old(searchText) && searching == old(searching)
      ensures resetar ==> paginaAtual == 1
      ensures !resetar ==> paginaAtual == old(paginaAtual) && totalAudios == old(totalAudios) && totalPaginas == old(totalPaginas)
      ensures pages(pagina).Success? ==>
        var page := pages(pagina).value;
        alert == old(alert) && temMaisPaginas == (pagina < page.paginacao.totalPaginas)
        && (resetar ==>
              (audios == page.audios && totalAudios == page.paginacao.total
               && totalPaginas == page.paginacao.totalPaginas))
        && (!resetar ==> audios == old(audios) + page.audios)
      ensures pages(pagina).Failure? ==>
        audios == old(audios) && alert == Some(ErrorMessageFor(pages(pagina).error, LoadFailedMessage))
        && (resetar ==> temMaisPaginas && totalAudios == old(totalAudios) && totalPaginas == old(totalPaginas))
        && (!resetar ==> temMaisPaginas == old(temMaisPaginas))
    {
      if resetar {
        loading := true;
        paginaAtual := 1;
        temMaisPaginas := true;
      } else {
        carregandoMais := true;
      }
      requested := [ListPage(pagina)];
      var response := pages(pagina);
      if response.Success? {
        var page := response.value;
        if resetar {
          audios := page.audios;
          totalAudios := page.paginacao.total;
          totalPaginas := page.paginacao.totalPaginas;
        } else {
          audios := audios + page.audios;
        }
        temMaisPaginas := pagina < page.paginacao.totalPaginas;
      } else {
        alert := Some(ErrorMessageFor(response.error, LoadFailedMessage));
      }
      loading := false;
      carregandoMais := false;
    }

    method ShowNothing()
      modifies this
      ensures audios == [] && !temMaisPaginas && totalAudios == 0 && totalPaginas == 0
      ensures searchText == old(searchText) && paginaAtual == old(paginaAtual) && alert == old(alert)
    {
      audios, temMaisPaginas, totalAudios, totalPaginas := [], false, 0, 0;
    }

    /** `buscarAudios`: the hymn list's dispatch, with the audio lookups. */
    method BuscarAudios(pages: int -> Result<AudiosPaginados, Exc>, lookup: int -> Option<Audio>, search: int -> AudiosPaginados)
      returns (requested: seq<Request>)
      modifies this
      ensures searchText == old(searchText) && paginaAtual == 1
      ensures var q := Dispatch(old(searchText));
        (q.Reload? ==>
           (requested == [ListPage(1)]
            && !loading && !carregandoMais
            && (pages(1).Success? ==>
                  (audios == pages(1).value.audios && totalAudios == pages(1).value.paginacao.total
                   && totalPaginas == pages(1).value.paginacao.totalPaginas && alert == old(alert)
                   && temMaisPaginas == (1 < pages(1).value.paginacao.totalPaginas)))
            && (pages(1).Failure? ==>
                  (audios == old(audios) && alert == Some(ErrorMessageFor(pages(1).error, LoadFailedMessage))
                   && temMaisPaginas && totalAudios == old(totalAudios) && totalPaginas == old(totalPaginas)))))
        && (!q.Reload? ==> !searching)
        && (q.ByNumber? && lookup(q.n).Some? ==>
              (requested == [NumberLookup(q.n)]
               && audios == [lookup(q.n).value] && !temMaisPaginas && totalAudios == 1 && totalPaginas == 1))
        && (q.ByNumber? && lookup(q.n).None? ==>
              (requested == [NumberLookup(q.n)]
               && audios == [] && !temMaisPaginas && totalAudios == 0 && totalPaginas == 0
               && alert == Some(NotFoundMessage(q.n))))
        && (q.TooLarge? ==>
              (requested == [] && audios == [] && !temMaisPaginas && totalAudios == 0
               && totalPaginas == 0 && alert == Some(TooLargeMessage)))
        && (q.NonPositive? ==>
              (requested == [] && audios == [] && !temMaisPaginas && totalAudios == 0
               && totalPaginas == 0 && alert == Some(NonPositiveMessage)))
        && (q.ByText? ==>
              (requested == [TextPage(old(searchText), 1)]
               && audios == search(1).audios && totalAudios == search(1).paginacao.total
               && totalPaginas == search(1).paginacao.totalPaginas
               && temMaisPaginas == (search(1).paginacao.pagina < search(1).paginacao.totalPaginas)))
    {
      var q := Dispatch(searchText);
      if q.Reload? {
        paginaAtual := 1;
        requested := CarregarAudios(1, true, pages);
        return;
      }
      searching := true;
      paginaAtual := 1;
      match q {
        case ByNumber(n) =>
          requested := [NumberLookup(n)];
          var found := lookup(n);
          if found.Some? {
            audios, temMaisPaginas, totalAudios, totalPaginas := [found.value], false, 1, 1;
          } else {
            ShowNothing();
            alert := Some(NotFoundMessage(n));
          }
        case TooLarge(n) =>
          requested := [];
          alert := Some(TooLargeMessage);
          ShowNothing();
        case NonPositive(n) =>
          requested := [];
          alert := Some(NonPositiveMessage);
          ShowNothing();
        case ByText =>
          requested := [TextPage(searchText, 1)];
          var response := search(1);
          audios := response.audios;
          temMaisPaginas := response.paginacao.pagina < response.paginacao.totalPaginas;
          totalAudios := response.paginacao.total;
          totalPaginas := response.paginacao.totalPaginas;
      }
      searching := false;
    }

    /** `carregarMaisAudios`: a failed page leaves the list and `paginaAtual` as they were,
        so the next call asks for the same page again. */
    method CarregarMaisAudios(pages: int -> Result<AudiosPaginados, Exc>, search: int -> AudiosPaginados)
      returns (requested: seq<Request>)
      modifies this
      ensures searchText == old(searchText)
      ensures old(carregandoMais) || !old(temMaisPaginas) ==>
        requested == [] && audios == old(audios) && paginaAtual == old(paginaAtual)
        && temMaisPaginas == old(temMaisPaginas) && carregandoMais == old(carregandoMais)
      ensures !old(carregandoMais) && old(temMaisPaginas) ==>
        var p := old(paginaAtual) + 1;
        !carregandoMais
        && (Trim(old(searchText)) != [] ==>
              (requested == [TextPage(old(searchText), p)] && paginaAtual == p
               && audios == old(audios) + search(p).audios
               && temMaisPaginas == (p < search(p).paginacao.totalPaginas)))
        && (Trim(old(searchText)) == [] ==> requested == [ListPage(p)])
        && (Trim(old(searchText)) == [] && pages(p).Success? ==>
              (paginaAtual == p && audios == old(audios) + pages(p).value.audios
               && temMaisPaginas == (p < pages(p).value.paginacao.totalPaginas)))
        && (Trim(old(searchText)) == [] && pages(p).Failure? ==>
              (paginaAtual == old(paginaAtual) && audios == old(audios) && temMaisPaginas == old(temMaisPaginas)
               && alert == Some(ErrorMessageFor(pages(p).error, LoadMoreFailedMessage))))
      ensures Trim(old(searchText)) == [] && old(paginaAtual) >= 0 && ListedUpTo(pages, old(paginaAtual)) == Some(old(audios)) ==>
        ListedUpTo(pages, paginaAtual) == Some(audios)
    {
      if carregandoMais || !temMaisPaginas {
        return [];
      }
      var proxima := paginaAtual + 1;
      carregandoMais := true;
      if Trim(searchText) != [] {
        requested := [TextPage(searchText, proxima)];
        var response := search(proxima);
        audios := audios + response.audios;
        temMaisPaginas := proxima < response.paginacao.totalPaginas;
        paginaAtual := proxima;
      } else {
        requested := [ListPage(proxima)];
        var response := pages(proxima);
        if response.Success? {
          audios := audios + response.value.audios;
          temMaisPaginas := proxima < response.value.paginacao.totalPaginas;
          paginaAtual := proxima;
        } else {
          alert := Some(ErrorMessageFor(response.error, LoadMoreFailedMessage));
        }
      }
      carregandoMais := false;
    }

    /** `buscarAudioAleatorio`: the picked audio becomes the whole list. */
    method BuscarAudioAleatorio(pick: Option<Audio>) returns (requested: seq<Request>)
      modifies this
      ensures requested == [RandomPick] && paginaAtual == 1 && !searching
      ensures pick.Some? ==>
        audios == [pick.value] && !temMaisPaginas && totalAudios == 1 && totalPaginas == 1
        && searchText == RandomLabel
      ensures pick.None? ==>
        audios == old(audios) && searchText == old(searchText) && alert == Some(RandomFailedMessage)
    {
      searching := true;
      paginaAtual := 1;
      requested := [RandomPick];
      if pick.Some? {
        audios, temMaisPaginas, totalAudios, totalPaginas := [pick.value], false, 1, 1;
        searchText := RandomLabel;
      } else {
        alert := Some(RandomFailedMessage);
      }
      searching := false;
    }
  }
}
