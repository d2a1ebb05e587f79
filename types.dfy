/** The records the app exchanges between the API client, the local store and the
    screens. Optional TypeScript fields (`autor?`, `audioUrl?`, ...) are `Option`s;
    JavaScript numbers are exact integers here. */
module Hymns {
  import opened Common

  /** A hymn as listed: number, title and the optional author and audio references. */
  datatype HinoLocal = HinoLocal(
    numero: int,
    titulo: string,
    autor: Option<string>,
    audio: Option<string>,
    audioUrl: Option<string>)

  /** One stanza of the structured lyrics; `chorus` marks the refrain. */
  datatype Verso = Verso(sequence: Option<int>, lyrics: string, chorus: bool)

  /** A hymn with its lyrics: the flat text `letra` and, when present, the stanzas. */
  datatype HinoCompleto = HinoCompleto(
    numero: int,
    titulo: string,
    autor: Option<string>,
    audio: Option<string>,
    audioUrl: Option<string>,
    letra: string,
    verses: Option<seq<Verso>>,
    coro: Option<string>)

  datatype Audio = Audio(numero: int, titulo: string, autor: Option<string>, audioUrl: string, filename: string)

  /** Server statistics; the percentage is kept as an integer. */
  datatype Estatisticas = Estatisticas(
    totalHinos: int,
    totalAudios: int,
    hinosComAudio: int,
    hinosSemAudio: int,
    porcentagemComAudio: int)

  datatype Paginacao = Paginacao(pagina: int, porPagina: int, total: int, totalPaginas: int)

  datatype HinosPaginados = HinosPaginados(hinos: seq<HinoLocal>, paginacao: Paginacao)

  datatype AudiosPaginados = AudiosPaginados(audios: seq<Audio>, paginacao: Paginacao)

}
