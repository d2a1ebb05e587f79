/** The audio detail screen: the lyrics text copied to the clipboard, the lookup of the
    neighbouring hymns and the navigation between them. Playback itself is not modelled;
    only the flags the screen resets when it switches hymn. */
module AudioDetails {
  import opened Common
  import opened Hymns
  import opened HinoDetails

  /** The last hymn number the screen navigates to. */
  const LastHymn := 640

  const AlertLoading := "Carregando dados do hino..."
  const AlertFirst := "Este é o primeiro hino da coleção."
  const AlertLast := "Este é o último hino da coleção."

  /** `${x}` of an optional field: a missing one prints as `undefined`. */
  function TextOf(s: Option<string>): string
  {
    match s
    case Some(t) => t
    case None => "undefined"
  }

  /** The first two lines of the copied text, followed by a blank line. */
  function ShareHeader(h: RawDetail): (r: string)
    ensures StartsWith(r, "Hino " + IntToString(h.number) + " - ")
  {
    "Hino " + IntToString(h.number) + " - " + h.title + "\n" + "Autor: " + TextOf(h.author) + "\n\n"
  }

  class AudioDetailsScreen {
    var audioData: Audio
    var previousAudio: Option<Audio>
    var nextAudio: Option<Audio>
    var loadingNavigation: bool
    var hinoCompleto: Option<RawDetail>
    // playback state the screen resets on navigation
    var hasSound: bool
    var isPlaying: bool
    var isLoaded: bool
    var duration: int
    var position: int
    var audioError: Option<string>
    var audioUrl: Option<string>
    var showPlayer: bool
    // what the user sees
    var clipboard: Option<string>
    var alert: Option<string>

    constructor(audio: Audio)
      ensures audioData == audio && previousAudio.None? && nextAudio.None? && !loadingNavigation
      ensures hinoCompleto.None? && !hasSound && !isPlaying && !isLoaded && duration == 0 && position == 0
      ensures audioError.None? && audioUrl.None? && !showPlayer && clipboard.None? && alert.None?
    {
      audioData, previousAudio, nextAudio, loadingNavigation := audio, None, None, false;
      hinoCompleto := None;
      hasSound, isPlaying, isLoaded, duration, position := false, false, false, 0, 0;
      audioError, audioUrl, showPlayer := None, None, false;
      clipboard, alert := None, None;
    }

    /** `compartilharTexto`: header, then every stanza formatted as on the detail screen
        (the screen repeats the detail screen's loop, which `BuildLetra` models). */
    method CompartilharTexto()
      modifies this
      ensures hinoCompleto.None? ==> clipboard == old(clipboard) && alert == Some(AlertLoading)
      ensures hinoCompleto.Some? ==>
        var h := hinoCompleto.value;
        clipboard == Some(ShareHeader(h) + Letra(if h.verses.Some? then h.verses.value else []))
      ensures hinoCompleto == old(hinoCompleto) && audioData == old(audioData)
    {
      if hinoCompleto.None? {
        alert := Some(AlertLoading);
        return;
      }
      var h := hinoCompleto.value;
      var texto := ShareHeader(h);
      var vs := if h.verses.Some? then h.verses.value else [];
      var letra := BuildLetra(vs);
      texto := texto + letra;
      clipboard := Some(texto);
      alert := Some("A letra do hino foi copiada para a área de transferência.");
    }

    /** `carregarHinoCompleto`: `response` is what the fetch of `/api/hinos/{numero}` and its
        JSON parse give (a failure is an error either threw). A body with a non-zero
        `number` replaces the kept hymn; anything else, including a failure, keeps it. */
    method CarregarHinoCompleto(response: Result<Option<RawDetail>, Exc>)
      modifies this
      ensures response.Success? && response.value.Some? && response.value.value.number != 0 ==>
        hinoCompleto == response.value
      ensures !(response.Success? && response.value.Some? && response.value.value.number != 0) ==>
        hinoCompleto == old(hinoCompleto)
      ensures audioData == old(audioData) && previousAudio == old(previousAudio) && nextAudio == old(nextAudio)
      ensures clipboard == old(clipboard) && alert == old(alert) && loadingNavigation == old(loadingNavigation)
    {
      if response.Success? && response.value.Some? && response.value.value.number != 0 {
        hinoCompleto := response.value;
      }
    }

    /** `buscarHinosAdjacentes(n)`: `previous` and `next` are what `getAudioPorHino` answers
        for n-1 and n+1 (a failure is an error it threw). A neighbour is looked up only
        inside 1..640; at a bound it is cleared; a lookup without a hymn keeps the old one. */
    method BuscarHinosAdjacentes(n: int, previous: Result<Option<Audio>, Exc>, next: Result<Option<Audio>, Exc>)
      returns (requested: seq<int>)
      modifies this
      ensures requested == (if n > 1 then [n - 1] else []) + (if n < LastHymn then [n + 1] else [])
      ensures n <= 1 ==> previousAudio.None?
      ensures n > 1 ==> previousAudio == (if previous.Success? && previous.value.Some? then previous.value else old(previousAudio))
      ensures n >= LastHymn ==> nextAudio.None?
      ensures n < LastHymn ==> nextAudio == (if next.Success? && next.value.Some? then next.value else old(nextAudio))
      ensures !loadingNavigation
      ensures audioData == old(audioData) && hinoCompleto == old(hinoCompleto) && hasSound == old(hasSound)
      ensures isLoaded == old(isLoaded) && isPlaying == old(isPlaying) && showPlayer == old(showPlayer)
      ensures duration == old(duration) && position == old(position) && audioError == old(audioError) && audioUrl == old(audioUrl)
    {
      loadingNavigation := true;
      requested := [];
      if n > 1 {
        requested := requested + [n - 1];
        if previous.Success? && previous.value.Some? {
          previousAudio := previous.value;
        }
      } else {
        previousAudio := None;
      }
      if n < LastHymn {
        requested := requested + [n + 1];
        if next.Success? && next.value.Some? {
          nextAudio := next.value;
        }
      } else {
        nextAudio := None;
      }
      loadingNavigation := false;
    }

    /** `navegarParaHino`: stops what is playing, resets the player state, switches hymn
        and looks up its neighbours. */
    method NavegarParaHino(novo: Audio, previous: Result<Option<Audio>, Exc>, next: Result<Option<Audio>, Exc>)
      returns (requested: seq<int>)
      modifies this
      ensures audioData == novo
      ensures !hasSound && !isPlaying && !isLoaded && duration == 0 && position == 0
      ensures audioError.None? && audioUrl.None? && !showPlayer && !loadingNavigation
      ensures requested == (if novo.numero > 1 then [novo.numero - 1] else [])
                         + (if novo.numero < LastHymn then [novo.numero + 1] else [])
      ensures novo.numero <= 1 ==> previousAudio.None?
      ensures novo.numero > 1 ==>
        previousAudio == (if previous.Success? && previous.value.Some? then previous.value else old(previousAudio))
      ensures novo.numero >= LastHymn ==> nextAudio.None?
      ensures novo.numero < LastHymn ==>
        nextAudio == (if next.Success? && next.value.Some? then next.value else old(nextAudio))
      ensures hinoCompleto == old(hinoCompleto)
    {
      ResetPlayer(novo);
      requested := BuscarHinosAdjacentes(novo.numero, previous, next);
    }

    /** The first half of `navegarParaHino`: the player state is cleared and the hymn switched. */
    method ResetPlayer(novo: Audio)
      modifies this
      ensures audioData == novo
      ensures !hasSound && !isPlaying && !isLoaded && duration == 0 && position == 0
      ensures audioError.None? && audioUrl.None? && !showPlayer
      ensures previousAudio == old(previousAudio) && nextAudio == old(nextAudio) && hinoCompleto == old(hinoCompleto)
    {
      hasSound, isPlaying, isLoaded := false, false, false;
      duration, position := 0, 0;
      audioError, audioUrl, showPlayer := None, None, false;
      audioData := novo;
    }

    /** `handlePrevious`: navigates only to a known neighbour and not while a lookup runs. */
    method HandlePrevious(previous: Result<Option<Audio>, Exc>, next: Result<Option<Audio>, Exc>)
      returns (navigated: bool)
      modifies this
      ensures navigated <==> old(previousAudio).Some? && !old(loadingNavigation)
      ensures navigated ==> audioData == old(previousAudio).value
      ensures !navigated ==> audioData == old(audioData) && previousAudio == old(previousAudio) && nextAudio == old(nextAudio)
      ensures old(previousAudio).None? ==> alert == Some(AlertFirst)
    {
      navigated := false;
      if previousAudio.Some? && !loadingNavigation {
        var _ := NavegarParaHino(previousAudio.value, previous, next);
        navigated := true;
      } else if previousAudio.None? {
        alert := Some(AlertFirst);
      }
    }

    /** `handleNext`: the same guard on the following hymn. */
    method HandleNext(previous: Result<Option<Audio>, Exc>, next: Result<Option<Audio>, Exc>)
      returns (navigated: bool)
      modifies this
      ensures navigated <==> old(nextAudio).Some? && !old(loadingNavigation)
      ensures navigated ==> audioData == old(nextAudio).value
      ensures !navigated ==> audioData == old(audioData) && previousAudio == old(previousAudio) && nextAudio == old(nextAudio)
      ensures old(nextAudio).None? ==> alert == Some(AlertLast)
    {
      navigated := false;
      if nextAudio.Some? && !loadingNavigation {
        var _ := NavegarParaHino(nextAudio.value, previous, next);
        navigated := true;
      } else if nextAudio.None? {
        alert := Some(AlertLast);
      }
    }
  }
}
