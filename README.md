# Harpa Cristã: offline cache, sync and screen rules in Dafny

This project models the part of the Harpa Cristã hymnal app that keeps the hymn list
available offline. It also models the small rules its screens build on that layer.

- **Local store** (`LocalStore`): three keys in the device's key-value storage, a
  24-hour validity window and the read-only queries. A read that fails gives an empty
  answer. A write may reject.
- **API client** (`Api`): the retry loop around `fetch`, the five-minute memo and the
  normalisation of the two pagination shapes. Each hymn and audio read falls back to the
  local list when its request fails. The statistics read has no fallback and rethrows
  the failure.
- **Sync** (`Sync`): pages of 100 hymns are downloaded and a failed page is skipped.
  The list is saved once, and progress and completion are reported through callbacks.
- **Sync hook** (`SyncHookModel`): the `isSyncing` flag is the only guard against two
  syncs running at once.
- **Favourites** (`Favourites`, `FavouritesScreen`): the favourites list, its storage,
  and the screen that filters it.
- **Hymn detail** (`HinoDetails`, `AudioFiles`): the lyrics text built from the stanzas
  and the reading-mode item list. It also holds the font-size steps and the rewrite of
  audio file names to three-digit numbers.
- **Audio detail** (`AudioDetails`): the shared text, the lookup of neighbouring hymns,
  and the previous/next navigation.
- **List screens** (`SearchInput`, `HomeScreenModel`, `AudioScreenModel`): what the
  search box does with its text, and the replace/append paging of the hymn and audio
  lists.

How the model stands in for the outside world:

- The clock, `fetch`, the connectivity probe, `Math.random` and the storage faults are
  parameters.
  - A storage write that rejects is a `WriteFault`.
  - The keys whose read rejects are a set `unreadable`.
  - What `fetch` gives on attempt `k` is `fetch(k)`.
- The screens are classes whose fields are the React state of the screen. They take
  the answers of the service calls they make as parameters:
  - `pages(p)` is what `getHinos(p, 20)` answers.
  - `lookup(n)` is what the lookup by number answers.
  - `search(p)` is what the text search answers.
- Each screen method returns the requests it made, in order.

Integers are unbounded. `parseInt`, `trim`, `toLowerCase`, `padStart`, `includes`,
`split`, `slice` and `Math.ceil` are written out in `Common` for the inputs the app
gives them.

Two behaviours worth noting:

- The local search matches the number's decimal text as a substring, not as a prefix
  (`LocalStore.NumberSearchIsSubstring`).
- The hymn list screen moves to the next page even when that page failed to load (see
  Findings).

## Model

| member | source | states |
|---|---|---|
| LocalStore.ThreeDistinctKeys | src/services/localStorageService.ts:4-7 | the three storage keys are distinct and the validity window is 86 400 000 ms |
| LocalStore.LoadHinos | src/services/localStorageService.ts:40-53 | a non-empty answer is exactly the list stored under the hymn key, which was readable; anything else gives `[]` |
| LocalStore.LoadHinosCompletos | src/services/localStorageService.ts:58-71 | the same for the full-hymn key |
| LocalStore.StampOf | src/services/localStorageService.ts:89-104 | a stamp is read only from a text value; the decimal text of a natural `t` reads back as `t` |
| LocalStore.IsCacheValid | src/services/localStorageService.ts:89-104 | valid only with a readable stored stamp; with stamp `t`, valid exactly when `now − t` is below 24 h |
| LocalStore.GetCacheStats | src/services/localStorageService.ts:204-218 | a failing read gives `{0, null}`; otherwise the count is the loaded list's length, and the date is null exactly when no stamp is stored |
| LocalStore.FindByNumero | src/services/localStorageService.ts:128-136 | the first hymn with that number; none exactly when no hymn has it |
| LocalStore.FindCompletoByNumero | src/services/localStorageService.ts:76-84 | the first full hymn with that number; none exactly when no full hymn has it |
| LocalStore.GetHinoByNumber | src/services/localStorageService.ts:128-136 | a loaded hymn with that number; none exactly when no loaded hymn has it, so none when the read fails |
| LocalStore.GetHinoCompletoByNumber | src/services/localStorageService.ts:76-84 | the same over the full hymns |
| LocalStore.Search | src/services/localStorageService.ts:109-123 | an order-preserving sublist holding exactly the hymns whose title, author or number text contains the trimmed, lower-cased query, each as often as in the list |
| LocalStore.SearchHinos | src/services/localStorageService.ts:109-123 | exactly the loaded hymns matching the term; `[]` when the read fails |
| LocalStore.BlankQueryMatchesAll | src/services/localStorageService.ts:109-123 | a query that is blank once trimmed returns the whole list |
| LocalStore.NumberSearchIsSubstring | src/services/localStorageService.ts:109-123 | "40" finds hymn 140: the number test is a substring test |
| LocalStore.ByAuthor | src/services/localStorageService.ts:141-153 | an order-preserving sublist of exactly the hymns whose author contains the term, each as often as in the list |
| LocalStore.GetHinosByAuthor | src/services/localStorageService.ts:141-153 | exactly the loaded hymns whose author contains the term; `[]` when the read fails |
| LocalStore.ByAuthorSkipsAnonymous | src/services/localStorageService.ts:141-153 | a hymn without an author is never found by author |
| LocalStore.InsertByNumero | src/services/localStorageService.ts:158-168 | insertion adds exactly the one hymn |
| LocalStore.InsertSorted | src/services/localStorageService.ts:158-168 | inserting into a list sorted by number keeps it sorted |
| LocalStore.SortByNumero | src/services/localStorageService.ts:158-168 | the sort by number is a sorted permutation |
| LocalStore.SortIsStable | src/services/localStorageService.ts:158-168 | hymns with equal numbers keep their list order |
| LocalStore.ByRange | src/services/localStorageService.ts:158-168 | sorted by number and never longer than the list |
| LocalStore.GetHinosByRange | src/services/localStorageService.ts:158-168 | sorted, holding exactly the loaded hymns numbered in `[inicio, fim]`; `[]` when the read fails |
| LocalStore.ByRangeSpec | src/services/localStorageService.ts:158-168 | the range query is sorted and holds exactly the hymns numbered in `[inicio, fim]`, each as often as in the list |
| LocalStore.ByRangeEmptyWhenReversed | src/services/localStorageService.ts:158-168 | `inicio > fim` gives `[]` |
| LocalStore.LocalStorageService.SaveHinos | src/services/localStorageService.ts:13-22 | writes the list, then the stamp; a rejected write stops there and is rethrown |
| LocalStore.LocalStorageService.SaveHinosCompletos | src/services/localStorageService.ts:27-35 | one write of the full list; the stamp is untouched |
| LocalStore.LocalStorageService.ClearCache | src/services/localStorageService.ts:189-199 | removes the three keys in order; a rejected removal is rethrown |
| LocalStore.LocalStorageService.GetRandomHino | src/services/localStorageService.ts:173-184 | null exactly when the loaded list is empty, otherwise one of its hymns |
| LocalStore.SaveHinosThenRead | src/services/localStorageService.ts:13-104 | after a complete save the list reads back, the cache is valid exactly for the next 24 h, and the stats give its length and the save time |
| LocalStore.SaveCompletosKeepsStamp | src/services/localStorageService.ts:27-35 | saving full hymns changes neither the hymn list, its validity nor its stats |
| LocalStore.StaleAtExactlyOneDay | src/services/localStorageService.ts:89-104 | valid 1 ms before 24 h, invalid at exactly 24 h |
| LocalStore.ClearedStore | src/services/localStorageService.ts:189-218 | after a complete clear both lists are empty, the cache is invalid, the stats are `{0, null}`, and clearing again changes nothing |
| Api.Run | src/services/api.ts:36-81 | at most three attempts; the request succeeds exactly when its last attempt delivered, and a failure carries the last attempt's error; a retryable failure means the third attempt was reached; the wait is 1000·k ms after each retried attempt k |
| Api.MakeRequest | src/services/api.ts:36-81 | the loop gives the outcome, attempt count and waiting time of `Run` |
| Api.HttpErrorIsFinal | src/services/api.ts:36-81 | a non-`ok` HTTP status is never retried |
| Api.EarlierAttemptsRetried | src/services/api.ts:36-81 | every attempt before the last failed with an `AbortError` or a "timeout" message |
| Api.ThreeTimeouts | src/services/api.ts:36-81 | three timeouts make three calls, wait 1000 + 2000 ms and end with the third error |
| Api.FirstHardFailureStops | src/services/api.ts:36-81 | a first failure that is not retryable is the only attempt |
| Api.Or | src/services/api.ts:164-169 | `x \|\| d`: both a missing value and 0 give the default |
| Api.Normalise | src/services/api.ts:164-169 | each field comes from `paginacao` when present and non-zero, else from the flat field when non-zero, else the default (the asked page, the limit, the item count, 1); the page count is never 0 |
| Api.ZeroPageFallsThrough | src/services/api.ts:164-169 | a 0 page in `paginacao` falls through to `currentPage` |
| Api.FromListed | src/services/api.ts:154-160 | the list mapping copies the fields and turns an empty `audioUrl` into none |
| Api.FromRaw | src/services/api.ts:218-226 | the single-hymn mapping copies `audioUrl` as it is |
| Api.PageOf | src/services/api.ts:183-186 | the slice `[(p-1)·limit, (p-1)·limit + limit)` clipped to the list: never longer than `limit`, and only elements of the list |
| Api.LocalPage | src/services/api.ts:183-195 | the fallback page: the slice, total = list length, page count = ⌈length/limit⌉ |
| Api.PagesUpToPrefix | src/services/api.ts:183-195 | pages `1..n` laid end to end are the list's first `n·limit` hymns |
| Api.LocalPagesCoverList | src/services/api.ts:183-195 | pages `1..⌈length/limit⌉` laid end to end are the whole list |
| Api.TryHinos | src/services/api.ts:144-171 | a failed request is passed on; a body without `hinos` is "Resposta da API inválida"; a body with hymns gives exactly the mapped hymns with the `Normalise`d pagination |
| Api.WithLocalFallback | src/services/api.ts:174-205 | a failure becomes a local page when the local list has hymns; the original error is rethrown exactly when it is empty |
| Api.OfflineHinos | src/services/api.ts:109-142 | offline: a local page, or "Sem conexão e sem dados locais disponíveis" exactly when the local list is empty |
| Api.ListAnswer | src/services/api.ts:252-334 | the search answer: the remote hymns with the `Normalise`d pagination, an empty page for a body without hymns, or after a failure the local matches (an empty page when there are none) |
| Api.FailedListAnswer | src/services/api.ts:252-334 | after a failure, total is 0 exactly when nothing matches locally, and every hymn shown is a local match |
| Api.StatsOf | src/services/api.ts:382-389 | hymns without audio = total − hymns with audio, each field with `\|\| 0` |
| Api.ListedAudio | src/services/api.ts:599-605 | an audio keeps the hymn's number, title and author, and takes its URL as the file name |
| Api.AudiosPage | src/services/api.ts:589-611 | exactly the audios of `PageOf` the hymns with a non-blank URL, so at most `limit`; with no statistics the count is the number of hymns with audio |
| Api.AudioOf | src/services/api.ts:630-649 | a hymn gives an audio exactly when its `audioUrl` is non-empty |
| Api.AudiosOf | src/services/api.ts:680-706 | one audio per hymn with a URL, never more than the hymns |
| Api.AudiosOfAppend | src/services/api.ts:680-706 | the audios of a longer page are the earlier ones plus the new hymn's, in order |
| Api.CacheKey | src/services/api.ts:20-22 | the memo key starts with its endpoint |
| Api.HymnKeysShareEndpoint | src/services/api.ts:20-22 | every hymn endpoint's key starts with `/api/hinos` |
| Api.FromCache | src/services/api.ts:24-30 | a hit exactly when the entry is younger than five minutes, and then its data |
| Api.WithoutPrefix | src/services/api.ts:714-720 | keeps exactly the keys without the prefix, with their entries |
| Api.MemoWindow | src/services/api.ts:24-34 | an entry set at `t` is served exactly while `now − t < 300 000` |
| Api.ClearEndpointSpec | src/services/api.ts:714-720 | clearing an endpoint makes its keys miss, leaves other answers as they were, and is idempotent |
| Api.ApiService.SetCache | src/services/api.ts:32-34 | stores the entry stamped with the clock |
| Api.ApiService.ClearCache | src/services/api.ts:710-712 | empties the memo |
| Api.ApiService.ClearCacheForEndpoint | src/services/api.ts:714-720 | the delete loop leaves exactly the memo without the prefixed keys |
| Api.ApiService.GetHinos | src/services/api.ts:101-206 | a fresh memo hit, else offline the local page or error, else the remote page (memoised) or the local fallback; a failure without a hit implies an empty local list |
| Api.ApiService.FetchList | src/services/api.ts:252-334 | the shared body of the searches: a memo hit, else `ListAnswer` of the request, memoised only when the body had hymns |
| Api.ApiService.BuscarHinosPorTexto | src/services/api.ts:252-334 | a fresh hit with no request and the memo unchanged; otherwise `ListAnswer` of the request with the local text search as fallback, `Run`'s request count, and the answer memoised exactly when the body had hymns |
| Api.ApiService.GetHinosPorAutor | src/services/api.ts:402-484 | the same as the text search, with the local author filter as fallback |
| Api.ApiService.GetHinosPorFaixa | src/services/api.ts:486-568 | the same as the text search, with the sorted local range as fallback |
| Api.ApiService.GetHinoPorNumero | src/services/api.ts:208-250 | a hit; a body with a number (memoised); null for a body without one; the local lookup after a failure |
| Api.ApiService.GetHinoAleatorio | src/services/api.ts:336-368 | the remote hymn, or after a failure a random local hymn (null exactly when the local list is empty) |
| Api.ApiService.GetEstatisticas | src/services/api.ts:370-400 | a hit; the derived statistics (memoised); null for a null body; a failure is rethrown |
| Api.ApiService.GetAudios | src/services/api.ts:572-628 | at most `limit` audios, all with a non-blank URL, for the requested page; it fails only when the local list is empty |
| Api.ApiService.GetAudioPorHino | src/services/api.ts:630-649 | an audio has a non-empty URL; after a failed request without a hit it is the local hymn's audio |
| Api.ApiService.GetAudioAleatorio | src/services/api.ts:651-670 | an audio has a non-empty URL; a remote hymn gives its audio |
| Api.ApiService.BuscarAudiosPorTexto | src/services/api.ts:680-706 | the audios of the page the text search gives (the hit, or `ListAnswer` of the request) with that page's pagination, and the same request count; each audio has a URL |
| Sync.LaterPages | src/services/syncService.ts:58-89 | pages `2..n` in ascending order, each once |
| Sync.EventsUpTo | src/services/syncService.ts:66-74 | every later-page event is incomplete, carries the totals and a page in `2..n` |
| Sync.EventsOrdered | src/services/syncService.ts:58-89 | later-page events have strictly increasing pages and a non-decreasing running count within the fetched total |
| Sync.SyncService.DownloadLaterPages | src/services/syncService.ts:58-89 | the loop requests `2..totalPages` once each, appends the pages that arrived in order and emits their events |
| Sync.SyncService.SyncAllHinos | src/services/syncService.ts:22-132 | `FullSync`: page 1 failing gives `{false, 0, error}` and nothing saved; otherwise pages `1..totalPaginas` are requested once, the concatenation is saved, `totalHinos` is its length, the final event is complete, a failed save gives `success: false`; `onComplete` runs once with the result |
| Sync.SyncService.ForceSync | src/services/syncService.ts:145-148 | exactly a full sync (`FullSync`); always requests page 1; on success the cache is valid and holds `totalHinos` hymns |
| Sync.SyncService.SyncIfNeeded | src/services/syncService.ts:153-173 | a valid cache: no request, no write, success with the cached count; otherwise exactly a full sync (`FullSync`) |
| Sync.SyncService.SmartSync | src/services/syncService.ts:215-237 | offline: the local count, or "Sem conexão com a internet e sem dados locais", with no callback; online: the two cases of `syncIfNeeded` |
| Sync.NeedsSync | src/services/syncService.ts:137-140 | due when the stamp is unreadable or absent; with stamp `t`, due exactly when `now − t` is at least 24 h |
| Sync.GetSyncStats | src/services/syncService.ts:178-193 | `hasLocalData` exactly when the count is positive, `cacheValid` exactly when no sync is needed |
| Sync.LocalRunPrefix | src/services/syncService.ts:29-89 | when `getHinos` answers from a local list, the pages fetched so far are a prefix of that list |
| Sync.SyncFromLocalResavesList | src/services/api.ts:174-199 | a sync served entirely by the local fallback re-saves exactly the local list |
| SyncHookModel.SyncHook.constructor | src/hooks/useSync.ts:18-25 | not syncing, no progress, no stats |
| SyncHookModel.SyncHook.LoadSyncStats | src/hooks/useSync.ts:27-34 | the stats become `getSyncStats` of the store |
| SyncHookModel.SyncHook.OnProgress | src/hooks/useSync.ts:44-46 | the latest event replaces the previous one |
| SyncHookModel.SyncHook.Replay | src/hooks/useSync.ts:44-46 | each event becomes `syncProgress` in turn, and the trace holds them in order; flag and stats untouched |
| SyncHookModel.SyncHook.OnComplete | src/hooks/useSync.ts:47-55 | clears the flag and progress; reloads stats only on success |
| SyncHookModel.SyncHook.StartSync | src/hooks/useSync.ts:36-68 | a no-op while syncing; otherwise `syncProgress` is null, then each of the service's events in order, then null again; with `force` or an invalid cache, store, requests, result and events are those of a full sync (`FullSync`); a valid cache without `force` requests and writes nothing and reports the cached count |
| Favourites.IsFavorito | src/contexts/FavoritosContext.tsx:55-57 | true exactly when some favourite has that number |
| Favourites.Added | src/contexts/FavoritosContext.tsx:59-63 | the hymn appended at the end, with no duplicate check |
| Favourites.Removed | src/contexts/FavoritosContext.tsx:65-68 | every entry with that number is gone; the others keep their order and their multiplicity |
| Favourites.Toggled | src/contexts/FavoritosContext.tsx:70-78 | membership of the number flips and no other number changes |
| Favourites.ToggleTwiceRestoresMembership | src/contexts/FavoritosContext.tsx:70-78 | toggling twice restores every number's membership |
| Favourites.ToggleTwiceFromAbsent | src/contexts/FavoritosContext.tsx:70-78 | from an absent number, toggling appends, and toggling again restores the exact list |
| Favourites.AddedKeepsDistinct | src/contexts/FavoritosContext.tsx:59-63 | appending an absent number keeps the numbers distinct |
| Favourites.RemovedKeepsDistinct | src/contexts/FavoritosContext.tsx:65-68 | removing keeps the numbers distinct |
| Favourites.ToggleKeepsDistinct | src/contexts/FavoritosContext.tsx:59-78 | toggling keeps a duplicate-free list duplicate-free |
| Favourites.FavoritosProvider.constructor | src/contexts/FavoritosContext.tsx:23-24 | starts with no favourites |
| Favourites.FavoritosProvider.CarregarFavoritos | src/contexts/FavoritosContext.tsx:31-40 | a readable saved list replaces the favourites; otherwise they stay |
| Favourites.FavoritosProvider.SalvarFavoritos | src/contexts/FavoritosContext.tsx:42-49 | the list changes only after the write succeeds |
| Favourites.FavoritosProvider.AdicionarFavorito | src/contexts/FavoritosContext.tsx:59-63 | saves and shows `Added`; unchanged when the write fails |
| Favourites.FavoritosProvider.RemoverFavorito | src/contexts/FavoritosContext.tsx:65-68 | saves and shows `Removed`; unchanged when the write fails |
| Favourites.FavoritosProvider.AlternarFavorito | src/contexts/FavoritosContext.tsx:70-78 | saves and shows `Toggled`; keeps the numbers distinct |
| FavouritesScreen.FilteredFavorites | src/screens/FavoritiesScreen/index.tsx:57-60 | an order-preserving sublist holding exactly the favourites whose lower-cased title contains the lower-cased text or whose number text contains the text, each as often as saved |
| FavouritesScreen.Displayed | src/screens/FavoritiesScreen/index.tsx:159 | a blank search shows the whole list; otherwise exactly `FilteredFavorites` |
| FavouritesScreen.AsHinoLocal | src/screens/FavoritiesScreen/index.tsx:63-68 | number and title kept, a missing author becomes `''`, `audioUrl` is `''` |
| FavouritesScreen.Rows | src/screens/FavoritiesScreen/index.tsx:62-68 | one row per shown favourite, in order |
| FavouritesScreen.NumberFindsFavourite | src/screens/FavoritiesScreen/index.tsx:57-60 | typing a favourite's number finds it |
| FavouritesScreen.SearchIgnoresCase | src/screens/FavoritiesScreen/index.tsx:57-60 | a text and its lower-cased form match the same favourite, the number test included |
| FavouritesScreen.FilteredIgnoresCase | src/screens/FavoritiesScreen/index.tsx:57-60 | a text and its lower-cased form give the same filtered list |
| HinoDetails.FirstChorus | src/screens/HinoDetailsScreen/index.tsx:499-503 | the index of the first chorus stanza; none exactly when there is none |
| HinoDetails.BuildLetra | src/screens/HinoDetailsScreen/index.tsx:505-514 | the accumulating loop builds `Letra` |
| HinoDetails.AppendStanza | src/screens/HinoDetailsScreen/index.tsx:507-512 | one callback appends exactly that stanza's piece: label unless chorus, lyrics, and a blank line unless last; nothing for a stanza without lyrics |
| HinoDetails.LetraJoinsStanzas | src/screens/HinoDetailsScreen/index.tsx:505-514 | when every stanza has lyrics, the text is the formatted stanzas joined by blank lines |
| HinoDetails.EmptyStanzasAddNothing | src/screens/HinoDetailsScreen/index.tsx:508-513 | stanzas without lyrics contribute nothing |
| HinoDetails.LabelsAreOwnSequence | src/screens/HinoDetailsScreen/index.tsx:509 | the label is the stanza's own `sequence`: a chorus at 2 is followed by "3." |
| HinoDetails.TrailingSeparatorAfterEmptyLastStanza | src/screens/HinoDetailsScreen/index.tsx:511 | an empty last stanza leaves a trailing blank line after the previous one |
| HinoDetails.Split | src/screens/HinoDetailsScreen/index.tsx:601 | `split('\n')`: at least one part, none containing the separator |
| HinoDetails.SplitJoin | src/screens/HinoDetailsScreen/index.tsx:601 | joining the parts with the separator gives the text back |
| HinoDetails.NonChorus | src/screens/HinoDetailsScreen/index.tsx:615 | exactly the stanzas that are not the chorus, in order, each as often as given |
| HinoDetails.InterleaveChorus | src/screens/HinoDetailsScreen/index.tsx:631-650 | k stanza items at even places and k−1 chorus items between them, never a trailing chorus |
| HinoDetails.LineItems | src/screens/HinoDetailsScreen/index.tsx:618-629 | one text item per line, in order |
| HinoDetails.LineItemsRebuildLetra | src/screens/HinoDetailsScreen/index.tsx:618-629 | the items' contents joined by newlines are the lyrics text |
| HinoDetails.IndexOf | src/screens/HinoDetailsScreen/index.tsx:567-581 | `indexOf`: the first index of the value, −1 exactly when absent |
| HinoDetails.Increased | src/screens/HinoDetailsScreen/index.tsx:567-573 | stays in `{16,…,24}`, steps up by 2, saturates at 24 |
| HinoDetails.Decreased | src/screens/HinoDetailsScreen/index.tsx:575-581 | stays in `{16,…,24}`, steps down by 2, saturates at 16 |
| HinoDetails.StepUpThenDown | src/screens/HinoDetailsScreen/index.tsx:567-581 | for a listed size below 24, a step up then down returns to the same size |
| HinoDetails.HinoDetailsScreen.constructor | src/screens/HinoDetailsScreen/index.tsx:163-167 | no hymn, loading, size 18, chorus repetition on |
| HinoDetails.HinoDetailsScreen.CarregarHinoDetalhe | src/screens/HinoDetailsScreen/index.tsx:488-539 | not found, bad format and failure raise their alerts; otherwise the full hymn with the built lyrics and the first chorus |
| HinoDetails.HinoDetailsScreen.ListaItens | src/screens/HinoDetailsScreen/index.tsx:596-653 | no hymn: nothing; chorus mode: stanzas interleaved with the chorus; otherwise one text item per part of `split('\n')`, whose contents joined by newlines are the text |
| HinoDetails.HinoDetailsScreen.AumentarFonte | src/screens/HinoDetailsScreen/index.tsx:567-573 | the size becomes `Increased` of the old one |
| HinoDetails.HinoDetailsScreen.DiminuirFonte | src/screens/HinoDetailsScreen/index.tsx:575-581 | the size becomes `Decreased` of the old one |
| AudioFiles.RunStart | src/screens/HinoDetailsScreen/index.tsx:297-313 | the start of the digit run ending before `.mp3`, bounded by a non-digit |
| AudioFiles.ThreeDigitsOfNat | src/screens/HinoDetailsScreen/index.tsx:297-313 | `padStart(3, '0')` writes the number's value with at least three digits |
| AudioFiles.CorrigirAudioUrl | src/screens/HinoDetailsScreen/index.tsx:297-313 | no match: unchanged; a match keeps the prefix and `.mp3` and writes the run's value padded to three digits |
| AudioFiles.CapturedNumber | src/screens/HinoDetailsScreen/index.tsx:297-313 | `parseInt` of the captured run is its value |
| AudioFiles.CorrectedFormIsFixed | src/screens/HinoDetailsScreen/index.tsx:297-313 | a name already in corrected form is unchanged |
| AudioFiles.CorrigirIdempotent | src/screens/AudioDetailsScreen/index.tsx:85-101 | correcting twice is correcting once; this screen has the same function as the hymn screen |
| AudioFiles.DownloadFilename | src/screens/AudioDetailsScreen/index.tsx:106 | `hino_` + three-digit number + `.mp3` |
| AudioFiles.DownloadFilenameIsCorrected | src/screens/AudioDetailsScreen/index.tsx:106 | the download name is already corrected and carries the hymn's number |
| AudioDetails.ShareHeader | src/screens/AudioDetailsScreen/index.tsx:203-207 | the shared text starts "Hino {n} - " |
| AudioDetails.AudioDetailsScreen.constructor | src/screens/AudioDetailsScreen/index.tsx:31-68 | the route's audio, no neighbours, nothing playing |
| AudioDetails.AudioDetailsScreen.CompartilharTexto | src/screens/AudioDetailsScreen/index.tsx:196-217 | without a hymn: the loading alert; otherwise header plus the same lyrics text as the hymn screen |
| AudioDetails.AudioDetailsScreen.CarregarHinoCompleto | src/screens/AudioDetailsScreen/index.tsx:181-192 | a body with a non-zero `number` becomes the kept hymn; a failure or any other body keeps the previous one |
| AudioDetails.AudioDetailsScreen.BuscarHinosAdjacentes | src/screens/AudioDetailsScreen/index.tsx:294-330 | looks up n−1 only for n > 1 and n+1 only for n < 640; cleared at a bound, kept when the lookup gives nothing or fails |
| AudioDetails.AudioDetailsScreen.ResetPlayer | src/screens/AudioDetailsScreen/index.tsx:345-356 | the playback state is cleared and the audio switched; neighbours and the kept hymn untouched |
| AudioDetails.AudioDetailsScreen.NavegarParaHino | src/screens/AudioDetailsScreen/index.tsx:333-364 | resets the playback state, switches the audio and looks up its neighbours: n−1 only for n > 1 and n+1 only for n < 640, each kept when its lookup gives nothing, cleared at a bound |
| AudioDetails.AudioDetailsScreen.HandlePrevious | src/screens/AudioDetailsScreen/index.tsx:536-542 | navigates exactly when a previous hymn is known and no navigation runs; alerts when there is none |
| AudioDetails.AudioDetailsScreen.HandleNext | src/screens/AudioDetailsScreen/index.tsx:544-550 | navigates exactly when a next hymn is known and no navigation runs; alerts when there is none |
| SearchInput.Dispatch | src/screens/HomeScreen/index.tsx:207-256 | blank text reloads; a `parseInt` in 1..640 looks up; above 640 or at most 0 is refused; no number is a text search |
| SearchInput.TypedNumberIsLookedUp | src/screens/HomeScreen/index.tsx:214-220 | a number from 1 to 640 typed between blanks is looked up |
| HomeScreenModel.HomeScreen.constructor | src/screens/HomeScreen/index.tsx:36-45 | empty list, loading, page 1, more pages |
| HomeScreenModel.HomeScreen.CarregarHinos | src/screens/HomeScreen/index.tsx:112-151 | a reset replaces the list and totals, otherwise the page is appended; more pages iff `pagina < totalPaginas`; a failure keeps the list and alerts |
| HomeScreenModel.HomeScreen.BuscarHinos | src/screens/HomeScreen/index.tsx:207-273 | each `Dispatch` case: a reload is `carregarHinos(1, true)` (the page and its totals, or the old list and totals with an alert); `[hit]` 1/1 or `[]` 0/0 with an alert; refusal without a request; or text page 1 |
| HomeScreenModel.HomeScreen.CarregarMaisHinos | src/screens/HomeScreen/index.tsx:275-311 | no-op while loading or at the end; otherwise requests the next page and advances the page, even when it failed |
| HomeScreenModel.HomeScreen.CarregarMaisHinosCorrigido | src/screens/HomeScreen/index.tsx:275-311 | advances only when the page arrived, so the list stays pages `1..paginaAtual` |
| HomeScreenModel.HomeScreen.BuscarHinoAleatorio | src/screens/HomeScreen/index.tsx:175-205 | a pick becomes the whole list with totals 1/1 and no more pages; no pick alerts |
| HomeScreenModel.LoadMoreSkipsFailedPage | src/screens/HomeScreen/index.tsx:275-311 | page 2 failing once: the next load-more asks for page 3 and page 2 is never shown |
| HomeScreenModel.CorrectedLoadMoreRetriesPage | src/screens/HomeScreen/index.tsx:275-311 | with the correction the next load-more asks for page 2 again |
| AudioScreenModel.AudioScreen.constructor | src/screens/AudioScreen/index.tsx:32-41 | empty list, loading, page 1, more pages |
| AudioScreenModel.AudioScreen.CarregarAudios | src/screens/AudioScreen/index.tsx:47-84 | a reset replaces the list and totals, otherwise the page is appended; a failure keeps the list and totals and alerts; loading always ends |
| AudioScreenModel.AudioScreen.BuscarAudios | src/screens/AudioScreen/index.tsx:124-190 | each `Dispatch` case with the audio lookups; a reload is `carregarAudios(1, true)` (the page and its totals, or the old list and totals with an alert) |
| AudioScreenModel.AudioScreen.CarregarMaisAudios | src/screens/AudioScreen/index.tsx:192-230 | no-op while loading or at the end; the page advances only when the next page arrived, so the list stays pages `1..paginaAtual` |
| AudioScreenModel.AudioScreen.BuscarAudioAleatorio | src/screens/AudioScreen/index.tsx:92-122 | a pick becomes the whole list with totals 1/1; no pick alerts |

## Left out

- Network I/O, `AbortController` timeouts and the connectivity probes are parameters:
  the outcome of each `fetch` attempt and an `online` flag. The delay between retries is
  counted, not waited.
- AsyncStorage and JSON: the store is a map from keys to the lists it holds. Anything
  else stored is unparseable text. Read failures are the set `unreadable`, and a
  rejected write is a `WriteFault` at a given step.
- `Math.random` is a free choice of index, and `Date.now` is a clock parameter.
- The `parseInt` of the stamp and of the search text is exact for every length. The
  precision loss of JavaScript numbers above 2^53 is not modelled.
- `toLowerCase` covers ASCII and Latin-1 letters only. Other scripts and strings that
  change length when lower-cased are not modelled.
- The emoji in the random-pick label is a single character here. JavaScript stores it
  as two UTF-16 units.
- `encodeURIComponent` and the URL parser: endpoint keys are built from the raw text.
- Audio playback, the download and sharing of files, the heartbeat animation,
  scrolling and reading progress are pure I/O or floating-point presentation.
- The `id` strings of list items are omitted; the item index is kept.
- Alert titles are omitted; only the messages are kept.
- Some `catch` blocks cannot be reached, because the modelled services never throw
  there:
  - the one in `startSync` at src/hooks/useSync.ts:63-67;
  - the ones in `buscarHinos` and `buscarAudios` around the lookup and the text search;
  - the one in `buscarHinoAleatorio`.
- React hook closures that read stale state (two handlers racing within one render)
  are not modelled. Each handler runs to completion on the current state.
- `inicializarApp` (src/screens/HomeScreen/index.tsx:53-109) is not modelled. It runs
  `carregarHinos`, `carregarEstatisticas` and a background `syncIfNeeded` at once, and
  the model has no interleaving. `carregarEstatisticas` only stores `GetEstatisticas`'s
  answer, and the favourite toggle on a list row only calls `AlternarFavorito`.
- The effects that re-run when the audio changes
  (src/screens/AudioDetailsScreen/index.tsx:443-455) are the separate methods
  `BuscarHinosAdjacentes` and `CarregarHinoCompleto`. They are not chained after
  `NavegarParaHino`, so the second neighbour lookup that the effect makes after a
  navigation is not in its `requested`.
- Api.StatsOf: `porcentagemComAudio` is a JavaScript number and can be fractional; the
  model keeps it as an integer.
- The empty-state texts of the favourites screen are rendering only.
- Api.ApiService.GetAudios: states bounds and the non-blank URLs, not the exact page.
  The page is `AudiosPage` of the `getHinos(1, 640)` answer, which the body computes.
- Api.ApiService.GetAudioPorHino: states the fallback case exactly. The remote case is
  stated only through its non-empty URL.
- Api.ApiService.GetAudioAleatorio: states the remote case exactly. The fallback only
  gives an audio with a non-empty URL.

## Findings

| source | as written | input that shows it | evidently intended | confidence | as-written member | corrected member |
|---|---|---|---|---|---|---|
| src/screens/HomeScreen/index.tsx:275-311 | `carregarMaisHinos` calls `carregarHinos(proximaPagina, false)` and then sets `paginaAtual` to the next page. `carregarHinos` catches its own failures (lines 133-144), so the page advances even when it never loaded. | The list shows page 1 of at least 3. Page 2 fails once. The next load-more asks for page 3, and page 2 is never shown. | Advance only when the page arrived, as the audio list does at src/screens/AudioScreen/index.tsx:209-214. | not executed | HomeScreenModel.LoadMoreSkipsFailedPage | HomeScreenModel.CorrectedLoadMoreRetriesPage |
