/** The offline hymn store: three namespaced keys in the device's key-value storage,
    a 24-hour validity window stamped on every save of the hymn list, and the read-only
    queries the API client falls back to (search, lookup by number, by author, by range,
    random pick). Reads never throw: an absent key or a failing read gives an empty
    answer. Writes may reject and then rethrow. */
module LocalStore {
  import opened Common
  import opened Hymns

  const HinosKey := "@harpa_crista_hinos_cache"
  const HinosCompletosKey := "@harpa_crista_hinos_completos_cache"
  const LastUpdateKey := "@harpa_crista_hinos_last_update"

  /** 24 hours in milliseconds. */
  const CacheDuration := 24 * 60 * 60 * 1000

  /** The largest magnitude, in milliseconds, a JavaScript `Date` can hold. */
  const MaxDateMillis := 8_640_000_000_000_000

  /** A stored string: the JSON text of a hymn list, of a full-hymn list, or any other text. */
  datatype Stored = HinosJson(hinos: seq<HinoLocal>) | CompletosJson(completos: seq<HinoCompleto>) | Text(text: string)

  type Store = map<string, Stored>

  /** `Date | null` as reported by the cache statistics; `InvalidDate` is `new Date(NaN)`. */
  datatype DateValue = At(millis: int) | InvalidDate

  datatype CacheStats = CacheStats(totalHinos: nat, lastUpdate: Option<DateValue>)

  lemma ThreeDistinctKeys()
    ensures HinosKey != HinosCompletosKey && HinosKey != LastUpdateKey && HinosCompletosKey != LastUpdateKey
    ensures CacheDuration == 86_400_000
  {
    assert HinosKey[21] != HinosCompletosKey[21];
    assert HinosKey[20] != LastUpdateKey[20];
    assert HinosCompletosKey[20] != LastUpdateKey[20];
  }

  // ----- reads -----------------------------------------------------------------
  // `unreadable` is the set of keys whose `getItem` rejects during the call.

  /** `loadHinos`: the stored hymn list, or `[]` when the key is absent, empty, unparseable
      as a hymn list, or its read fails. */
  function LoadHinos(store: Store, unreadable: set<string>): (r: seq<HinoLocal>)
    ensures r != [] ==> HinosKey in store && HinosKey !in unreadable && store[HinosKey] == HinosJson(r)
  {
    if HinosKey in store && HinosKey !in unreadable && store[HinosKey].HinosJson? then store[HinosKey].hinos else []
  }

  /** `loadHinosCompletos`, with the same degradation to `[]`. */
  function LoadHinosCompletos(store: Store, unreadable: set<string>): (r: seq<HinoCompleto>)
    ensures r != [] ==> HinosCompletosKey in store && HinosCompletosKey !in unreadable && store[HinosCompletosKey] == CompletosJson(r)
  {
    if HinosCompletosKey in store && HinosCompletosKey !in unreadable && store[HinosCompletosKey].CompletosJson? then
      store[HinosCompletosKey].completos
    else []
  }

  /** The stamp `parseInt` reads back from the last-update key, if the key holds a
      non-empty text with a number at its head. JSON list texts start with `[` and read as `NaN`. */
  function StampOf(store: Store): (r: Option<int>)
    ensures r.Some? ==> LastUpdateKey in store && store[LastUpdateKey].Text?
    ensures forall t: nat :: LastUpdateKey in store && store[LastUpdateKey] == Text(NatToString(t)) ==> r == Some(t)
  {
    ParseIntOfNats();
    if LastUpdateKey in store && store[LastUpdateKey].Text? && store[LastUpdateKey].text != [] then
      ParseInt(store[LastUpdateKey].text)
    else None
  }

  /** `isCacheValid` at clock `now`: `now - t < 24h` for a readable stamp `t`; every
      comparison with `NaN` and every failure gives `false`. */
  predicate IsCacheValid(store: Store, unreadable: set<string>, now: int): (r: bool)
    ensures r ==> LastUpdateKey in store && LastUpdateKey !in unreadable
    ensures forall t: nat :: LastUpdateKey !in unreadable && LastUpdateKey in store && store[LastUpdateKey] == Text(NatToString(t))
              ==> (r <==> now - t < CacheDuration)
  {
    LastUpdateKey !in unreadable && StampOf(store).Some? && now - StampOf(store).value < CacheDuration
  }

  /** `getCacheStats`: the hymn count and the stamp as a date; a failing read of the stamp
      gives `{0, null}` even when the list itself was loaded. */
  function GetCacheStats(store: Store, unreadable: set<string>): (r: CacheStats)
    ensures LastUpdateKey in unreadable ==> r == CacheStats(0, None)
    ensures LastUpdateKey !in unreadable ==> r.totalHinos == |LoadHinos(store, unreadable)|
    ensures r.lastUpdate.None? <==>
              (LastUpdateKey in unreadable || LastUpdateKey !in store || store[LastUpdateKey] == Text([]))
  {
    if LastUpdateKey in unreadable then CacheStats(0, None)
    else
      var total := |LoadHinos(store, unreadable)|;
      if LastUpdateKey !in store || store[LastUpdateKey] == Text([]) then CacheStats(total, None)
      else
        var parsed := if store[LastUpdateKey].Text? then ParseInt(store[LastUpdateKey].text) else None;
        match parsed
        case Some(t) => CacheStats(total, Some(if -MaxDateMillis <= t <= MaxDateMillis then At(t) else InvalidDate))
        case None => CacheStats(total, Some(InvalidDate))
  }

  // ----- queries over the loaded list ----------------------------------------------

  /** The first element with number `numero` (`find(...) || null`). */
  function FindByNumero(hinos: seq<HinoLocal>, numero: int): (r: Option<HinoLocal>)
    ensures r.Some? ==> exists i :: (0 <= i < |hinos| && hinos[i] == r.value && r.value.numero == numero
                                     && forall j :: 0 <= j < i ==> hinos[j].numero != numero)
    ensures r.None? <==> forall h :: h in hinos ==> h.numero != numero
  {
    if hinos == [] then None
    else if hinos[0].numero == numero then Some(hinos[0])
    else
      var r := FindByNumero(hinos[1..], numero);
      if r.Some? then
        ghost var i :| 0 <= i < |hinos[1..]| && hinos[1..][i] == r.value && r.value.numero == numero
          && forall j :: 0 <= j < i ==> hinos[1..][j].numero != numero;
        assert hinos[i + 1] == r.value;
        r
      else
        assert forall h :: h in hinos ==> h == hinos[0] || h in hinos[1..];
        r
  }

  /** The same lookup over the full-hymn list. */
  function FindCompletoByNumero(completos: seq<HinoCompleto>, numero: int): (r: Option<HinoCompleto>)
    ensures r.Some? ==> exists i :: (0 <= i < |completos| && completos[i] == r.value && r.value.numero == numero
                                     && forall j :: 0 <= j < i ==> completos[j].numero != numero)
    ensures r.None? <==> forall h :: h in completos ==> h.numero != numero
  {
    if completos == [] then None
    else if completos[0].numero == numero then Some(completos[0])
    else
      var r := FindCompletoByNumero(completos[1..], numero);
      if r.Some? then
        ghost var i :| 0 <= i < |completos[1..]| && completos[1..][i] == r.value && r.value.numero == numero
          && forall j :: 0 <= j < i ==> completos[1..][j].numero != numero;
        assert completos[i + 1] == r.value;
        r
      else
        assert forall h :: h in completos ==> h == completos[0] || h in completos[1..];
        r
  }

  /** `getHinoByNumber` */
  function GetHinoByNumber(store: Store, unreadable: set<string>, numero: int): (r: Option<HinoLocal>)
    ensures r.Some? ==> r.value in LoadHinos(store, unreadable) && r.value.numero == numero
    ensures r.None? <==> forall h :: h in LoadHinos(store, unreadable) ==> h.numero != numero
    ensures HinosKey in unreadable ==> r.None?
  {
    FindByNumero(LoadHinos(store, unreadable), numero)
  }

  /** `getHinoCompletoByNumber` */
  function GetHinoCompletoByNumber(store: Store, unreadable: set<string>, numero: int): (r: Option<HinoCompleto>)
    ensures r.Some? ==> r.value in LoadHinosCompletos(store, unreadable) && r.value.numero == numero
    ensures r.None? <==> forall h :: h in LoadHinosCompletos(store, unreadable) ==> h.numero != numero
    ensures HinosCompletosKey in unreadable ==> r.None?
  {
    FindCompletoByNumero(LoadHinosCompletos(store, unreadable), numero)
  }

  /** `query.toLowerCase().trim()` */
  function SearchTerm(query: string): string
  {
    Trim(Lower(query))
  }

  /** An optional author that, lowercased, contains `term` (`autor?.toLowerCase().includes(term)`). */
  predicate AuthorIncludes(autor: Option<string>, term: string)
  {
    autor.Some? && Includes(Lower(autor.value), term)
  }

  /** The search predicate: title, author or the number's decimal text contains the term. */
  predicate MatchesTerm(h: HinoLocal, term: string)
  {
    Includes(Lower(h.titulo), term) || AuthorIncludes(h.autor, term) || Includes(IntToString(h.numero), term)
  }

  /** `searchHinos(query)` over a list: the order-preserving sublist of the matching hymns. */
  function Search(hinos: seq<HinoLocal>, query: string): (r: seq<HinoLocal>)
    ensures IsSubsequence(r, hinos)
    ensures forall h :: h in r <==> h in hinos && MatchesTerm(h, SearchTerm(query))
    ensures forall h :: multiset(r)[h] == if MatchesTerm(h, SearchTerm(query)) then multiset(hinos)[h] else 0
  {
    Filter(hinos, (h: HinoLocal) => MatchesTerm(h, SearchTerm(query)))
  }

  function SearchHinos(store: Store, unreadable: set<string>, query: string): (r: seq<HinoLocal>)
    ensures forall h :: h in r <==> h in LoadHinos(store, unreadable) && MatchesTerm(h, SearchTerm(query))
    ensures HinosKey in unreadable ==> r == []
  {
    Search(LoadHinos(store, unreadable), query)
  }

  /** `getHinosByAuthor(autor)` over a list: hymns whose author contains the term; hymns
      without an author never match. */
  function ByAuthor(hinos: seq<HinoLocal>, autor: string): (r: seq<HinoLocal>)
    ensures IsSubsequence(r, hinos)
    ensures forall h :: h in r <==> h in hinos && h.autor.Some? && Includes(Lower(h.autor.value), SearchTerm(autor))
    ensures forall h :: multiset(r)[h] == if AuthorIncludes(h.autor, SearchTerm(autor)) then multiset(hinos)[h] else 0
  {
    Filter(hinos, (h: HinoLocal) => AuthorIncludes(h.autor, SearchTerm(autor)))
  }

  function GetHinosByAuthor(store: Store, unreadable: set<string>, autor: string): (r: seq<HinoLocal>)
    ensures forall h :: h in r <==> h in LoadHinos(store, unreadable) && AuthorIncludes(h.autor, SearchTerm(autor))
    ensures HinosKey in unreadable ==> r == []
  {
    ByAuthor(LoadHinos(store, unreadable), autor)
  }

  // ----- range query: filter, then a stable sort by number ---------------------------

  predicate SortedByNumero(s: seq<HinoLocal>)
  {
    forall i, j :: 0 <= i < j < |s| ==> s[i].numero <= s[j].numero
  }

  /** Inserts `h` before the first element whose number is not smaller. */
  function InsertByNumero(h: HinoLocal, s: seq<HinoLocal>): (r: seq<HinoLocal>)
    ensures r != [] && (r[0] == h || (s != [] && r[0] == s[0]))
    ensures multiset(r) == multiset(s) + multiset{h}
  {
    if s == [] || h.numero <= s[0].numero then [h] + s
    else
      assert s == [s[0]] + s[1..];
      [s[0]] + InsertByNumero(h, s[1..])
  }

  lemma SortedCons(x: HinoLocal, s: seq<HinoLocal>)
    requires SortedByNumero(s) && (s == [] || x.numero <= s[0].numero)
    ensures SortedByNumero([x] + s)
  {
  }

  lemma {:induction false} InsertSorted(h: HinoLocal, s: seq<HinoLocal>)
    requires SortedByNumero(s)
    ensures SortedByNumero(InsertByNumero(h, s))
  {
    if s == [] || h.numero <= s[0].numero {
      SortedCons(h, s);
    } else {
      InsertSorted(h, s[1..]);
      SortedCons(s[0], InsertByNumero(h, s[1..]));
    }
  }

  /** `array.sort((a, b) => a.numero - b.numero)` */
  function SortByNumero(s: seq<HinoLocal>): (r: seq<HinoLocal>)
    ensures multiset(r) == multiset(s) && SortedByNumero(r)
  {
    if s == [] then []
    else
      assert s == [s[0]] + s[1..];
      InsertSorted(s[0], SortByNumero(s[1..]));
      InsertByNumero(s[0], SortByNumero(s[1..]))
  }

  predicate InRange(h: HinoLocal, inicio: int, fim: int)
  {
    h.numero >= inicio && h.numero <= fim
  }

  /** `getHinosByRange(inicio, fim)` over a list. */
  function ByRange(hinos: seq<HinoLocal>, inicio: int, fim: int): (r: seq<HinoLocal>)
    ensures SortedByNumero(r)
    ensures |r| <= |hinos|
  {
    SortByNumero(Filter(hinos, (h: HinoLocal) => InRange(h, inicio, fim)))
  }

  function GetHinosByRange(store: Store, unreadable: set<string>, inicio: int, fim: int): (r: seq<HinoLocal>)
    ensures SortedByNumero(r)
    ensures forall h :: h in r <==> h in LoadHinos(store, unreadable) && inicio <= h.numero <= fim
    ensures HinosKey in unreadable ==> r == []
  {
    ByRangeSpec(LoadHinos(store, unreadable), inicio, fim);
    ByRange(LoadHinos(store, unreadable), inicio, fim)
  }

  /** The range query holds exactly the hymns numbered in `[inicio, fim]`, each as often as
      in the list, in ascending order of number. */
  lemma ByRangeSpec(hinos: seq<HinoLocal>, inicio: int, fim: int)
    ensures SortedByNumero(ByRange(hinos, inicio, fim))
    ensures forall h :: h in ByRange(hinos, inicio, fim) <==> h in hinos && inicio <= h.numero <= fim
    ensures forall h :: multiset(ByRange(hinos, inicio, fim))[h] == if inicio <= h.numero <= fim then multiset(hinos)[h] else 0
  {
    var f := Filter(hinos, (h: HinoLocal) => InRange(h, inicio, fim));
    assert multiset(ByRange(hinos, inicio, fim)) == multiset(f);
    forall h ensures h in ByRange(hinos, inicio, fim) <==> h in f {
      assert h in multiset(ByRange(hinos, inicio, fim)) <==> h in multiset(f);
    }
  }

  lemma ByRangeEmptyWhenReversed(hinos: seq<HinoLocal>, inicio: int, fim: int)
    requires inicio > fim
    ensures ByRange(hinos, inicio, fim) == []
  {
    FilterNone(hinos, (h: HinoLocal) => InRange(h, inicio, fim));
  }

  /** The hymns numbered `k`, in list order. */
  function WithNumero(s: seq<HinoLocal>, k: int): seq<HinoLocal>
  {
    Filter(s, NumberedAs(k))
  }

  function NumberedAs(k: int): HinoLocal -> bool
  {
    (x: HinoLocal) => x.numero == k
  }

  lemma {:induction false} InsertKeepsEqualOrder(h: HinoLocal, s: seq<HinoLocal>, k: int)
    ensures WithNumero(InsertByNumero(h, s), k) == (if h.numero == k then [h] else []) + WithNumero(s, k)
  {
    var p := NumberedAs(k);
    var mine: seq<HinoLocal> := if h.numero == k then [h] else [];
    if s == [] || h.numero <= s[0].numero {
      FilterCons(h, s, p);
    } else {
      var first: seq<HinoLocal> := if p(s[0]) then [s[0]] else [];
      var rest := WithNumero(s[1..], k);
      InsertKeepsEqualOrder(h, s[1..], k);
      assert InsertByNumero(h, s) == [s[0]] + InsertByNumero(h, s[1..]);
      FilterCons(s[0], InsertByNumero(h, s[1..]), p);
      ConsSplit(s);
      FilterCons(s[0], s[1..], p);
      assert WithNumero(InsertByNumero(h, s), k) == first + (mine + rest);
      assert WithNumero(s, k) == first + rest;
      // `h` sorts after `s[0]`, so at most one of them is numbered `k`.
      if mine == [] {
        ConcatEmpty(rest);
        ConcatEmpty(first + rest);
      } else {
        assert first == [];
        ConcatEmpty(mine + rest);
        ConcatEmpty(rest);
      }
    }
  }

  /** Among hymns with the same number the sort keeps the list order (a stable sort). */
  lemma {:induction false} SortIsStable(s: seq<HinoLocal>, k: int)
    ensures WithNumero(SortByNumero(s), k) == WithNumero(s, k)
  {
    if s != [] {
      SortIsStable(s[1..], k);
      InsertKeepsEqualOrder(s[0], SortByNumero(s[1..]), k);
      assert s == [s[0]] + s[1..];
      FilterCons(s[0], s[1..], NumberedAs(k));
    }
  }

  // ----- search lemmas ---------------------------------------------------------------

  /** A query that is blank once lowercased and trimmed matches every hymn. */
  lemma BlankQueryMatchesAll(hinos: seq<HinoLocal>, query: string)
    requires SearchTerm(query) == []
    ensures Search(hinos, query) == hinos
  {
    forall h | h in hinos ensures MatchesTerm(h, SearchTerm(query)) {
      assert StartsWith(Lower(h.titulo), []);
    }
    FilterKeepsAll(hinos, (h: HinoLocal) => MatchesTerm(h, SearchTerm(query)));
  }

  /** The number test is a substring test on the decimal text, not a prefix test:
      the query "40" finds hymn 140. */
  lemma NumberSearchIsSubstring(titulo: string)
    ensures MatchesTerm(HinoLocal(140, titulo, None, None, None), SearchTerm("40"))
  {
    assert SearchTerm("40") == "40";
    assert IntToString(140) == "140";
    IncludesAt("140", "40", 1);
  }

  /** Hymns without an author are never found by an author query. */
  lemma ByAuthorSkipsAnonymous(hinos: seq<HinoLocal>, autor: string, h: HinoLocal)
    requires h.autor.None?
    ensures h !in ByAuthor(hinos, autor)
  {
  }

  // ----- the store object -----------------------------------------------------------

  /** The store after the first `k` writes of `saveHinos(hinos)` at clock `now`. */
  function AfterSaveHinos(store: Store, hinos: seq<HinoLocal>, now: nat, k: nat): Store
  {
    if k == 0 then store
    else if k == 1 then store[HinosKey := HinosJson(hinos)]
    else store[HinosKey := HinosJson(hinos)][LastUpdateKey := Text(IntToString(now))]
  }

  /** The store after the first `k` removals of `clearCache`. */
  function AfterClear(store: Store, k: nat): Store
  {
    if k == 0 then store
    else if k == 1 then store - {HinosKey}
    else if k == 2 then store - {HinosKey, HinosCompletosKey}
    else store - {HinosKey, HinosCompletosKey, LastUpdateKey}
  }

  class LocalStorageService {
    /** The device key-value storage. */
    var store: Store

    constructor(initial: Store)
      ensures store == initial
    {
      store := initial;
    }

    /** `saveHinos`: writes the list, then stamps the clock; a rejected write is rethrown
        and the writes before it stay. */
    method SaveHinos(hinos: seq<HinoLocal>, now: nat, fault: WriteFault) returns (o: Outcome)
      modifies this
      ensures store == AfterSaveHinos(old(store), hinos, now, Performed(fault, 2))
      ensures o == Reported(fault, 2)
    {
      if fault.FailAt? && fault.step == 0 {
        return Threw(fault.exc);
      }
      store := store[HinosKey := HinosJson(hinos)];
      if fault.FailAt? && fault.step == 1 {
        return Threw(fault.exc);
      }
      store := store[LastUpdateKey := Text(IntToString(now))];
      o := Done;
    }

    /** `saveHinosCompletos`: one write of the full list; the stamp is not touched. */
    method SaveHinosCompletos(completos: seq<HinoCompleto>, fault: WriteFault) returns (o: Outcome)
      modifies this
      ensures Performed(fault, 1) == 1 ==> store == old(store)[HinosCompletosKey := CompletosJson(completos)]
      ensures Performed(fault, 1) == 0 ==> store == old(store)
      ensures o == Reported(fault, 1)
    {
      if fault.FailAt? && fault.step == 0 {
        return Threw(fault.exc);
      }
      store := store[HinosCompletosKey := CompletosJson(completos)];
      o := Done;
    }

    /** `clearCache`: removes the three keys in order; a rejected removal is rethrown. */
    method ClearCache(fault: WriteFault) returns (o: Outcome)
      modifies this
      ensures store == AfterClear(old(store), Performed(fault, 3))
      ensures o == Reported(fault, 3)
    {
      if fault.FailAt? && fault.step == 0 {
        return Threw(fault.exc);
      }
      store := store - {HinosKey};
      if fault.FailAt? && fault.step == 1 {
        return Threw(fault.exc);
      }
      store := store - {HinosCompletosKey};
      if fault.FailAt? && fault.step == 2 {
        return Threw(fault.exc);
      }
      store := store - {LastUpdateKey};
      o := Done;
    }

    /** `getRandomHino`: `null` exactly when the loaded list is empty, else one of its
        elements (the index `Math.random` picks is left open). */
    method GetRandomHino(unreadable: set<string>) returns (r: Option<HinoLocal>)
      ensures r.None? <==> LoadHinos(store, unreadable) == []
      ensures r.Some? ==> r.value in LoadHinos(store, unreadable)
    {
      var hinos := LoadHinos(store, unreadable);
      if |hinos| == 0 {
        return None;
      }
      var i :| 0 <= i < |hinos|;
      r := Some(hinos[i]);
    }
  }

  // ----- what the writes leave behind ---------------------------------------------------

  /** After a complete `saveHinos` at `now`, the list reads back and the cache is valid for
      exactly the clocks less than 24 hours later. */
  lemma SaveHinosThenRead(store: Store, hinos: seq<HinoLocal>, now: nat, unreadable: set<string>, later: int)
    requires HinosKey !in unreadable && LastUpdateKey !in unreadable
    requires now <= MaxDateMillis
    ensures LoadHinos(AfterSaveHinos(store, hinos, now, 2), unreadable) == hinos
    ensures IsCacheValid(AfterSaveHinos(store, hinos, now, 2), unreadable, later) <==> later - now < CacheDuration
    ensures GetCacheStats(AfterSaveHinos(store, hinos, now, 2), unreadable) == CacheStats(|hinos|, Some(At(now)))
  {
    ThreeDistinctKeys();
    ParseIntOfNat(now);
    assert IntToString(now) == NatToString(now);
    assert StampOf(AfterSaveHinos(store, hinos, now, 2)) == Some(now);
  }

  /** `saveHinosCompletos` leaves the hymn list and its stamp as they were. */
  lemma SaveCompletosKeepsStamp(store: Store, completos: seq<HinoCompleto>, unreadable: set<string>, now: int)
    ensures var s' := store[HinosCompletosKey := CompletosJson(completos)];
      LoadHinos(s', unreadable) == LoadHinos(store, unreadable)
      && StampOf(s') == StampOf(store)
      && IsCacheValid(s', unreadable, now) == IsCacheValid(store, unreadable, now)
      && (HinosCompletosKey !in unreadable ==> LoadHinosCompletos(s', unreadable) == completos)
  {
    ThreeDistinctKeys();
  }

  /** Exactly 24 hours after the stamp the cache is already stale. */
  lemma StaleAtExactlyOneDay(store: Store, t: nat)
    requires StampOf(store) == Some(t)
    ensures IsCacheValid(store, {}, t + CacheDuration - 1)
    ensures !IsCacheValid(store, {}, t + CacheDuration)
  {
  }

  /** A complete `clearCache` empties both lists, invalidates the cache, zeroes the
      statistics, and a second clear changes nothing. */
  lemma ClearedStore(store: Store, unreadable: set<string>, now: int)
    ensures LoadHinos(AfterClear(store, 3), unreadable) == []
    ensures LoadHinosCompletos(AfterClear(store, 3), unreadable) == []
    ensures !IsCacheValid(AfterClear(store, 3), unreadable, now)
    ensures GetCacheStats(AfterClear(store, 3), unreadable) == CacheStats(0, None)
    ensures AfterClear(AfterClear(store, 3), 3) == AfterClear(store, 3)
  {
  }
}
