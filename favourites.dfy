/** The favourites context: an in-memory list of favourite hymns mirrored in one storage
    key. Adding appends without a duplicate check, removing drops every entry with the
    number, and the in-memory list is replaced only after the storage write succeeds. */
module Favourites {
  import opened Common

  datatype HinoFavorito = HinoFavorito(numero: int, titulo: string, autor: Option<string>)

  /** What the storage key holds: nothing, a list, or text that does not parse. */
  datatype SavedFavoritos = NotSaved | SavedList(list: seq<HinoFavorito>) | Unparsable

  const FavoritosKey := "@harpa_crista_favoritos"

  /** `verificarFavoritoSync`: `favoritos.some(f => f.numero === n)`. */
  function IsFavorito(favs: seq<HinoFavorito>, n: int): (r: bool)
    ensures r <==> exists f :: f in favs && f.numero == n
  {
    if favs == [] then false
    else favs[0].numero == n || IsFavorito(favs[1..], n)
  }

  /** `adicionarFavorito`: the copy of `h` goes at the end. */
  function Added(favs: seq<HinoFavorito>, h: HinoFavorito): (r: seq<HinoFavorito>)
    ensures |r| == |favs| + 1 && r[..|favs|] == favs && r[|favs|] == h
    ensures IsFavorito(r, h.numero)
  {
    favs + [h]
  }

  /** `removerFavorito`: keeps, in order, every entry whose number differs. */
  function Removed(favs: seq<HinoFavorito>, n: int): (r: seq<HinoFavorito>)
    ensures !IsFavorito(r, n)
    ensures IsSubsequence(r, favs)
    ensures forall f :: f in r <==> f in favs && f.numero != n
    ensures forall f :: multiset(r)[f] == if f.numero != n then multiset(favs)[f] else 0
  {
    Filter(favs, (f: HinoFavorito) => f.numero != n)
  }

  /** `alternarFavorito`: removes the hymn when it is a favourite, adds it otherwise. */
  function Toggled(favs: seq<HinoFavorito>, h: HinoFavorito): (r: seq<HinoFavorito>)
    ensures IsFavorito(r, h.numero) <==> !IsFavorito(favs, h.numero)
    ensures forall m :: m != h.numero ==> (IsFavorito(r, m) <==> IsFavorito(favs, m))
  {
    if IsFavorito(favs, h.numero) then Removed(favs, h.numero) else Added(favs, h)
  }

  /** Toggling the same hymn twice restores which numbers are favourites. */
  lemma ToggleTwiceRestoresMembership(favs: seq<HinoFavorito>, h: HinoFavorito, m: int)
    ensures IsFavorito(Toggled(Toggled(favs, h), h), m) == IsFavorito(favs, m)
  {
  }

  /** Adding a hymn that was not a favourite and toggling it again gives back the very
      same list. */
  lemma ToggleTwiceFromAbsent(favs: seq<HinoFavorito>, h: HinoFavorito)
    requires !IsFavorito(favs, h.numero)
    ensures Toggled(favs, h) == favs + [h]
    ensures Toggled(Toggled(favs, h), h) == favs
  {
    var p := (f: HinoFavorito) => f.numero != h.numero;
    FilterConcat(favs, [h], p);
    FilterKeepsAll(favs, p);
    FilterNone([h], p);
  }

  /** No number occurs twice in the list. */
  predicate DistinctNumbers(favs: seq<HinoFavorito>)
  {
    favs == [] || (!IsFavorito(favs[1..], favs[0].numero) && DistinctNumbers(favs[1..]))
  }

  lemma {:induction false} AddedKeepsDistinct(favs: seq<HinoFavorito>, h: HinoFavorito)
    requires DistinctNumbers(favs) && !IsFavorito(favs, h.numero)
    ensures DistinctNumbers(favs + [h])
  {
    if favs == [] {
      assert favs + [h] == [h];
    } else {
      var r := favs + [h];
      assert r[0] == favs[0] && r[1..] == favs[1..] + [h];
      assert favs[0] in favs;
      assert favs[0].numero != h.numero;
      assert !IsFavorito(favs[1..], h.numero) by {
        forall f | f in favs[1..]
          ensures f.numero != h.numero
        {
          assert f in favs;
        }
      }
      AddedKeepsDistinct(favs[1..], h);
    }
  }

  lemma {:induction false} RemovedKeepsDistinct(favs: seq<HinoFavorito>, n: int)
    requires DistinctNumbers(favs)
    ensures DistinctNumbers(Removed(favs, n))
  {
    if favs != [] {
      var p := (f: HinoFavorito) => f.numero != n;
      FilterCons(favs[0], favs[1..], p);
      assert [favs[0]] + favs[1..] == favs;
      RemovedKeepsDistinct(favs[1..], n);
      var rest := Removed(favs[1..], n);
      if p(favs[0]) {
        assert Removed(favs, n) == [favs[0]] + rest;
        assert ([favs[0]] + rest)[1..] == rest;
        assert !IsFavorito(rest, favs[0].numero) by {
          forall f | f in rest
            ensures f.numero != favs[0].numero
          {
            assert f in favs[1..];
          }
        }
      } else {
        assert Removed(favs, n) == rest;
      }
    }
  }

  /** Starting from a list without repeated numbers, toggling keeps it that way. */
  lemma ToggleKeepsDistinct(favs: seq<HinoFavorito>, h: HinoFavorito)
    requires DistinctNumbers(favs)
    ensures DistinctNumbers(Toggled(favs, h))
  {
    if IsFavorito(favs, h.numero) {
      RemovedKeepsDistinct(favs, h.numero);
    } else {
      AddedKeepsDistinct(favs, h);
    }
  }

  /** The provider's state: the list on screen and what the storage key holds. */
  class FavoritosProvider {
    var favoritos: seq<HinoFavorito>
    var stored: SavedFavoritos

    constructor(stored: SavedFavoritos)
      ensures favoritos == [] && this.stored == stored
    {
      favoritos := [];
      this.stored := stored;
    }

    /** `carregarFavoritos`: a saved list replaces the in-memory one; an absent key, a
        failed read or unparsable text leaves it as it was. */
    method CarregarFavoritos(readFails: bool)
      modifies this
      ensures stored == old(stored)
      ensures !readFails && stored.SavedList? ==> favoritos == stored.list
      ensures readFails || !stored.SavedList? ==> favoritos == old(favoritos)
    {
      if !readFails && stored.SavedList? {
        favoritos := stored.list;
      }
    }

    /** `salvarFavoritos`: the write comes first; the list on screen changes only if it
        succeeded. */
    method SalvarFavoritos(novos: seq<HinoFavorito>, writeOk: bool)
      modifies this
      ensures writeOk ==> favoritos == novos && stored == SavedList(novos)
      ensures !writeOk ==> favoritos == old(favoritos) && stored == old(stored)
    {
      if writeOk {
        stored := SavedList(novos);
        favoritos := novos;
      }
    }

    method AdicionarFavorito(h: HinoFavorito, writeOk: bool)
      modifies this
      ensures writeOk ==> favoritos == Added(old(favoritos), h) && stored == SavedList(favoritos)
      ensures !writeOk ==> favoritos == old(favoritos) && stored == old(stored)
    {
      SalvarFavoritos(Added(favoritos, h), writeOk);
    }

    method RemoverFavorito(n: int, writeOk: bool)
      modifies this
      ensures writeOk ==> favoritos == Removed(old(favoritos), n) && stored == SavedList(favoritos)
      ensures !writeOk ==> favoritos == old(favoritos) && stored == old(stored)
    {
      SalvarFavoritos(Removed(favoritos, n), writeOk);
    }

    method AlternarFavorito(h: HinoFavorito, writeOk: bool)
      modifies this
      ensures writeOk ==> favoritos == Toggled(old(favoritos), h) && stored == SavedList(favoritos)
      ensures !writeOk ==> favoritos == old(favoritos) && stored == old(stored)
      ensures DistinctNumbers(old(favoritos)) ==> DistinctNumbers(favoritos)
    {
      if DistinctNumbers(favoritos) {
        ToggleKeepsDistinct(favoritos, h);
      }
      if IsFavorito(favoritos, h.numero) {
        RemoverFavorito(h.numero, writeOk);
      } else {
        AdicionarFavorito(h, writeOk);
      }
    }
  }
}
