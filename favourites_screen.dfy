/** The favourites screen: a search box filters the saved favourites by title or number,
    and the list shows every favourite while the box holds only blanks. */
module FavouritesScreen {
  import opened Common
  import opened Hymns
  import opened Favourites

  /** A favourite matches when its lower-cased title contains the lower-cased search text,
      or when its number written in decimal contains the text as typed. */
  predicate Matches(f: HinoFavorito, searchText: string)
  {
    Includes(Lower(f.titulo), Lower(searchText)) || Includes(IntToString(f.numero), searchText)
  }

  /** `filteredFavorites` */
  function FilteredFavorites(favs: seq<HinoFavorito>, searchText: string): (r: seq<HinoFavorito>)
    ensures |r| <= |favs| && IsSubsequence(r, favs)
    ensures forall f :: f in r <==> f in favs && Matches(f, searchText)
    ensures forall f :: multiset(r)[f] == if Matches(f, searchText) then multiset(favs)[f] else 0
  {
    Filter(favs, (f: HinoFavorito) => Matches(f, searchText))
  }

  /** The list the screen shows: the filtered one only while the trimmed text is not empty. */
  function Displayed(favs: seq<HinoFavorito>, searchText: string): (r: seq<HinoFavorito>)
    ensures Trim(searchText) == [] ==> r == favs
    ensures Trim(searchText) != [] ==> r == FilteredFavorites(favs, searchText)
    ensures Trim(searchText) != [] ==> forall f :: f in r <==> f in favs && Matches(f, searchText)
    ensures |r| <= |favs| && IsSubsequence(r, favs)
  {
    if Trim(searchText) == [] then
      IsSubsequenceRefl(favs);
      favs
    else FilteredFavorites(favs, searchText)
  }

  lemma {:induction false} IsSubsequenceRefl<T>(xs: seq<T>)
    ensures IsSubsequence(xs, xs)
    decreases |xs|
  {
    if xs != [] {
      IsSubsequenceRefl(xs[1..]);
    }
  }

  /** How a favourite is handed to the list row: a missing or empty author becomes `''`,
      and the audio reference is the empty string. */
  function AsHinoLocal(f: HinoFavorito): (h: HinoLocal)
    ensures h.numero == f.numero && h.titulo == f.titulo
    ensures h.autor.Some? && (f.autor.Some? ==> h.autor == f.autor) && (f.autor.None? ==> h.autor == Some(""))
    ensures h.audio.None? && h.audioUrl == Some("")
  {
    HinoLocal(f.numero, f.titulo, Some(if f.autor.Some? then f.autor.value else ""), None, Some(""))
  }

  /** The rows of the shown list. */
  function Rows(favs: seq<HinoFavorito>, searchText: string): (r: seq<HinoLocal>)
    ensures |r| == |Displayed(favs, searchText)|
    ensures forall i :: 0 <= i < |r| ==> r[i] == AsHinoLocal(Displayed(favs, searchText)[i])
  {
    Map(Displayed(favs, searchText), AsHinoLocal)
  }

  /** Typing a favourite's number finds it. */
  lemma NumberFindsFavourite(favs: seq<HinoFavorito>, f: HinoFavorito)
    requires f in favs
    ensures f in FilteredFavorites(favs, IntToString(f.numero))
  {
    var s := IntToString(f.numero);
    assert StartsWith(s, s);
  }

  /** Lower-casing leaves a character that is a digit or `-` unchanged, and maps no other
      character to one. */
  lemma LowerKeepsNumerals(q: string)
    requires forall c :: c in Lower(q) ==> c == '-' || IsDigit(c)
    ensures Lower(q) == q
  {
    forall i | 0 <= i < |q|
      ensures Lower(q)[i] == q[i]
    {
      assert Lower(q)[i] in Lower(q);
    }
  }

  /** Lower-casing twice is lower-casing once. */
  lemma LowerIdempotent(s: string)
    ensures Lower(Lower(s)) == Lower(s)
  {
    assert forall i :: 0 <= i < |s| ==> Lower(Lower(s))[i] == Lower(s)[i];
  }

  /** The search is blind to case: a text and its lower-cased form select the same
      favourites, the number match included. */
  lemma SearchIgnoresCase(f: HinoFavorito, q: string)
    ensures Matches(f, Lower(q)) <==> Matches(f, q)
  {
    LowerIdempotent(q);
    var digits := IntToString(f.numero);
    if Includes(digits, q) {
      forall c | c in q
        ensures c == '-' || IsDigit(c)
      {
        IncludesChar(digits, q, c);
      }
      forall i | 0 <= i < |q|
        ensures Lower(q)[i] == q[i]
      {
        assert q[i] in q;
      }
      assert Lower(q) == q;
    }
    if Includes(digits, Lower(q)) {
      forall c | c in Lower(q)
        ensures c == '-' || IsDigit(c)
      {
        IncludesChar(digits, Lower(q), c);
      }
      LowerKeepsNumerals(q);
    }
  }

  lemma {:induction false} FilteredIgnoresCase(favs: seq<HinoFavorito>, q: string)
    ensures FilteredFavorites(favs, Lower(q)) == FilteredFavorites(favs, q)
  {
    if favs != [] {
      SearchIgnoresCase(favs[0], q);
      FilteredIgnoresCase(favs[1..], q);
    }
  }
}
