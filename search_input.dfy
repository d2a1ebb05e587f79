/** How the two list screens read the search box: blank reloads the list, a leading
    integer is a hymn number (looked up only inside 1..640) and anything else is a text
    search. */
module SearchInput {
  import opened Common

  const MaxHymn := 640
  /** The page size both list screens ask for. */
  const PageSize := 20

  const ConnectionMessage := "Não foi possível conectar ao servidor. Verifique sua conexão com a internet e tente novamente."
  const TooLargeMessage := "O número máximo de hinos é 640."
  const NonPositiveMessage := "Digite um número válido de hino (1-640)."

  datatype Query =
    | Reload
    | ByNumber(n: int)
    | TooLarge(n: int)
    | NonPositive(n: int)
    | ByText

  /** A request a screen makes to the API client. */
  datatype Request =
    | ListPage(pagina: int)
    | NumberLookup(numero: int)
    | TextPage(query: string, pagina: int)
    | RandomPick

  /** `parseInt(searchText.trim())` and the range tests that follow it. */
  function Dispatch(searchText: string): (q: Query)
    ensures q.Reload? <==> Trim(searchText) == []
    ensures q.ByText? <==> Trim(searchText) != [] && ParseInt(Trim(searchText)).None?
    ensures q.ByNumber? ==> ParseInt(Trim(searchText)) == Some(q.n) && 1 <= q.n <= MaxHymn
    ensures q.TooLarge? ==> ParseInt(Trim(searchText)) == Some(q.n) && q.n > MaxHymn
    ensures q.NonPositive? ==> ParseInt(Trim(searchText)) == Some(q.n) && q.n <= 0
  {
    var t := Trim(searchText);
    if t == [] then Reload
    else match ParseInt(t)
      case None => ByText
      case Some(n) =>
        if 0 < n <= MaxHymn then ByNumber(n)
        else if n > MaxHymn then TooLarge(n)
        else NonPositive(n)
  }

  /** Typing a hymn number, with spaces around it or not, looks that hymn up. */
  lemma TypedNumberIsLookedUp(n: nat, before: string, after: string)
    requires 1 <= n <= MaxHymn
    requires forall c :: c in before ==> IsJsSpace(c)
    requires forall c :: c in after ==> IsJsSpace(c)
    ensures Dispatch(before + NatToString(n) + after) == ByNumber(n)
  {
    var s := NatToString(n);
    assert s[0] in s && s[|s| - 1] in s;
    TrimAround(before, s, after);
    ParseIntOfNat(n);
  }

  /** Trimming removes exactly the surrounding blanks of a word that starts and ends with
      a non-blank. */
  lemma {:induction false} TrimAround(before: string, s: string, after: string)
    requires s != [] && !IsJsSpace(s[0]) && !IsJsSpace(s[|s| - 1])
    requires forall c :: c in before ==> IsJsSpace(c)
    requires forall c :: c in after ==> IsJsSpace(c)
    ensures Trim(before + s + after) == s
  {
    TrimStartBlanks(before, s + after);
    assert before + s + after == before + (s + after);
    TrimEndBlanks(s, after);
  }

  lemma {:induction false} TrimStartBlanks(before: string, rest: string)
    requires rest != [] && !IsJsSpace(rest[0])
    requires forall c :: c in before ==> IsJsSpace(c)
    ensures TrimStart(before + rest) == rest
  {
    if before == [] {
      assert before + rest == rest;
    } else {
      assert before[0] in before;
      assert (before + rest)[1..] == before[1..] + rest;
      TrimStartBlanks(before[1..], rest);
    }
  }

  lemma {:induction false} TrimEndBlanks(s: string, after: string)
    requires s != [] && !IsJsSpace(s[|s| - 1])
    requires forall c :: c in after ==> IsJsSpace(c)
    ensures TrimEnd(s + after) == s
  {
    if after == [] {
      assert s + after == s;
    } else {
      assert after[|after| - 1] in after;
      assert (s + after)[..|s + after| - 1] == s + after[..|after| - 1];
      assert forall c :: c in after[..|after| - 1] ==> c in after;
      TrimEndBlanks(s, after[..|after| - 1]);
    }
  }
}
