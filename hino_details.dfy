/** The hymn detail screen: the chorus and the flat lyrics derived from the stanzas, the
    reading-mode item list and the font-size stepping. */
module HinoDetails {
  import opened Common
  import opened Hymns

  // ----- lyrics derivation -----------------------------------------------------

  /** `${verso.sequence}`: a missing sequence prints as `undefined`. */
  function SequenceText(s: Option<int>): string
  {
    match s
    case Some(n) => IntToString(n)
    case None => "undefined"
  }

  /** The position of the first stanza marked as chorus (`verses.find(v => v.chorus)`). */
  function FirstChorus(vs: seq<Verso>): (r: Option<nat>)
    ensures r.None? <==> forall i :: 0 <= i < |vs| ==> !vs[i].chorus
    ensures r.Some? ==>
      (r.value < |vs| && vs[r.value].chorus && forall j :: 0 <= j < r.value ==> !vs[j].chorus)
  {
    if vs == [] then None
    else if vs[0].chorus then Some(0)
    else match FirstChorus(vs[1..])
      case None => None
      case Some(i) => Some(i + 1)
  }

  /** `coro`: the lyrics of the first chorus stanza, or the empty string. */
  function CoroOf(verses: Option<seq<Verso>>): string
  {
    match verses
    case None => ""
    case Some(vs) =>
      match FirstChorus(vs)
      case None => ""
      case Some(i) => vs[i].lyrics
  }

  /** What stanza `i` adds to the lyrics: nothing when it has no lyrics; otherwise its
      own `sequence` label (not for the chorus), its lyrics and, unless it is the last
      element of the array, a blank line. */
  function Piece(vs: seq<Verso>, i: nat): string
    requires i < |vs|
  {
    if vs[i].lyrics == [] then [] else Formatted(vs[i]) + Separator(vs, i)
  }

  function Label(v: Verso): string
  {
    if v.chorus then [] else SequenceText(v.sequence) + ". "
  }

  /** One stanza as it appears in the text, without the separator. */
  function Formatted(v: Verso): string
  {
    Label(v) + v.lyrics
  }

  function Separator(vs: seq<Verso>, i: nat): string
  {
    if i < |vs| - 1 then "\n\n" else ""
  }

  /** The pieces of the first `n` stanzas, in array order. */
  function LetraUpTo(vs: seq<Verso>, n: nat): string
    requires n <= |vs|
  {
    if n == 0 then [] else LetraUpTo(vs, n - 1) + Piece(vs, n - 1)
  }

  /** The lyrics text built from the stanzas. */
  function Letra(vs: seq<Verso>): string
  {
    LetraUpTo(vs, |vs|)
  }

  /** `letraCompleta`: the `forEach` accumulating the pieces. */
  method BuildLetra(vs: seq<Verso>) returns (letra: string)
    ensures letra == Letra(vs)
  {
    letra := "";
    for i := 0 to |vs|
      invariant letra == LetraUpTo(vs, i)
    {
      letra := AppendStanza(letra, vs, i);
    }
  }

  /** The `forEach` callback for stanza `index`: appends its label, lyrics and separator. */
  method AppendStanza(letra: string, vs: seq<Verso>, index: nat) returns (r: string)
    requires index < |vs|
    ensures r == letra + Piece(vs, index)
  {
    var v := vs[index];
    r := letra;
    if v.lyrics != [] {
      if !v.chorus {
        r := r + SequenceText(v.sequence) + ". ";
      }
      r := r + v.lyrics;
      if index < |vs| - 1 {
        r := r + "\n\n";
      }
      StanzaText(letra, v, Separator(vs, index));
    }
  }

  lemma StanzaText(letra: string, v: Verso, sep: string)
    ensures !v.chorus ==> letra + SequenceText(v.sequence) + ". " + v.lyrics + sep == letra + (Formatted(v) + sep)
    ensures v.chorus ==> letra + v.lyrics + sep == letra + (Formatted(v) + sep)
  {
  }

  /** `xs.join(sep)` */
  function JoinWith(xs: seq<string>, sep: string): string
  {
    if |xs| == 0 then "" else if |xs| == 1 then xs[0] else xs[0] + sep + JoinWith(xs[1..], sep)
  }

  lemma {:induction false} JoinSnoc(xs: seq<string>, x: string, sep: string)
    requires xs != []
    ensures JoinWith(xs + [x], sep) == JoinWith(xs, sep) + sep + x
    decreases |xs|
  {
    if |xs| > 1 {
      assert (xs + [x])[1..] == xs[1..] + [x];
      JoinSnoc(xs[1..], x, sep);
    }
  }

  lemma {:induction false} LetraUpToJoins(vs: seq<Verso>, n: nat)
    requires 0 < n <= |vs|
    requires forall k :: 0 <= k < |vs| ==> vs[k].lyrics != []
    ensures LetraUpTo(vs, n) == JoinWith(Map(vs, Formatted)[..n], "\n\n") + Separator(vs, n - 1)
  {
    var f := Map(vs, Formatted);
    if n == 1 {
      assert LetraUpTo(vs, 0) == [];
      assert f[..1] == [f[0]];
    } else {
      var before := JoinWith(f[..n - 1], "\n\n");
      var sep := Separator(vs, n - 1);
      LetraUpToJoins(vs, n - 1);
      assert Separator(vs, n - 2) == "\n\n";
      TakeSnoc(f, n);
      JoinSnoc(f[..n - 1], f[n - 1], "\n\n");
      calc {
        LetraUpTo(vs, n);
        LetraUpTo(vs, n - 1) + Piece(vs, n - 1);
        (before + "\n\n") + (f[n - 1] + sep);
        { ConcatAssoc(before + "\n\n", f[n - 1], sep); }
        (before + "\n\n" + f[n - 1]) + sep;
        JoinWith(f[..n], "\n\n") + sep;
      }
    }
  }

  /** When every stanza has lyrics, the text is the formatted stanzas joined by blank lines. */
  lemma LetraJoinsStanzas(vs: seq<Verso>)
    requires forall k :: 0 <= k < |vs| ==> vs[k].lyrics != []
    ensures Letra(vs) == JoinWith(Map(vs, Formatted), "\n\n")
  {
    if vs != [] {
      LetraUpToJoins(vs, |vs|);
      assert Map(vs, Formatted)[..|vs|] == Map(vs, Formatted);
    }
  }

  /** Stanzas without lyrics add nothing. */
  lemma {:induction false} EmptyStanzasAddNothing(vs: seq<Verso>, n: nat)
    requires n <= |vs|
    requires forall k :: 0 <= k < |vs| ==> vs[k].lyrics == []
    ensures LetraUpTo(vs, n) == []
  {
    if n > 0 {
      EmptyStanzasAddNothing(vs, n - 1);
      assert Piece(vs, n - 1) == [];
    }
  }

  /** The labels are the stanzas' own numbers: a chorus at sequence 2 leaves the next
      stanza labelled "3.". */
  lemma LabelsAreOwnSequence()
    ensures Letra([Verso(Some(1), "a", false), Verso(Some(2), "c", true), Verso(Some(3), "b", false)])
         == "1. a\n\nc\n\n3. b"
  {
    var vs := [Verso(Some(1), "a", false), Verso(Some(2), "c", true), Verso(Some(3), "b", false)];
    assert IntToString(1) == "1" && IntToString(3) == "3";
    assert LetraUpTo(vs, 1) == "1. a\n\n";
    assert LetraUpTo(vs, 2) == "1. a\n\nc\n\n";
  }

  /** The separator depends on the array position only: a last stanza without lyrics
      leaves the text ending in a blank line. */
  lemma TrailingSeparatorAfterEmptyLastStanza()
    ensures Letra([Verso(Some(1), "a", false), Verso(Some(2), "", false)]) == "1. a\n\n"
  {
    var vs := [Verso(Some(1), "a", false), Verso(Some(2), "", false)];
    assert IntToString(1) == "1";
    assert LetraUpTo(vs, 1) == "1. a\n\n";
  }

  // ----- splitting the text into lines ----------------------------------------------

  /** `s.split(c)` for a one-character separator. */
  function Split(s: string, c: char): (r: seq<string>)
    ensures |r| >= 1
    ensures forall i :: 0 <= i < |r| ==> c !in r[i]
    decreases |s|
  {
    if s == [] then [""]
    else
      var rest := Split(s[1..], c);
      if s[0] == c then [""] + rest
      else [[s[0]] + rest[0]] + rest[1..]
  }

  /** Joining the lines again gives back the text. */
  lemma {:induction false} SplitJoin(s: string, c: char)
    ensures JoinWith(Split(s, c), [c]) == s
    decreases |s|
  {
    if s != [] {
      var rest := Split(s[1..], c);
      SplitJoin(s[1..], c);
      var r := Split(s, c);
      if s[0] == c {
        assert r[1..] == rest;
        assert [c] + s[1..] == s;
      } else if |rest| == 1 {
        assert [s[0]] + s[1..] == s;
      } else {
        assert r[1..] == rest[1..];
        assert JoinWith(rest, [c]) == rest[0] + [c] + JoinWith(rest[1..], [c]);
        assert [s[0]] + s[1..] == s;
      }
    }
  }

  // ----- reading-mode item list --------------------------------------------------

  datatype ListItem =
    | TextItem(content: string, index: nat)
    | VersoItem(content: string, sequence: Option<int>, index: nat)
    | CoroItem(content: string, index: nat)

  function NonChorus(vs: seq<Verso>): (r: seq<Verso>)
    ensures forall v :: v in r <==> v in vs && !v.chorus
    ensures forall v :: multiset(r)[v] == if v.chorus then 0 else multiset(vs)[v]
    ensures IsSubsequence(r, vs)
  {
    Filter(vs, (v: Verso) => !v.chorus)
  }

  /** The stanza items interleaved with the chorus: V1, C, V2, C, ..., Vk. */
  method InterleaveChorus(normais: seq<Verso>, coro: string) returns (itens: seq<ListItem>)
    ensures |itens| == if normais == [] then 0 else 2 * |normais| - 1
    ensures forall i :: 0 <= i < |normais| ==> itens[2 * i] == VersoItem(normais[i].lyrics, normais[i].sequence, i)
    ensures forall i :: 0 <= i < |normais| - 1 ==> itens[2 * i + 1] == CoroItem(coro, i)
    ensures itens != [] ==> itens[|itens| - 1].VersoItem?
  {
    itens := [];
    var i := 0;
    while i < |normais|
      invariant 0 <= i <= |normais|
      invariant |itens| == if i == 0 then 0 else if i < |normais| then 2 * i else 2 * i - 1
      invariant forall j :: 0 <= j < i ==> itens[2 * j] == VersoItem(normais[j].lyrics, normais[j].sequence, j)
      invariant forall j :: 0 <= j < i && j < |normais| - 1 ==> itens[2 * j + 1] == CoroItem(coro, j)
    {
      itens := itens + [VersoItem(normais[i].lyrics, normais[i].sequence, i)];
      if i < |normais| - 1 {
        itens := itens + [CoroItem(coro, i)];
      }
      i := i + 1;
    }
    if normais != [] {
      assert itens[2 * (|normais| - 1)].VersoItem?;
    }
  }

  /** One text item per line of the lyrics. */
  method LineItems(letra: string) returns (itens: seq<ListItem>)
    ensures |itens| == |Split(letra, '\n')|
    ensures forall i :: 0 <= i < |itens| ==> itens[i] == TextItem(Split(letra, '\n')[i], i)
  {
    var linhas := Split(letra, '\n');
    itens := [];
    var i := 0;
    while i < |linhas|
      invariant 0 <= i <= |linhas| && |itens| == i
      invariant forall j :: 0 <= j < i ==> itens[j] == TextItem(linhas[j], j)
    {
      itens := itens + [TextItem(linhas[i], i)];
      i := i + 1;
    }
  }

  /** The contents of the items, in order. */
  function Contents(itens: seq<ListItem>): (r: seq<string>)
    ensures |r| == |itens| && forall i :: 0 <= i < |itens| ==> r[i] == itens[i].content
  {
    Map(itens, (it: ListItem) => it.content)
  }

  /** In line mode the items' contents, joined by newlines, are the lyrics text again. */
  lemma LineItemsRebuildLetra(letra: string, itens: seq<ListItem>)
    requires |itens| == |Split(letra, '\n')|
    requires forall i :: 0 <= i < |itens| ==> itens[i] == TextItem(Split(letra, '\n')[i], i)
    ensures JoinWith(Contents(itens), "\n") == letra
  {
    assert Contents(itens) == Split(letra, '\n');
    SplitJoin(letra, '\n');
  }

  /** Whether the list repeats the chorus between stanzas. */
  predicate ChorusMode(h: HinoCompleto, repetirCoro: bool)
  {
    h.verses.Some? && h.coro.Some? && h.coro.value != [] && repetirCoro
  }

  // ----- font size ----------------------------------------------------------------

  const FontSizes: seq<int> := [16, 18, 20, 22, 24]
  const DefaultFontSize := 18

  /** `tamanhos.indexOf(x)`: the first position of `x`, or -1. */
  function IndexOf(xs: seq<int>, x: int): (r: int)
    ensures -1 <= r < |xs|
    ensures r == -1 <==> x !in xs
    ensures r >= 0 ==> xs[r] == x && x !in xs[..r]
  {
    if xs == [] then -1
    else if xs[0] == x then 0
    else
      var k := IndexOf(xs[1..], x);
      assert xs[1..][..if k < 0 then 0 else k] == xs[1..if k < 0 then 1 else k + 1];
      if k < 0 then -1 else k + 1
  }

  /** `aumentarFonte`: one step up, saturating at 24. */
  function Increased(size: int): (r: int)
    ensures r in FontSizes
    ensures size in FontSizes && size < 24 ==> r == size + 2
    ensures size == 24 ==> r == 24
    ensures size !in FontSizes ==> r == 16
  {
    var i := IndexOf(FontSizes, size);
    FontSizes[Min(i + 1, |FontSizes| - 1)]
  }

  /** `diminuirFonte`: one step down, saturating at 16. */
  function Decreased(size: int): (r: int)
    ensures r in FontSizes
    ensures size in FontSizes && size > 16 ==> r == size - 2
    ensures size == 16 ==> r == 16
    ensures size !in FontSizes ==> r == 16
  {
    var i := IndexOf(FontSizes, size);
    FontSizes[if i - 1 < 0 then 0 else i - 1]
  }

  /** A step up followed by a step down returns to the size, below the top. */
  lemma StepUpThenDown(size: int)
    requires size in FontSizes && size < 24
    ensures Decreased(Increased(size)) == size
  {
  }

  // ----- the screen state ------------------------------------------------------------

  /** What the detail endpoint answers: `number` 0 stands for a missing number or a null
      body. */
  datatype RawDetail = RawDetail(
    number: int,
    title: string,
    author: Option<string>,
    audioUrl: Option<string>,
    verses: Option<seq<Verso>>)

  const AlertNotFound := "Hino não encontrado"
  const AlertBadFormat := "Formato de resposta inválido da API"
  const AlertLoadFailed := "Não foi possível carregar o hino"

  class HinoDetailsScreen {
    var hinoCompleto: Option<HinoCompleto>
    var loading: bool
    var tamanhoFonte: int
    var repetirCoro: bool
    var alert: Option<string>

    constructor()
      ensures hinoCompleto.None? && loading && tamanhoFonte == DefaultFontSize && repetirCoro && alert.None?
    {
      hinoCompleto, loading, tamanhoFonte, repetirCoro, alert := None, true, DefaultFontSize, true, None;
    }

    /** `carregarHinoDetalhe`: `found` is whether `getHinoPorNumero` answered a hymn,
        `data` the detail body, or the error its request threw. */
    method CarregarHinoDetalhe(found: bool, data: Result<RawDetail, Exc>)
      modifies this
      ensures !loading && tamanhoFonte == old(tamanhoFonte) && repetirCoro == old(repetirCoro)
      ensures !found ==> hinoCompleto == old(hinoCompleto) && alert == Some(AlertNotFound)
      ensures found && data.Failure? ==> hinoCompleto == old(hinoCompleto) && alert == Some(AlertLoadFailed)
      ensures found && data.Success? && data.value.number == 0 ==>
        hinoCompleto == old(hinoCompleto) && alert == Some(AlertBadFormat)
      ensures found && data.Success? && data.value.number != 0 ==>
        var d := data.value;
        alert == old(alert)
        && hinoCompleto == Some(HinoCompleto(d.number, d.title, d.author, None, d.audioUrl,
                                             Letra(if d.verses.Some? then d.verses.value else []),
                                             d.verses, Some(CoroOf(d.verses))))
    {
      loading := true;
      if !found {
        alert := Some(AlertNotFound);
      } else if data.Failure? {
        alert := Some(AlertLoadFailed);
      } else if data.value.number == 0 {
        alert := Some(AlertBadFormat);
      } else {
        var d := data.value;
        var coro := CoroOf(d.verses);
        var letra := "";
        if d.verses.Some? && |d.verses.value| > 0 {
          letra := BuildLetra(d.verses.value);
        }
        hinoCompleto := Some(HinoCompleto(d.number, d.title, d.author, None, d.audioUrl, letra, d.verses, Some(coro)));
      }
      loading := false;
    }

    /** `listaItens`: chorus mode interleaves the non-chorus stanzas with the chorus;
        otherwise one text item per line of the lyrics (none without a hymn). */
    method ListaItens() returns (itens: seq<ListItem>)
      ensures hinoCompleto.None? ==> itens == []
      ensures hinoCompleto.Some? && !ChorusMode(hinoCompleto.value, repetirCoro) ==>
        Contents(itens) == Split(hinoCompleto.value.letra, '\n')
        && JoinWith(Contents(itens), "\n") == hinoCompleto.value.letra
        && forall i :: 0 <= i < |itens| ==> itens[i].TextItem? && itens[i].index == i
      ensures hinoCompleto.Some? && ChorusMode(hinoCompleto.value, repetirCoro) ==>
        var normais := NonChorus(hinoCompleto.value.verses.value);
        |itens| == (if normais == [] then 0 else 2 * |normais| - 1)
        && (forall i :: 0 <= i < |normais| ==> itens[2 * i] == VersoItem(normais[i].lyrics, normais[i].sequence, i))
        && (forall i :: 0 <= i < |normais| - 1 ==> itens[2 * i + 1] == CoroItem(hinoCompleto.value.coro.value, i))
        && (itens != [] ==> itens[|itens| - 1].VersoItem?)
    {
      if hinoCompleto.None? {
        return [];
      }
      var h := hinoCompleto.value;
      if !ChorusMode(h, repetirCoro) {
        itens := LineItems(h.letra);
        LineItemsRebuildLetra(h.letra, itens);
        assert Contents(itens) == Split(h.letra, '\n');
      } else {
        itens := InterleaveChorus(NonChorus(h.verses.value), h.coro.value);
      }
    }

    method AumentarFonte()
      modifies this
      ensures tamanhoFonte == Increased(old(tamanhoFonte))
      ensures hinoCompleto == old(hinoCompleto) && repetirCoro == old(repetirCoro)
    {
      tamanhoFonte := Increased(tamanhoFonte);
    }

    method DiminuirFonte()
      modifies this
      ensures tamanhoFonte == Decreased(old(tamanhoFonte))
      ensures hinoCompleto == old(hinoCompleto) && repetirCoro == old(repetirCoro)
    {
      tamanhoFonte := Decreased(tamanhoFonte);
    }
  }
}
