/**
 * The administrator's operations view (src/screens/admin/Operacional.js):
 * the initials on each user or clinic card, the committed search, the switch
 * between users and clinics, and when the pager is shown.
 */
module Operacional {
  import opened Seqs
  import opened Text
  import opened ResumoUsuario

  /** `words.map(n => n[0]).join('')`: the first character of every non-empty word. */
  function FirstChars(words: seq<string>): string {
    if |words| == 0 then ""
    else (if |words[0]| > 0 then [words[0][0]] else "") + FirstChars(words[1..])
  }

  /**
   * The characters that begin a word: not a space, and either first (when
   * `atStart`) or right after a space. Reading left to right, with no split.
   */
  function WordStarts(s: string, atStart: bool): (r: string)
    ensures |r| <= |s|
  {
    if |s| == 0 then ""
    else if s[0] == ' ' then WordStarts(s[1..], true)
    else (if atStart then [s[0]] else "") + WordStarts(s[1..], false)
  }

  /**
   * Splitting on spaces and taking each word's first character gives the word
   * starts; the words after the first give the starts after the first word.
   */
  lemma {:induction false} FirstCharsAreWordStarts(s: string)
    ensures FirstChars(Split(s, ' ')) == WordStarts(s, true)
    ensures FirstChars(Split(s, ' ')[1..]) == WordStarts(s, false)
    decreases |s|
  {
    if |s| > 0 {
      FirstCharsAreWordStarts(s[1..]);
      var rest := Split(s[1..], ' ');
      if s[0] == ' ' {
        assert Split(s, ' ') == [""] + rest;
        assert ([""] + rest)[1..] == rest;
      } else {
        var ws := Split(s, ' ');
        assert ws == [[s[0]] + rest[0]] + rest[1..];
        assert ws[1..] == rest[1..];
        assert FirstChars(ws) == [s[0]] + FirstChars(ws[1..]);
      }
    }
  }

  /** A text has no word start exactly when it is all spaces. */
  lemma {:induction false} NoWordStartIffSpaces(s: string, atStart: bool)
    ensures atStart ==> (WordStarts(s, atStart) == "" <==> forall i :: 0 <= i < |s| ==> s[i] == ' ')
    decreases |s|
  {
    if |s| > 0 {
      NoWordStartIffSpaces(s[1..], true);
      if s[0] == ' ' {
        assert forall i :: 1 <= i < |s| ==> s[i] == s[1..][i - 1];
      }
    }
  }

  /**
   * The initials on a card: the first two word starts of the name, upper-cased,
   * or the fallback letter when the name is missing or has no word.
   */
  function Iniciais(nome: Option<string>, padrao: char): (r: string)
    ensures 1 <= |r| <= 2
    ensures nome.None? ==> r == [padrao]
  {
    if nome.None? then [padrao]
    else
      var t := ToUpper(Take(FirstChars(Split(nome.value, ' ')), 2));
      if t == "" then [padrao] else t
  }

  /** The initials are the name's first two word starts, upper-cased; all spaces gives the fallback. */
  lemma IniciaisSaoInicios(nome: string, padrao: char)
    ensures var ws := WordStarts(nome, true);
      Iniciais(Some(nome), padrao) == if ws == "" then [padrao] else ToUpper(Take(ws, 2))
    ensures WordStarts(nome, true) == "" <==> forall i :: 0 <= i < |nome| ==> nome[i] == ' '
  {
    FirstCharsAreWordStarts(nome);
    NoWordStartIffSpaces(nome, true);
  }

  /** The user card falls back to `U`, the clinic card to `C`. */
  function IniciaisUsuario(u: Usuario): (r: string)
    ensures 1 <= |r| <= 2 && (u.nome.None? ==> r == "U")
  {
    Iniciais(u.nome, 'U')
  }

  function IniciaisClinica(nome: Option<string>): (r: string)
    ensures 1 <= |r| <= 2 && (nome.None? ==> r == "C")
  {
    Iniciais(nome, 'C')
  }

  /** The view's state: what is listed, page, committed search, text typed, pages available. */
  datatype Tela = Tela(modo: string, page: int, search: string, searchInput: string, totalPaginas: int)

  /** `handleSearch`: the text typed becomes the search, from the first page. */
  function HandleSearch(t: Tela): (r: Tela)
    ensures r.search == t.searchInput && r.page == 1
    ensures r.modo == t.modo && r.searchInput == t.searchInput && r.totalPaginas == t.totalPaginas
  {
    t.(search := t.searchInput, page := 1)
  }

  /** Committing the same search twice is the same as once. */
  lemma HandleSearchIdempotent(t: Tela)
    ensures HandleSearch(HandleSearch(t)) == HandleSearch(t)
  {
  }

  /** `handleModoChange`: no selection changes nothing; a mode starts afresh on page 1 with no search. */
  function HandleModoChange(t: Tela, novo: Option<string>): (r: Tela)
    ensures novo.None? ==> r == t
    ensures novo.Some? ==> r.modo == novo.value && r.page == 1 && r.search == "" && r.searchInput == ""
    ensures r.totalPaginas == t.totalPaginas
  {
    match novo
    case None => t
    case Some(m) => t.(modo := m, page := 1, search := "", searchInput := "")
  }

  /** After a mode change, committing the search finds everything. */
  lemma ModeChangeClearsSearch(t: Tela, m: string)
    ensures HandleSearch(HandleModoChange(t, Some(m))).search == ""
  {
  }

  /** The pager is shown only when there is more than one page. */
  predicate MostraPaginacao(totalPaginas: int) {
    totalPaginas > 1
  }

  /** Whenever the pager is shown, the page a search or a mode change lands on is one it offers. */
  lemma ResetPageInPager(t: Tela, novo: string)
    requires MostraPaginacao(t.totalPaginas)
    ensures 1 <= HandleSearch(t).page <= t.totalPaginas
    ensures 1 <= HandleModoChange(t, Some(novo)).page <= HandleModoChange(t, Some(novo)).totalPaginas
  {
  }
}
