/**
 * The catalogue of procedures (src/screens/usuario/Procedimentos.js): the
 * search, the form for a new or an edited procedure, and the default value
 * read back from its text on save.
 */
module Procedimentos {
  import opened Seqs
  import opened Text
  import opened Numbers
  import opened DecimalText
  import opened ReadBack
  import opened Amounts

  /** A stored procedure; absent fields are `None`, the default value is in cents. */
  datatype Procedimento = Procedimento(
    id: int, codigo: Option<string>, nome: Option<string>, descricao: Option<string>,
    valorPadrao: Option<int>, categoria: Option<string>, observacoes: Option<string>, ativo: bool)

  /** A text field present and containing the term, ignoring case. */
  predicate CampoContem(campo: Option<string>, termo: string) {
    campo.Some? && Contains(ToLower(campo.value), ToLower(termo))
  }

  /** A procedure matches when its name, or its non-empty code or category, contains the term. */
  predicate Corresponde(p: Procedimento, pesquisa: string) {
    CampoContem(p.nome, pesquisa)
    || (p.codigo.Some? && p.codigo.value != "" && CampoContem(p.codigo, pesquisa))
    || (p.categoria.Some? && p.categoria.value != "" && CampoContem(p.categoria, pesquisa))
  }

  /** `procedimentosFiltrados`: the matching procedures, in list order. */
  function Filtrados(ps: seq<Procedimento>, pesquisa: string): (r: seq<Procedimento>)
    ensures forall p :: p in r <==> p in ps && Corresponde(p, pesquisa)
    ensures IsSubsequence(r, ps)
  {
    FilterIsSubsequence(ps, p => Corresponde(p, pesquisa));
    Filter(ps, p => Corresponde(p, pesquisa))
  }

  /** The search does not depend on the case the term is typed in. */
  lemma SearchIgnoresCase(p: Procedimento, pesquisa: string)
    ensures Corresponde(p, ToUpper(pesquisa)) == Corresponde(p, pesquisa)
  {
    LowerUpper(pesquisa);
  }

  /**
   * An empty search lists every procedure that has a name, a non-empty code
   * or a non-empty category, and hides the ones with none of them.
   */
  lemma EmptySearch(p: Procedimento)
    ensures Corresponde(p, "") <==>
      p.nome.Some? || (p.codigo.Some? && p.codigo.value != "") || (p.categoria.Some? && p.categoria.value != "")
  {
    ContainsEmpty(ToLower(""));
    if p.nome.Some? {
      ContainsEmpty(ToLower(p.nome.value));
    }
    if p.codigo.Some? {
      ContainsEmpty(ToLower(p.codigo.value));
    }
    if p.categoria.Some? {
      ContainsEmpty(ToLower(p.categoria.value));
    }
  }

  /** The procedure form: the stored fields spread in, with the default value as text. */
  datatype Formulario = Formulario(
    id: Option<int>, codigo: Option<string>, nome: Option<string>, descricao: Option<string>,
    valorPadrao: string, categoria: Option<string>, observacoes: Option<string>, ativo: bool)

  /** The form for a new procedure: every text empty, active. */
  function NovoFormulario(): (r: Formulario)
    ensures r.ativo && r.valorPadrao == "" && r.nome == Some("") && r.id.None?
    ensures r.codigo == Some("") && r.descricao == Some("") && r.categoria == Some("") && r.observacoes == Some("")
  {
    Formulario(None, Some(""), Some(""), Some(""), "", Some(""), Some(""), true)
  }

  /** The save button is disabled while the form has no name. */
  predicate SalvarDesabilitado(f: Formulario) {
    f.nome.None? || f.nome.value == ""
  }

  lemma NewFormCannotSave()
    ensures SalvarDesabilitado(NovoFormulario())
  {
  }

  /** The record sent: the form with the default value read as a number, or null. */
  datatype Dados = Dados(
    id: Option<int>, codigo: Option<string>, nome: Option<string>, descricao: Option<string>,
    valorPadrao: Option<real>, categoria: Option<string>, observacoes: Option<string>, ativo: bool)

  datatype Outcome = Falhou(message: string) | Salvar(dados: Dados)

  const MsgValor: string := "Erro ao salvar procedimento: Valor Padrão inválido."

  /**
   * `handleSubmit`: an empty default value is sent as null; any other text is
   * read with its first comma as the decimal point, and refused when that
   * does not give a number. Every other field goes as it is in the form.
   */
  function Submit(f: Formulario): (r: Outcome)
    ensures f.valorPadrao == "" ==> r.Salvar? && r.dados.valorPadrao.None?
    ensures f.valorPadrao != "" ==>
      (r.Falhou? <==> ParseFloat(ReplaceFirstChar(f.valorPadrao, ',', '.')).None?)
    ensures r.Falhou? ==> r.message == MsgValor
    ensures r.Salvar? && f.valorPadrao != "" ==> r.dados.valorPadrao == ParseFloat(ReplaceFirstChar(f.valorPadrao, ',', '.'))
    ensures r.Salvar? ==> r.dados.nome == f.nome && r.dados.codigo == f.codigo && r.dados.categoria == f.categoria
                          && r.dados.id == f.id && r.dados.ativo == f.ativo
    ensures r.Salvar? ==> r.dados.descricao == f.descricao && r.dados.observacoes == f.observacoes
  {
    var dados := Dados(f.id, f.codigo, f.nome, f.descricao, None, f.categoria, f.observacoes, f.ativo);
    if f.valorPadrao == "" then Salvar(dados)
    else
      match ParseFloat(ReplaceFirstChar(f.valorPadrao, ',', '.'))
      case None => Falhou(MsgValor)
      case Some(v) => Salvar(dados.(valorPadrao := Some(v)))
  }

  /** The edit form as written: the default value shown only when it is truthy. */
  function FormularioEdicao(p: Procedimento): (r: Formulario)
    ensures r.valorPadrao == AmountText(p.valorPadrao)
    ensures r.nome == p.nome && r.codigo == p.codigo && r.id == Some(p.id) && r.ativo == p.ativo
  {
    Formulario(Some(p.id), p.codigo, p.nome, p.descricao, AmountText(p.valorPadrao), p.categoria, p.observacoes, p.ativo)
  }

  /** The text of an amount never has a comma, so the save reads it unchanged. */
  lemma NoCommaInNumberText(c: int)
    ensures ',' !in NumberText(c)
  {
    var m := if c < 0 then -c else c;
    var q := m / 100;
    assert AllDigits(NatToString(q));
    assert ',' !in NatToString(q);
  }

  /**
   * As written: opening a procedure whose default value is zero and saving it
   * unchanged erases the value, because a zero is shown as an empty field.
   */
  lemma EditZeroClearsValue(p: Procedimento)
    requires p.valorPadrao == Some(0)
    ensures var r := Submit(FormularioEdicao(p)); r.Salvar? && r.dados.valorPadrao.None?
  {
  }

  /** The corrected edit form: any stored default value, zero included, is shown. */
  function FormularioEdicaoCorrigido(p: Procedimento): (r: Formulario)
    ensures p.valorPadrao.None? <==> r.valorPadrao == ""
    ensures p.valorPadrao.Some? ==> r.valorPadrao == NumberText(p.valorPadrao.value)
    ensures r.nome == p.nome && r.codigo == p.codigo && r.id == Some(p.id) && r.ativo == p.ativo
  {
    var texto := if p.valorPadrao.Some? then NumberText(p.valorPadrao.value) else "";
    assert p.valorPadrao.Some? ==> |NumberText(p.valorPadrao.value)| > 0 by {
      if p.valorPadrao.Some? {
        ParseNumberText(p.valorPadrao.value);
        ParseFloatEmpty();
      }
    }
    FormularioEdicao(p).(valorPadrao := texto)
  }

  /** A form showing the text of `c` cents saves `c` cents. */
  lemma SaveNumberText(f: Formulario, c: int, v: real)
    requires f.valorPadrao == NumberText(c) && v == c as real / 100.0
    ensures Submit(f).Salvar? && Submit(f).dados.valorPadrao == Some(v)
  {
    assert ParseFloat(f.valorPadrao) == Some(v) by {
      ParseNumberText(c);
    }
    assert f.valorPadrao != "" by {
      ParseFloatEmpty();
    }
    var lido := ReplaceFirstChar(f.valorPadrao, ',', '.');
    assert lido == f.valorPadrao by {
      NoCommaInNumberText(c);
    }
    assert ParseFloat(lido) == Some(v);
    var dados := Dados(f.id, f.codigo, f.nome, f.descricao, None, f.categoria, f.observacoes, f.ativo);
    assert Submit(f) == Salvar(dados.(valorPadrao := Some(v)));
  }

  /** With the corrected form, saving an edited procedure unchanged keeps its default value. */
  lemma EditUnchangedKeepsValue(p: Procedimento)
    ensures var r := Submit(FormularioEdicaoCorrigido(p));
      r.Salvar? && r.dados.valorPadrao == (if p.valorPadrao.Some? then Some(AmountOf(p.valorPadrao)) else None)
  {
    if p.valorPadrao.Some? {
      SaveNumberText(FormularioEdicaoCorrigido(p), p.valorPadrao.value, AmountOf(p.valorPadrao));
    }
  }
}
