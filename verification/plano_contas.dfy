/**
 * The expense chart of accounts with its deductibility assistant
 * (src/screens/usuario/PlanoContas.js): the record built for a nature, the
 * add, edit and cancel actions, and the guard before asking the assistant.
 * The natures and their two tabs are those of `PlanoDeContas`.
 */
module PlanoContas {
  import opened Seqs
  import opened Text
  import opened Numbers
  import PlanoDeContas

  /** The record sent to the chart service for a nature. */
  datatype Dados = Dados(codigo: string, nome: string, tipo: string, dedutivel: bool, categoria: string, ativo: bool)

  /**
   * The record for the name and switch typed, at time `agora` (milliseconds):
   * the time as its code, the name trimmed, always an active expense nature,
   * labelled by its deductibility.
   */
  function Montar(nome: string, dedutivel: bool, agora: nat): (r: Dados)
    ensures r.codigo == NatToString(agora) && AllDigits(r.codigo) && DigitsValue(r.codigo) == agora
    ensures r.nome == Trim(nome) && (IsBlank(nome) <==> r.nome == "")
    ensures r.tipo == "despesa" && r.ativo && r.dedutivel == dedutivel
    ensures r.categoria == (if dedutivel then "Dedutível" else "Não Dedutível")
  {
    TrimEmptyIffBlank(nome);
    Dados(NatToString(agora), Trim(nome), "despesa", dedutivel, if dedutivel then "Dedutível" else "Não Dedutível", true)
  }

  /** A request to the chart service. */
  datatype Pedido = Criar(dados: Dados) | Atualizar(id: int, dados: Dados)

  /** The form's state: name, switch, nature being edited, tab and error. */
  datatype Estado = Estado(nome: string, dedutivel: bool, editando: Option<PlanoDeContas.Conta>, tab: int, error: string)

  datatype Passo = Passo(estado: Estado, pedido: Option<Pedido>)

  const MsgNome: string := "Digite o nome da natureza"
  const MsgRecarga: string := "Erro ao carregar contas"

  /** The message shown when saving fails with the given error message. */
  function MsgFalha(mensagem: string): (r: string)
    ensures mensagem != "" ==> r == "Erro ao salvar: " + mensagem
    ensures mensagem == "" ==> r == "Erro ao salvar: Desconhecido"
  {
    "Erro ao salvar: " + (if mensagem != "" then mensagem else "Desconhecido")
  }

  /**
   * `handleAdicionar`, with the service's failure message (`None` when it
   * accepts) and whether the list reload that follows a save succeeds. A
   * blank name is refused. A failed save changes only the error. A successful
   * one resets the form; the error is then cleared by the reload, or replaced
   * by the reload's own error, and is not touched by the save itself.
   */
  function Adicionar(e: Estado, agora: nat, falha: Option<string>, recargaOk: bool): (r: Passo)
    ensures IsBlank(e.nome) ==> r == Passo(e.(error := MsgNome), None)
    ensures !IsBlank(e.nome) ==> r.pedido.Some? && r.pedido.value.dados == Montar(e.nome, e.dedutivel, agora)
    ensures !IsBlank(e.nome) ==> (r.pedido.value.Atualizar? <==> e.editando.Some?)
    ensures !IsBlank(e.nome) && e.editando.Some? ==> r.pedido.value.id == e.editando.value.id
    ensures !IsBlank(e.nome) && falha.Some? ==> r.estado == e.(error := MsgFalha(falha.value))
    ensures !IsBlank(e.nome) && falha.None? ==>
      r.estado == Estado("", true, None, e.tab, if recargaOk then "" else MsgRecarga)
  {
    TrimEmptyIffBlank(e.nome);
    if Trim(e.nome) == "" then Passo(e.(error := MsgNome), None)
    else
      var dados := Montar(e.nome, e.dedutivel, agora);
      var pedido := if e.editando.Some? then Atualizar(e.editando.value.id, dados) else Criar(dados);
      match falha
      case Some(m) => Passo(e.(error := MsgFalha(m)), Some(pedido))
      case None => Passo(Estado("", true, None, e.tab, if recargaOk then "" else MsgRecarga), Some(pedido))
  }

  /** `handleEditar`: the form takes the nature's name and switch, and the tab that lists it. */
  function Editar(e: Estado, c: PlanoDeContas.Conta): (r: Estado)
    ensures r.editando == Some(c) && r.nome == c.nome && r.dedutivel == c.dedutivel
    ensures c.dedutivel <==> r.tab == 0
    ensures r.error == e.error
  {
    Estado(c.nome, c.dedutivel, Some(c), if c.dedutivel then 0 else 1, e.error)
  }

  /** `handleCancelarEdicao`: back to an empty deductible nature, and the error is cleared. */
  function Cancelar(e: Estado): (r: Estado)
    ensures r == Estado("", true, None, e.tab, "")
  {
    e.(editando := None, nome := "", dedutivel := true, error := "")
  }

  /** Editing a nature switches to the tab that lists it. */
  lemma EditarMostraConta(cs: seq<PlanoDeContas.Conta>, e: Estado, c: PlanoDeContas.Conta)
    requires c in cs
    ensures c in PlanoDeContas.Exibidas(cs, Editar(e, c).tab)
  {
  }

  /** Saving an edited nature unchanged updates it with its own trimmed name and its label. */
  lemma EditarThenSalvar(e: Estado, c: PlanoDeContas.Conta, agora: nat, falha: Option<string>, ok: bool)
    requires !IsBlank(c.nome)
    ensures var p := Adicionar(Editar(e, c), agora, falha, ok).pedido;
      p.Some? && p.value.Atualizar? && p.value.id == c.id && p.value.dados.nome == Trim(c.nome)
      && (p.value.dados.categoria == "Dedutível" <==> c.dedutivel)
  {
  }

  /** The assistant is asked only about a question that is not blank. */
  datatype Consulta = Recusada(alerta: string) | Perguntar(pergunta: string)

  const MsgPergunta: string := "Digite sua dúvida antes de consultar."

  /** `handleConsultarIA`: a blank question raises an alert; any other is sent as typed. */
  function ConsultarIA(pergunta: string): (r: Consulta)
    ensures r.Recusada? <==> IsBlank(pergunta)
    ensures r.Recusada? ==> r.alerta == MsgPergunta
    ensures r.Perguntar? ==> r.pergunta == pergunta
  {
    TrimEmptyIffBlank(pergunta);
    if Trim(pergunta) == "" then Recusada(MsgPergunta) else Perguntar(pergunta)
  }
}
