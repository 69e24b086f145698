/**
 * The chart of accounts as natures split into deductible and non-deductible
 * (src/screens/usuario/PlanoDeContas.js): the two tabs, and the add, edit
 * and cancel actions of its inline form.
 */
module PlanoDeContas {
  import opened Seqs
  import opened Text
  import opened Numbers

  /** A nature of the chart. */
  datatype Conta = Conta(id: int, nome: string, dedutivel: bool)

  predicate IsDedutivel(c: Conta) {
    c.dedutivel
  }

  predicate NaoDedutivel(c: Conta) {
    !c.dedutivel
  }

  /** The natures listed on a tab: deductible ones on the first, the others anywhere else. */
  function Exibidas(cs: seq<Conta>, tab: int): (r: seq<Conta>)
    ensures forall c :: c in r <==> c in cs && (c.dedutivel <==> tab == 0)
    ensures IsSubsequence(r, cs)
  {
    FilterIsSubsequence(cs, IsDedutivel);
    FilterIsSubsequence(cs, NaoDedutivel);
    if tab == 0 then Filter(cs, IsDedutivel) else Filter(cs, NaoDedutivel)
  }

  /** Every nature is on exactly one of the two tabs, and their counts add up to the whole. */
  lemma TabsPartition(cs: seq<Conta>)
    ensures forall c :: c in cs ==> (c in Exibidas(cs, 0) <==> c !in Exibidas(cs, 1))
    ensures |Exibidas(cs, 0)| + |Exibidas(cs, 1)| == |cs|
  {
    PartitionCounts(cs, IsDedutivel, NaoDedutivel);
  }

  /** The form's state: the name typed, the deductible switch, the nature being edited, the tab, the error. */
  datatype Estado = Estado(nome: string, dedutivel: bool, editando: Option<Conta>, tab: int, error: string)

  /** A request to the chart service. */
  datatype Pedido = Criar(nome: string, dedutivel: bool) | Atualizar(id: int, nome: string, dedutivel: bool)

  /** The state after an action and the request it made, if any. */
  datatype Passo = Passo(estado: Estado, pedido: Option<Pedido>)

  const MsgNome: string := "Digite o nome da natureza"
  const MsgFalha: string := "Erro ao salvar natureza"

  /** The server's answer to a rejected request: its status and its body as JSON. */
  datatype Resposta = Resposta(status: nat, dadosJson: string)

  /** Why the list request was rejected: the server's answer, if any, and the error's message. */
  datatype FalhaRecarga = FalhaRecarga(resposta: Option<Resposta>, mensagem: string)

  const MsgCarregar: string := "Erro ao carregar plano de contas"

  /**
   * The error `carregarContas` shows when the list request is rejected: the
   * fixed message, then the server's status and body when it answered, or
   * else the error's own message when it has one.
   */
  function MsgRecarga(f: FalhaRecarga): (r: string)
    ensures |r| >= |MsgCarregar| && r[..|MsgCarregar|] == MsgCarregar
    ensures r == MsgCarregar <==> f.resposta.None? && f.mensagem == ""
    ensures f.resposta.None? && f.mensagem != "" ==>
      |r| >= |f.mensagem| && r[|r| - |f.mensagem|..] == f.mensagem
  {
    match f.resposta
    case Some(res) =>
      MsgCarregar + "\nStatus: " + NatToString(res.status) + "\nData: " + res.dadosJson
    case None =>
      if f.mensagem != "" then MsgCarregar + "\nMessage: " + f.mensagem else MsgCarregar
  }

  /** The form as the screen opens: empty name, deductible, nothing edited, first tab. */
  const Inicial: Estado := Estado("", true, None, 0, "")

  /**
   * `handleAdicionar`: a blank name is refused; otherwise the name as typed
   * and the switch go to an update of the nature being edited or to a new
   * one. When the service fails, only the error changes. When it accepts,
   * the form is reset and the list reloaded; the reload is not awaited, so
   * its outcome comes after the form's own clearing of the error, and a
   * rejected reload (`falhaRecarga`) leaves its message as the error.
   */
  function Adicionar(e: Estado, servicoOk: bool, falhaRecarga: Option<FalhaRecarga>): (r: Passo)
    ensures IsBlank(e.nome) ==> r == Passo(e.(error := MsgNome), None)
    ensures !IsBlank(e.nome) ==> r.pedido.Some? && r.pedido.value.nome == e.nome && r.pedido.value.dedutivel == e.dedutivel
    ensures !IsBlank(e.nome) ==> (r.pedido.value.Atualizar? <==> e.editando.Some?)
    ensures !IsBlank(e.nome) && e.editando.Some? ==> r.pedido.value.id == e.editando.value.id
    ensures !IsBlank(e.nome) && servicoOk ==> r.estado.(error := "") == Inicial.(tab := e.tab)
    ensures !IsBlank(e.nome) && servicoOk ==> (r.estado.error == "" <==> falhaRecarga.None?)
    ensures !IsBlank(e.nome) && servicoOk && falhaRecarga.Some? ==>
      r.estado.error == MsgRecarga(falhaRecarga.value) && r.estado.error[..|MsgCarregar|] == MsgCarregar
    ensures !IsBlank(e.nome) && !servicoOk ==> r.estado == e.(error := MsgFalha)
  {
    TrimEmptyIffBlank(e.nome);
    if Trim(e.nome) == "" then Passo(e.(error := MsgNome), None)
    else
      var pedido := if e.editando.Some? then Atualizar(e.editando.value.id, e.nome, e.dedutivel) else Criar(e.nome, e.dedutivel);
      if servicoOk then
        var erro := match falhaRecarga case Some(f) => MsgRecarga(f) case None => "";
        Passo(Estado("", true, None, e.tab, erro), Some(pedido))
      else Passo(e.(error := MsgFalha), Some(pedido))
  }

  /** `handleEditar`: the form takes the nature's name and switch, and the tab that lists it. */
  function Editar(e: Estado, c: Conta): (r: Estado)
    ensures r.editando == Some(c) && r.nome == c.nome && r.dedutivel == c.dedutivel
    ensures r.error == e.error
  {
    Estado(c.nome, c.dedutivel, Some(c), if c.dedutivel then 0 else 1, e.error)
  }

  /** `handleCancelarEdicao`: back to an empty, deductible, new nature; the tab and error stay. */
  function Cancelar(e: Estado): (r: Estado)
    ensures r == Inicial.(tab := e.tab, error := e.error)
  {
    e.(editando := None, nome := "", dedutivel := true)
  }

  /** Editing a nature switches to the tab that lists it. */
  lemma EditarMostraConta(cs: seq<Conta>, e: Estado, c: Conta)
    requires c in cs
    ensures c in Exibidas(cs, Editar(e, c).tab)
  {
  }

  /** Saving an edited nature unchanged updates it with its own name and switch. */
  lemma EditarThenSalvar(e: Estado, c: Conta, ok: bool, falhaRecarga: Option<FalhaRecarga>)
    requires !IsBlank(c.nome)
    ensures Adicionar(Editar(e, c), ok, falhaRecarga).pedido == Some(Atualizar(c.id, c.nome, c.dedutivel))
  {
  }

  /** After a cancelled edit, a save creates a new nature instead of updating. */
  lemma CancelarThenSalvar(e: Estado, nome: string, ok: bool, falhaRecarga: Option<FalhaRecarga>)
    requires !IsBlank(nome)
    ensures var p := Adicionar(Cancelar(e).(nome := nome), ok, falhaRecarga).pedido; p == Some(Criar(nome, true))
  {
  }
}
