/**
 * The per-user summary the administrator screens list
 * (src/screens/admin/DashboardAdmin.js, Operacional.js and
 * UsuariosAdmin.old.js): the balance shown with its colour, the number of
 * entries, the person-type label and the date of the last entry.
 */
module ResumoUsuario {
  import opened Seqs

  /**
   * A user as the administration service lists it. A figure is `None` when
   * the service leaves it out.
   */
  datatype Usuario = Usuario(
    nome: Option<string>, tipoPessoa: string, ativo: bool,
    totalFaturamentos: Option<int>, totalDespesas: Option<int>,
    valorTotalFaturamento: Option<real>, valorTotalDespesas: Option<real>,
    ultimoFaturamento: Option<string>, ultimaDespesa: Option<string>)

  /** `x || 0` for a figure. */
  function OrZero(x: Option<real>): real {
    x.GetOr(0.0)
  }

  /** The balance shown for a user: revenue less expenses, a missing figure counting as zero. */
  function Saldo(u: Usuario): (r: real)
    ensures u.valorTotalFaturamento.None? && u.valorTotalDespesas.None? ==> r == 0.0
    ensures u.valorTotalDespesas.None? ==> r == OrZero(u.valorTotalFaturamento)
    ensures u.valorTotalFaturamento.None? ==> r == -OrZero(u.valorTotalDespesas)
    ensures u.valorTotalFaturamento.Some? && u.valorTotalDespesas.Some? ==>
              r == u.valorTotalFaturamento.value - u.valorTotalDespesas.value
  {
    OrZero(u.valorTotalFaturamento) - OrZero(u.valorTotalDespesas)
  }

  /** The balance is non-negative exactly when revenue covers expenses. */
  lemma SaldoSign(u: Usuario)
    ensures Saldo(u) >= 0.0 <==> OrZero(u.valorTotalFaturamento) >= OrZero(u.valorTotalDespesas)
  {
  }

  /** The number of entries shown for a user: revenue entries plus expense entries, missing counts as zero. */
  function TotalLancamentos(u: Usuario): (r: int)
    ensures (u.totalFaturamentos.None? || u.totalFaturamentos.value >= 0) &&
            (u.totalDespesas.None? || u.totalDespesas.value >= 0) ==>
            r >= 0 && r >= u.totalFaturamentos.GetOr(0) && r >= u.totalDespesas.GetOr(0)
    ensures u.totalFaturamentos.None? && u.totalDespesas.None? ==> r == 0
    ensures u.totalFaturamentos.None? ==> r == u.totalDespesas.GetOr(0)
    ensures u.totalDespesas.None? ==> r == u.totalFaturamentos.GetOr(0)
    ensures u.totalFaturamentos.Some? && u.totalDespesas.Some? ==>
              r == u.totalFaturamentos.value + u.totalDespesas.value
  {
    u.totalFaturamentos.GetOr(0) + u.totalDespesas.GetOr(0)
  }

  const Verde: string := "#00B389"
  const Vermelho: string := "#FF4873"

  /** The balance's colour: green from zero up, red below. */
  function CorSaldo(u: Usuario): (r: string)
    ensures r == Verde <==> Saldo(u) >= 0.0
    ensures r == Verde || r == Vermelho
  {
    if Saldo(u) >= 0.0 then Verde else Vermelho
  }

  /** The label of a person type: PF and PJ by name, anything else hybrid. */
  function TipoLabel(tipo: string): (r: string)
    ensures r == "Pessoa Física" <==> tipo == "PF"
    ensures r == "Pessoa Jurídica" <==> tipo == "PJ"
    ensures r == "Pessoa Física" || r == "Pessoa Jurídica" || r == "Híbrido"
  {
    if tipo == "PF" then "Pessoa Física" else if tipo == "PJ" then "Pessoa Jurídica" else "Híbrido"
  }

  /** The text shown when a user has no entry at all. */
  const SemRegistro: string := "Sem registro"

  /**
   * The date of the last entry: the last revenue when there is one, else the
   * last expense, else none (shown as `SemRegistro`).
   */
  function UltimoLancamento(u: Usuario): (r: Option<string>)
    ensures r.Some? ==> r.value != "" && (r == u.ultimoFaturamento || r == u.ultimaDespesa)
    ensures u.ultimoFaturamento.Some? && u.ultimoFaturamento.value != "" ==> r == u.ultimoFaturamento
    ensures r.None? <==> (u.ultimoFaturamento.None? || u.ultimoFaturamento.value == "") &&
                         (u.ultimaDespesa.None? || u.ultimaDespesa.value == "")
  {
    if u.ultimoFaturamento.Some? && u.ultimoFaturamento.value != "" then u.ultimoFaturamento
    else if u.ultimaDespesa.Some? && u.ultimaDespesa.value != "" then u.ultimaDespesa
    else None
  }
}
