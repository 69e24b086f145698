/**
 * The administrator's dashboard (src/screens/admin/DashboardAdmin.js): the
 * distribution of users by person type as a pie chart, the user table's
 * balance colour, and the table's sort and search filters.
 */
module DashboardAdmin {
  import opened Seqs
  import opened Numbers
  import opened Shares
  import opened ResumoUsuario

  /** The number of users of one person type. */
  datatype Distribuicao = Distribuicao(tipo: string, total: real)

  /** One slice of the pie: label, value and percentage. */
  datatype Fatia = Fatia(name: string, value: real, percent: real)

  /** The user counts of the distribution, in order. */
  function Totais(ds: seq<Distribuicao>): seq<real>
  {
    Map(ds, (d: Distribuicao) => d.total)
  }

  /** The percentages of the slices, in order. */
  function Percents(fs: seq<Fatia>): seq<real>
  {
    Map(fs, (f: Fatia) => f.percent)
  }

  /**
   * One slice of `dadosGraficoPizza` for an entry and the total `t`: the
   * entry's share of `t` rounded to one decimal, or zero when `t` is not positive.
   */
  function FatiaDe(d: Distribuicao, t: real): (f: Fatia)
    ensures f.name == TipoLabel(d.tipo) && f.value == d.total
    ensures t <= 0.0 ==> f.percent == 0.0
    ensures t > 0.0 ==> f.percent == RoundOneDecimal(d.total / t * 100.0) && IsOneDecimal(f.percent)
    ensures t > 0.0 ==> d.total / t * 100.0 - 0.05 <= f.percent <= d.total / t * 100.0 + 0.05
  {
    Fatia(TipoLabel(d.tipo), d.total, if t > 0.0 then RoundOneDecimal(d.total / t * 100.0) else 0.0)
  }

  /**
   * `dadosGraficoPizza`: one slice per entry, in order, labelled by person
   * type, with the entry's share of the total rounded to one decimal, or zero
   * when the total is not positive.
   */
  function DadosGraficoPizza(ds: seq<Distribuicao>): (r: seq<Fatia>)
    ensures |r| == |ds|
    ensures forall i :: 0 <= i < |ds| ==> r[i].name == TipoLabel(ds[i].tipo) && r[i].value == ds[i].total
    ensures Total(Totais(ds)) <= 0.0 ==> forall i :: 0 <= i < |r| ==> r[i].percent == 0.0
    ensures Total(Totais(ds)) > 0.0 ==> forall i :: 0 <= i < |r| ==>
      r[i].percent == RoundOneDecimal(PercentShares(Totais(ds), Total(Totais(ds)))[i])
    ensures Total(Totais(ds)) > 0.0 ==> forall i :: 0 <= i < |r| ==>
      PercentShares(Totais(ds), Total(Totais(ds)))[i] - 0.05 <= r[i].percent <=
      PercentShares(Totais(ds), Total(Totais(ds)))[i] + 0.05
  {
    var t := Total(Totais(ds));
    seq(|ds|, i requires 0 <= i < |ds| => FatiaDe(ds[i], t))
  }

  /** The slices' percentages add up to 100, give or take 0.05 per slice. */
  lemma PiePercentsSum(ds: seq<Distribuicao>)
    requires Total(Totais(ds)) > 0.0
    ensures var n := |ds| as real;
      100.0 - 0.05 * n <= Total(Percents(DadosGraficoPizza(ds))) <= 100.0 + 0.05 * n
  {
    var xs := Totais(ds);
    SharesMakeHundred(xs);
    TotalsClose(Percents(DadosGraficoPizza(ds)), PercentShares(xs, Total(xs)), 0.05);
  }

  /**
   * The balance colour as written: computed from the raw difference, which
   * is NaN (and so red) whenever one of the two figures is missing.
   */
  function CorSaldoComoEscrito(u: Usuario): (r: string)
    ensures r == Verde <==> u.valorTotalFaturamento.Some? && u.valorTotalDespesas.Some? &&
                            u.valorTotalFaturamento.value - u.valorTotalDespesas.value >= 0.0
  {
    match (u.valorTotalFaturamento, u.valorTotalDespesas)
    case (Some(f), Some(d)) => if f - d >= 0.0 then Verde else Vermelho
    case _ => Vermelho
  }

  /** A user with revenue and no expense figure shows a positive balance in red. */
  lemma ColourDisagreesWithBalance()
    ensures var u := Usuario(None, "PF", true, None, None, Some(100.0), None, None, None);
      Saldo(u) == 100.0 && CorSaldoComoEscrito(u) == Vermelho && CorSaldo(u) == Verde
  {
  }

  /** With both figures present, the colour as written and the corrected one agree. */
  lemma ColourAgreesWhenPresent(u: Usuario)
    requires u.valorTotalFaturamento.Some? && u.valorTotalDespesas.Some?
    ensures CorSaldoComoEscrito(u) == CorSaldo(u)
  {
  }

  /** The sort fields and orders the table offers. */
  const OpcoesOrdenar: seq<string> := ["createdAt", "nome", "email"]
  const OpcoesOrdem: seq<string> := ["ASC", "DESC"]

  /** The user table's query: page, search text, sort field and order. */
  datatype Filtros = Filtros(page: int, search: string, ordenar: string, ordem: string)

  predicate FiltrosValidos(f: Filtros) {
    f.page >= 1 && f.ordenar in OpcoesOrdenar && f.ordem in OpcoesOrdem
  }

  /** The query the table opens with: first page, no search, newest sign-ups first. */
  function FiltrosIniciais(): (r: Filtros)
    ensures FiltrosValidos(r) && r.page == 1 && r.search == ""
    ensures r.ordenar == OpcoesOrdenar[0] && r.ordem == OpcoesOrdem[1]
  {
    Filtros(1, "", "createdAt", "DESC")
  }

  /** Choosing a sort field from the menu; the page stays where it is. */
  function EscolherOrdenar(f: Filtros, i: nat): (r: Filtros)
    requires i < |OpcoesOrdenar|
    ensures r.ordenar == OpcoesOrdenar[i]
    ensures r.ordenar in OpcoesOrdenar && r.page == f.page && r.search == f.search && r.ordem == f.ordem
    ensures FiltrosValidos(f) ==> FiltrosValidos(r)
  {
    f.(ordenar := OpcoesOrdenar[i])
  }

  /** Choosing an order from the menu; the page stays where it is. */
  function EscolherOrdem(f: Filtros, i: nat): (r: Filtros)
    requires i < |OpcoesOrdem|
    ensures r.ordem == OpcoesOrdem[i]
    ensures r.ordem in OpcoesOrdem && r.page == f.page && r.search == f.search && r.ordenar == f.ordenar
    ensures FiltrosValidos(f) ==> FiltrosValidos(r)
  {
    f.(ordem := OpcoesOrdem[i])
  }

  /** Typing in the search box changes the search and leaves the page unchanged. */
  function Pesquisar(f: Filtros, texto: string): (r: Filtros)
    ensures r.search == texto && r.page == f.page && r.ordenar == f.ordenar && r.ordem == f.ordem
    ensures FiltrosValidos(f) ==> FiltrosValidos(r)
  {
    f.(search := texto)
  }
}
