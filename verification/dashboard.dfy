/**
 * The user's dashboard (src/screens/usuario/Dashboard.js): the month's
 * revenue, expenses and result, the share of each expense category, which
 * tax sections a person type sees, and the collapsible cards.
 */
module Dashboard {
  import opened Seqs
  import opened Numbers
  import opened Shares

  /** The person-physical block of the metrics. */
  datatype BlocoPf = BlocoPf(rendimentos: Option<real>, pagamentos: Option<real>)

  /** The company block of the metrics. */
  datatype BlocoPj = BlocoPj(faturamento: Option<real>)

  /** One expense category of the pie chart. */
  datatype Categoria = Categoria(name: string, value: Option<real>)

  /** The metrics the service reports; a missing or falsy figure is `None`. */
  datatype Metricas = Metricas(
    pessoaFisica: Option<BlocoPf>, pessoaJuridica: Option<BlocoPj>, despesas: Option<real>,
    despesasIndividuais: Option<seq<Categoria>>)

  /** `parseFloat(x || 0)` of a figure already read as a number. */
  function Num(x: Option<real>): real {
    x.GetOr(0.0)
  }

  function Rendimentos(m: Metricas): real {
    if m.pessoaFisica.Some? then Num(m.pessoaFisica.value.rendimentos) else 0.0
  }

  function Pagamentos(m: Metricas): real {
    if m.pessoaFisica.Some? then Num(m.pessoaFisica.value.pagamentos) else 0.0
  }

  function FaturamentoPj(m: Metricas): real {
    if m.pessoaJuridica.Some? then Num(m.pessoaJuridica.value.faturamento) else 0.0
  }

  datatype Valores = Valores(receitas: real, despesas: real, resultado: real)

  /**
   * `calcularValores`: all zero before the metrics arrive; otherwise PF income
   * plus company revenue, PF payments plus the expense figure, and their difference.
   */
  function CalcularValores(m: Option<Metricas>): (r: Valores)
    ensures m.None? ==> r == Valores(0.0, 0.0, 0.0)
    ensures r.resultado == r.receitas - r.despesas
    ensures m.Some? ==> r.receitas == Rendimentos(m.value) + FaturamentoPj(m.value)
    ensures m.Some? ==> r.despesas == Pagamentos(m.value) + Num(m.value.despesas)
  {
    match m
    case None => Valores(0.0, 0.0, 0.0)
    case Some(mt) =>
      var receitas := Rendimentos(mt) + FaturamentoPj(mt);
      var despesas := Pagamentos(mt) + Num(mt.despesas);
      Valores(receitas, despesas, receitas - despesas)
  }

  /** The colour of the result: green from zero up, red below. */
  function CorResultado(resultado: real): (r: string)
    ensures r == "#00B389" <==> resultado >= 0.0
    ensures r == "#00B389" || r == "#FF4873"
  {
    if resultado >= 0.0 then "#00B389" else "#FF4873"
  }

  /**
   * The result card is green exactly when the month's income (PF income and
   * company revenue) covers its outgoings (PF payments and expenses), and
   * green before the metrics arrive.
   */
  lemma ResultadoVerdeSeCobre(m: Option<Metricas>)
    ensures m.None? ==> CorResultado(CalcularValores(m).resultado) == "#00B389"
    ensures m.Some? ==> (CorResultado(CalcularValores(m).resultado) == "#00B389" <==>
      Rendimentos(m.value) + FaturamentoPj(m.value) >= Pagamentos(m.value) + Num(m.value.despesas))
  {
  }

  /** The categories of the pie chart, none when the metrics have no list. */
  function CategoriasDe(m: Option<Metricas>): seq<Categoria> {
    if m.Some? && m.value.despesasIndividuais.Some? then m.value.despesasIndividuais.value else []
  }

  /** Each category's amount, a missing one counting as zero. */
  function ValoresCategorias(cs: seq<Categoria>): (r: seq<real>)
    ensures |r| == |cs| && forall i :: 0 <= i < |cs| ==> r[i] == Num(cs[i].value)
  {
    seq(|cs|, i requires 0 <= i < |cs| => Num(cs[i].value))
  }

  /**
   * The percentage shown next to each category: its share of the total
   * rounded to a whole number, or zero for every category when the total is not positive.
   */
  function Percentuais(cs: seq<Categoria>): (r: seq<int>)
    ensures |r| == |cs|
    ensures Total(ValoresCategorias(cs)) <= 0.0 ==> forall i :: 0 <= i < |r| ==> r[i] == 0
    ensures Total(ValoresCategorias(cs)) > 0.0 ==> forall i :: 0 <= i < |r| ==>
      PercentShares(ValoresCategorias(cs), Total(ValoresCategorias(cs)))[i] - 0.5 < r[i] as real <=
      PercentShares(ValoresCategorias(cs), Total(ValoresCategorias(cs)))[i] + 0.5
  {
    var vs := ValoresCategorias(cs);
    var t := Total(vs);
    seq(|cs|, i requires 0 <= i < |cs| => if t > 0.0 then MathRound(vs[i] / t * 100.0) else 0)
  }

  function AsReals(xs: seq<int>): (r: seq<real>)
    ensures |r| == |xs| && forall i :: 0 <= i < |xs| ==> r[i] == xs[i] as real
  {
    seq(|xs|, i requires 0 <= i < |xs| => xs[i] as real)
  }

  /** The rounded percentages add up to 100, give or take half a point per category. */
  lemma PercentuaisSomam(cs: seq<Categoria>)
    requires Total(ValoresCategorias(cs)) > 0.0
    ensures var n := |cs| as real;
      100.0 - 0.5 * n <= Total(AsReals(Percentuais(cs))) <= 100.0 + 0.5 * n
  {
    var vs := ValoresCategorias(cs);
    var sh := PercentShares(vs, Total(vs));
    SharesMakeHundred(vs);
    TotalsClose(AsReals(Percentuais(cs)), sh, 0.5);
  }

  /** With no negative amount, every percentage lies between 0 and 100. */
  lemma PercentuaisBounded(cs: seq<Categoria>, i: nat)
    requires i < |cs| && forall j :: 0 <= j < |cs| ==> Num(cs[j].value) >= 0.0
    ensures 0 <= Percentuais(cs)[i] <= 100
  {
    var vs := ValoresCategorias(cs);
    if Total(vs) > 0.0 {
      ShareBounds(vs, i);
    }
  }

  /** The six slice colours, cycled by position. */
  const Paleta: seq<string> := ["#3f51b5", "#f50057", "#00B389", "#FF4873", "#FFC107", "#009688"]

  function CorDaFatia(idx: nat): (r: string)
    ensures r in Paleta
  {
    Paleta[idx % 6]
  }

  /** Neighbouring slices never share a colour, and the colours repeat every six slices. */
  lemma CoresDasFatias(idx: nat)
    ensures CorDaFatia(idx) != CorDaFatia(idx + 1)
    ensures CorDaFatia(idx + 6) == CorDaFatia(idx)
  {
    assert (idx + 6) % 6 == idx % 6;
    assert (idx + 1) % 6 == if idx % 6 == 5 then 0 else idx % 6 + 1;
  }

  /** The Carnê-Leão section is shown to PF and hybrid users. */
  predicate MostraPf(tipo: Option<string>) {
    tipo == Some("PF") || tipo == Some("HIBRIDO")
  }

  /** The Simples Nacional section is shown to PJ and hybrid users. */
  predicate MostraPj(tipo: Option<string>) {
    tipo == Some("PJ") || tipo == Some("HIBRIDO")
  }

  /** Hybrid users see both tax sections, PF and PJ users one each, anyone else none. */
  lemma SecoesPorTipo(tipo: Option<string>)
    ensures MostraPf(tipo) && MostraPj(tipo) <==> tipo == Some("HIBRIDO")
    ensures MostraPf(tipo) != MostraPj(tipo) <==> tipo == Some("PF") || tipo == Some("PJ")
    ensures !MostraPf(tipo) && !MostraPj(tipo) <==> tipo !in {Some("PF"), Some("PJ"), Some("HIBRIDO")}
  {
  }

  /** Whether a card is open: a card never toggled is closed. */
  function Expandido(cards: map<string, bool>, id: string): bool {
    id in cards && cards[id]
  }

  /** The result and tax cards start open. */
  const CardsIniciais: map<string, bool> := map["resultado" := true, "impostos" := true]

  /** `toggleCardExpansao`: the card flips, every other card keeps its state. */
  function Toggle(cards: map<string, bool>, id: string): (r: map<string, bool>)
    ensures Expandido(r, id) == !Expandido(cards, id)
    ensures forall k :: k != id ==> Expandido(r, k) == Expandido(cards, k)
    ensures r.Keys == cards.Keys + {id}
  {
    cards[id := !Expandido(cards, id)]
  }

  /** Toggling a card twice restores every card's state. */
  lemma ToggleTwice(cards: map<string, bool>, id: string, k: string)
    ensures Expandido(Toggle(Toggle(cards, id), id), k) == Expandido(cards, k)
  {
  }

  /** The first toggle of a card that starts open closes it; any other card opens. */
  lemma FirstToggle(id: string)
    ensures Expandido(Toggle(CardsIniciais, id), id) <==> id != "resultado" && id != "impostos"
  {
  }
}
