/**
 * The administrator's statistics (src/screens/admin/EstatisticasAdmin.js):
 * the person-type pie chart, the growth table with its running totals, and
 * the period selector.
 */
module EstatisticasAdmin {
  import opened Seqs
  import opened Numbers
  import opened Shares
  import opened ResumoUsuario
  import DashboardAdmin

  /**
   * The pie of this screen: one slice per entry, in order, labelled by person
   * type, with its share of the total rounded to one decimal. Nothing guards
   * the division: an empty distribution gives no slices, and a non-empty one
   * needs a positive total.
   */
  function DadosGraficoPizza(ds: seq<DashboardAdmin.Distribuicao>): (r: seq<DashboardAdmin.Fatia>)
    requires |ds| == 0 || Total(DashboardAdmin.Totais(ds)) > 0.0
    ensures |r| == |ds|
    ensures forall i :: 0 <= i < |ds| ==> r[i].name == TipoLabel(ds[i].tipo) && r[i].value == ds[i].total
    ensures forall i :: 0 <= i < |r| ==>
      r[i].percent == RoundOneDecimal(PercentShares(DashboardAdmin.Totais(ds), Total(DashboardAdmin.Totais(ds)))[i])
    ensures forall i :: 0 <= i < |r| ==>
      PercentShares(DashboardAdmin.Totais(ds), Total(DashboardAdmin.Totais(ds)))[i] - 0.05 <= r[i].percent <=
      PercentShares(DashboardAdmin.Totais(ds), Total(DashboardAdmin.Totais(ds)))[i] + 0.05
  {
    var t := Total(DashboardAdmin.Totais(ds));
    seq(|ds|, i requires 0 <= i < |ds| => DashboardAdmin.FatiaDe(ds[i], t))
  }

  /** Wherever this pie is defined, it is the dashboard's pie. */
  lemma SameAsDashboardPie(ds: seq<DashboardAdmin.Distribuicao>)
    requires |ds| == 0 || Total(DashboardAdmin.Totais(ds)) > 0.0
    ensures DadosGraficoPizza(ds) == DashboardAdmin.DadosGraficoPizza(ds)
  {
  }

  /** One row of the growth table: a month and the users who joined in it. */
  datatype Crescimento = Crescimento(mes: string, total: int)

  /** The new users of each month, in order. */
  function Novos(rows: seq<Crescimento>): seq<int>
  {
    Map(rows, (c: Crescimento) => c.total)
  }

  /** The "Total Acumulado" column: row `i` shows the users who joined in rows 0 to `i`. */
  method TotalAcumulado(rows: seq<Crescimento>) returns (acc: seq<int>)
    ensures |acc| == |rows|
    ensures forall i :: 0 <= i < |rows| ==> acc[i] == TotalInt(Novos(rows)[..i + 1])
    ensures |rows| > 0 ==> acc[|rows| - 1] == TotalInt(Novos(rows))
  {
    acc := RunningTotals(Novos(rows));
    if |rows| > 0 {
      assert Novos(rows)[..|rows|] == Novos(rows);
    }
  }

  /** With no negative month the column never decreases. */
  lemma TotalAcumuladoMonotone(rows: seq<Crescimento>, i: nat, j: nat)
    requires i <= j < |rows| && forall k :: 0 <= k < |rows| ==> rows[k].total >= 0
    ensures TotalInt(Novos(rows)[..i + 1]) <= TotalInt(Novos(rows)[..j + 1])
  {
    RunningTotalMonotone(Novos(rows), i, j);
  }

  /** The periods, in months, the selector offers. */
  const Periodos: seq<string> := ["3", "6", "12", "24"]

  /** The period the screen opens with: the last twelve months. */
  function PeriodoInicial(): (r: string)
    ensures r in Periodos && DigitsValue(r) == 12
  {
    assert Periodos[2] == "12";
    "12"
  }
}
