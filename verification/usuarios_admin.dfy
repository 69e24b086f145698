/**
 * The earlier user administration screen (src/screens/admin/UsuariosAdmin.old.js):
 * the all / active / inactive tabs with their badges, the balance column and
 * the sort fields it offers.
 */
module UsuariosAdmin {
  import opened Seqs
  import opened ResumoUsuario
  import DashboardAdmin

  predicate Ativo(u: Usuario) {
    u.ativo
  }

  predicate Inativo(u: Usuario) {
    !u.ativo
  }

  /** Whether a tab lists a user: tab 1 the active ones, tab 2 the inactive ones, any other tab everyone. */
  predicate NaAba(u: Usuario, tab: int) {
    if tab == 1 then u.ativo else if tab == 2 then !u.ativo else true
  }

  /** `usuariosFiltrados`: the users the tab lists, in order. */
  function Filtrados(us: seq<Usuario>, tab: int): (r: seq<Usuario>)
    ensures forall u :: u in r <==> u in us && (tab == 1 ==> u.ativo) && (tab == 2 ==> !u.ativo)
    ensures IsSubsequence(r, us)
  {
    FilterIsSubsequence(us, u => NaAba(u, tab));
    Filter(us, u => NaAba(u, tab))
  }

  /** Any tab other than 1 and 2 lists every user, in order. */
  lemma OtherTabsKeepAll(us: seq<Usuario>, tab: int)
    requires tab != 1 && tab != 2
    ensures Filtrados(us, tab) == us
  {
    FilterAll(us, u => NaAba(u, tab));
  }

  /** The badge counts: the active and the inactive tab together hold every user. */
  lemma BadgesAddUp(us: seq<Usuario>)
    ensures |Filtrados(us, 1)| + |Filtrados(us, 2)| == |us|
    ensures |Filtrados(us, 0)| == |us|
  {
    assert Filter(us, u => NaAba(u, 1)) == Filter(us, Ativo) by {
      FilterSame(us, u => NaAba(u, 1), Ativo);
    }
    assert Filter(us, u => NaAba(u, 2)) == Filter(us, Inativo) by {
      FilterSame(us, u => NaAba(u, 2), Inativo);
    }
    PartitionCounts(us, Ativo, Inativo);
    OtherTabsKeepAll(us, 0);
  }

  /** Filtering by two predicates that agree everywhere gives the same list. */
  lemma {:induction false} FilterSame(us: seq<Usuario>, p: Usuario -> bool, q: Usuario -> bool)
    requires forall u :: p(u) == q(u)
    ensures Filter(us, p) == Filter(us, q)
    decreases |us|
  {
    if |us| > 0 {
      FilterSame(us[1..], p, q);
    }
  }

  /** The balance column: the balance and its colour, both with missing figures as zero. */
  function SaldoExibido(u: Usuario): (r: (real, string))
    ensures r.0 == Saldo(u)
    ensures r.1 == Verde <==> r.0 >= 0.0
  {
    (Saldo(u), CorSaldo(u))
  }

  /** The sort fields this screen offers: the dashboard's, and the last update. */
  const OpcoesOrdenar: seq<string> := ["createdAt", "nome", "email", "updatedAt"]

  lemma SortOptionsExtendDashboard()
    ensures OpcoesOrdenar == DashboardAdmin.OpcoesOrdenar + ["updatedAt"]
    ensures forall o :: o in DashboardAdmin.OpcoesOrdenar ==> o in OpcoesOrdenar
  {
  }
}
