/**
 * The expense ledger (src/screens/usuario/Despesas.js): totals split into
 * fixed and variable expenses, the amount check on submit, and the mapping
 * between the category a record stores (an account's name) and the one the
 * form selects (the account's id, or its name when it has none).
 */
module Despesas {
  import opened Seqs
  import opened Text
  import opened Numbers
  import opened Amounts

  /** A stored expense; absent fields are `None`. */
  datatype Despesa = Despesa(
    descricao: Option<string>, valor: Option<int>, data: Option<string>,
    categoria: Option<string>, tipo: Option<string>, observacoes: Option<string>)

  function ValorDe(d: Despesa): real {
    AmountOf(d.valor)
  }

  predicate IsFixa(d: Despesa) {
    d.tipo == Some("fixa")
  }

  predicate IsVariavel(d: Despesa) {
    d.tipo == Some("variavel")
  }

  predicate NenhumTipo(d: Despesa) {
    !IsFixa(d) && !IsVariavel(d)
  }

  datatype Resumo = Resumo(total: real, fixas: real, variaveis: real)

  /**
   * The three totals over every loaded expense (no period filter), a missing
   * amount counting as zero: fixed and variable ones add up to the whole
   * once the expenses of neither kind are added.
   */
  function Totais(ds: seq<Despesa>): (r: Resumo)
    ensures r.total == r.fixas + r.variaveis + Sum(Filter(ds, NenhumTipo), ValorDe)
    ensures r.fixas == Sum(Filter(ds, IsFixa), ValorDe) && r.variaveis == Sum(Filter(ds, IsVariavel), ValorDe)
  {
    SumThreeWay(ds, IsFixa, IsVariavel, NenhumTipo, ValorDe);
    Resumo(Sum(ds, ValorDe), Sum(Filter(ds, IsFixa), ValorDe), Sum(Filter(ds, IsVariavel), ValorDe))
  }

  /** When every expense is fixed or variable, the two totals add up to the whole. */
  lemma FixasMaisVariaveis(ds: seq<Despesa>)
    requires forall d :: d in ds ==> IsFixa(d) || IsVariavel(d)
    ensures Totais(ds).fixas + Totais(ds).variaveis == Totais(ds).total
  {
    SumPartition(ds, IsFixa, IsVariavel, ValorDe);
  }

  /** With no negative amount, each kind's total stays between zero and the whole. */
  lemma TotaisBounded(ds: seq<Despesa>)
    requires forall d :: d in ds ==> d.valor.None? || d.valor.value >= 0
    ensures 0.0 <= Totais(ds).fixas <= Totais(ds).total
    ensures 0.0 <= Totais(ds).variaveis <= Totais(ds).total
  {
    forall d | d in ds
      ensures ValorDe(d) >= 0.0
    {
      AmountNonNegative(d.valor);
    }
    SumFilterBounded(ds, IsFixa, ValorDe);
    SumFilterBounded(ds, IsVariavel, ValorDe);
  }

  /** The entry counts under the two cards never exceed the number of expenses. */
  lemma ContagensCabem(ds: seq<Despesa>)
    ensures |Filter(ds, IsFixa)| + |Filter(ds, IsVariavel)| <= |ds|
  {
    DisjointCounts(ds, IsFixa, IsVariavel);
  }

  /** An account of the chart; `id == ""` stands for an account without id. */
  datatype Conta = Conta(id: string, nome: string)

  /** `cat.id || cat.nome`: the value the category picker holds for an account. */
  function Chave(c: Conta): string {
    if c.id != "" then c.id else c.nome
  }

  /**
   * The category sent on submit: the name of the first account whose key is
   * the selection (when that name is not empty), otherwise the selection itself.
   */
  function CategoriaEnviada(cats: seq<Conta>, selecao: string): (r: string)
    ensures (forall i :: 0 <= i < |cats| ==> Chave(cats[i]) != selecao) ==> r == selecao
    ensures forall i :: 0 <= i < |cats| && Chave(cats[i]) == selecao && (forall j :: 0 <= j < i ==> Chave(cats[j]) != selecao) ==>
      r == (if cats[i].nome != "" then cats[i].nome else selecao)
  {
    match Find(cats, (c: Conta) => Chave(c) == selecao)
    case Some(c) => if c.nome != "" then c.nome else selecao
    case None => selecao
  }

  /**
   * The category an edit form opens with: the id of the first account named
   * like the record's category when it has one, else the stored category, else empty.
   */
  function CategoriaInicial(cats: seq<Conta>, categoria: Option<string>): (r: string)
    ensures categoria.None? ==> r == ""
    ensures categoria.Some? && (forall i :: 0 <= i < |cats| ==> cats[i].nome != categoria.value) ==> r == categoria.value
    ensures forall i :: 0 <= i < |cats| && categoria == Some(cats[i].nome) && (forall j :: 0 <= j < i ==> cats[j].nome != cats[i].nome) ==>
      r == (if cats[i].id != "" then cats[i].id else cats[i].nome)
  {
    match categoria
    case None => ""
    case Some(n) =>
      match Find(cats, (c: Conta) => c.nome == n)
      case Some(c) => if c.id != "" then c.id else n
      case None => n
  }

  /** No two accounts share a key. */
  predicate ChavesUnicas(cats: seq<Conta>) {
    forall i, j :: 0 <= i < |cats| && 0 <= j < |cats| && Chave(cats[i]) == Chave(cats[j]) ==> i == j
  }

  /**
   * Opening a record and saving it unchanged sends back the category it
   * stored, when that category names an account or matches no account at all.
   */
  lemma CategoriaRoundTrip(cats: seq<Conta>, n: string)
    requires ChavesUnicas(cats) && n != ""
    requires (exists i :: 0 <= i < |cats| && cats[i].nome == n) ||
             (forall i :: 0 <= i < |cats| ==> cats[i].nome != n && Chave(cats[i]) != n)
    ensures CategoriaEnviada(cats, CategoriaInicial(cats, Some(n))) == n
  {
    if exists i :: 0 <= i < |cats| && cats[i].nome == n {
      var i := FirstNamed(cats, n);
      var sel := CategoriaInicial(cats, Some(n));
      assert sel == Chave(cats[i]);
      forall j | 0 <= j < i
        ensures Chave(cats[j]) != sel
      {
      }
    }
  }

  /** The first account with a given name. */
  lemma FirstNamed(cats: seq<Conta>, n: string) returns (i: nat)
    requires exists i :: 0 <= i < |cats| && cats[i].nome == n
    ensures i < |cats| && cats[i].nome == n && forall j :: 0 <= j < i ==> cats[j].nome != n
  {
    var k :| 0 <= k < |cats| && cats[k].nome == n;
    i := 0;
    while cats[i].nome != n
      invariant i <= k && forall j :: 0 <= j < i ==> cats[j].nome != n
      decreases k - i
    {
      i := i + 1;
    }
  }

  /** The expense form; every field is text. */
  datatype Formulario = Formulario(
    descricao: string, valor: string, data: string, categoria: string, tipo: string, observacoes: string)

  /** The form a new expense opens with: variable, today, everything else empty. */
  function NovoFormulario(hoje: string): (r: Formulario)
    ensures r.tipo == "variavel" && r.data == hoje
    ensures r.descricao == "" && r.valor == "" && r.categoria == "" && r.observacoes == ""
  {
    Formulario("", "", hoje, "", "variavel", "")
  }

  /** The form an edit opens with: the record's fields, with the category mapped to its account. */
  function FormularioEdicao(cats: seq<Conta>, d: Despesa): (r: Formulario)
    ensures r.valor == AmountText(d.valor) && r.categoria == CategoriaInicial(cats, d.categoria)
    ensures r.tipo != "" && (d.tipo.Some? && d.tipo.value != "" ==> r.tipo == d.tipo.value)
  {
    Formulario(d.descricao.GetOr(""), AmountText(d.valor), d.data.GetOr(""), CategoriaInicial(cats, d.categoria),
               if d.tipo.Some? && d.tipo.value != "" then d.tipo.value else "variavel",
               d.observacoes.GetOr(""))
  }

  const MsgValor: string := "O valor da despesa deve ser um número positivo."

  /** The record sent to the expense service. */
  datatype Dados = Dados(
    descricao: string, valor: real, data: string, categoria: string, tipo: string, observacoes: string)

  datatype Outcome = Rejected(message: string) | Send(dados: Dados)

  /** `handleSubmit`: a NaN or non-positive amount is refused; otherwise the record, with the category resolved. */
  function Submit(cats: seq<Conta>, f: Formulario): (r: Outcome)
    ensures r.Rejected? <==> ParseFloat(f.valor).None? || ParseFloat(f.valor).value <= 0.0
    ensures r.Rejected? ==> r.message == MsgValor
    ensures r.Send? ==> Some(r.dados.valor) == ParseFloat(f.valor) && r.dados.valor > 0.0
    ensures r.Send? ==> r.dados.categoria == CategoriaEnviada(cats, f.categoria)
    ensures r.Send? ==> r.dados.descricao == f.descricao && r.dados.data == f.data && r.dados.tipo == f.tipo
                        && r.dados.observacoes == f.observacoes
  {
    match ParseFloat(f.valor)
    case None => Rejected(MsgValor)
    case Some(v) =>
      if v <= 0.0 then Rejected(MsgValor)
      else Send(Dados(f.descricao, v, f.data, CategoriaEnviada(cats, f.categoria), f.tipo, f.observacoes))
  }

  /** A new form cannot be saved before an amount is typed. */
  lemma NewFormRejected(cats: seq<Conta>, hoje: string)
    ensures Submit(cats, NovoFormulario(hoje)) == Rejected(MsgValor)
  {
    ParseFloatEmpty();
  }

  /** Saving a positive expense unchanged sends back its amount and category. */
  lemma EditUnchangedKeepsRecord(cats: seq<Conta>, d: Despesa, n: string)
    requires d.valor.Some? && d.valor.value > 0 && d.categoria == Some(n)
    requires ChavesUnicas(cats) && n != ""
    requires (exists i :: 0 <= i < |cats| && cats[i].nome == n) ||
             (forall i :: 0 <= i < |cats| ==> cats[i].nome != n && Chave(cats[i]) != n)
    ensures var r := Submit(cats, FormularioEdicao(cats, d));
      r.Send? && r.dados.valor == AmountOf(d.valor) && r.dados.categoria == n
  {
    ReadAmountText(d.valor);
    CategoriaRoundTrip(cats, n);
  }
}
