/**
 * The revenue ledger (src/screens/usuario/Faturamento.js): the month and
 * search filter over the listed entries, the totals with the flat PF and PJ
 * tax estimates, the record sent on submit with its regime and payer, the
 * save-button guard, and the input formatting of the amount and CPF fields.
 */
module Faturamento {
  import opened Seqs
  import opened Text
  import opened Numbers
  import opened DecimalText
  import opened ReadBack
  import opened Dates
  import opened Amounts
  import opened Masks
  import opened Pacientes

  /** A listed revenue entry. */
  datatype Entrada = Entrada(
    data: string, paciente: Option<string>, cpf: Option<string>,
    valor: Option<int>, tipoPessoa: string, notaEmitida: bool)

  /** The entry's date lies in the selected month (1 to 12) and year. */
  predicate PassaMesAno(f: Entrada, mes: int, ano: int) {
    match ParseIsoDate(f.data)
    case Some(d) => d.month == mes && d.year == ano
    case None => false
  }

  /** The patient's name contains the term, both lower-cased. */
  predicate NomeMatch(f: Entrada, pesquisa: string) {
    f.paciente.Some? && Contains(ToLower(f.paciente.value), ToLower(pesquisa))
  }

  /** The digits of the CPF contain the digits of the term. */
  predicate CpfMatch(f: Entrada, pesquisa: string) {
    f.cpf.Some? && Contains(OnlyDigits(f.cpf.value), OnlyDigits(ToLower(pesquisa)))
  }

  predicate Mantida(f: Entrada, mes: int, ano: int, pesquisa: string) {
    if pesquisa != "" then PassaMesAno(f, mes, ano) && (NomeMatch(f, pesquisa) || CpfMatch(f, pesquisa))
    else PassaMesAno(f, mes, ano)
  }

  /**
   * `faturamentosFiltrados`: the entries of the selected month and year that,
   * when a term is typed, match it by name or by CPF digits; in list order.
   */
  function Filtrados(fs: seq<Entrada>, mes: int, ano: int, pesquisa: string): (r: seq<Entrada>)
    ensures forall f :: f in r <==>
      f in fs && PassaMesAno(f, mes, ano) && (pesquisa == "" || NomeMatch(f, pesquisa) || CpfMatch(f, pesquisa))
    ensures IsSubsequence(r, fs)
  {
    FilterIsSubsequence(fs, f => Mantida(f, mes, ano, pesquisa));
    Filter(fs, f => Mantida(f, mes, ano, pesquisa))
  }

  /** A kept entry's date text is literally the selected year and month with some day. */
  lemma KeptEntryDate(fs: seq<Entrada>, mes: int, ano: int, pesquisa: string, f: Entrada)
    requires f in Filtrados(fs, mes, ano, pesquisa)
    ensures 0 <= ano && 1 <= mes <= 12
    ensures exists dia :: ValidDate(Date(ano, mes, dia)) && f.data == FormatIsoDate(Date(ano, mes, dia))
  {
    var d := ParseIsoDate(f.data).value;
    assert d == Date(ano, mes, d.day);
  }

  /** A term without digits matches every in-period entry that has a CPF. */
  lemma TermWithoutDigitsMatchesAnyCpf(f: Entrada, mes: int, ano: int, pesquisa: string)
    requires OnlyDigits(pesquisa) == "" && PassaMesAno(f, mes, ano) && f.cpf.Some?
    ensures Mantida(f, mes, ano, pesquisa)
  {
    OnlyDigitsLower(pesquisa);
    ContainsEmpty(OnlyDigits(f.cpf.value));
  }

  /** The name test ignores the case of the term. */
  lemma NameMatchIgnoresCase(f: Entrada, pesquisa: string)
    ensures NomeMatch(f, ToUpper(pesquisa)) == NomeMatch(f, pesquisa)
  {
    LowerUpper(pesquisa);
  }

  function ValorDe(f: Entrada): real {
    AmountOf(f.valor)
  }

  predicate IsPf(f: Entrada) {
    f.tipoPessoa == "PF"
  }

  predicate IsPj(f: Entrada) {
    f.tipoPessoa == "PJ"
  }

  predicate OutroTipo(f: Entrada) {
    !IsPf(f) && !IsPj(f)
  }

  predicate Emitida(f: Entrada) {
    f.notaEmitida
  }

  predicate Pendente(f: Entrada) {
    IsPj(f) && !f.notaEmitida
  }

  const AliquotaPf: real := 0.275
  const AliquotaPj: real := 0.15

  /** The summary figures of the filtered list. */
  datatype Totais = Totais(
    bruto: real, impostosPf: real, impostosPj: real, impostos: real, lucro: real,
    emitidas: nat, pendentes: nat)

  /**
   * The totals of the filtered entries: gross over every entry (a missing
   * amount counts as zero), the flat tax on the PF-tagged and the PJ-tagged
   * ones, the profit after both, and the invoice counts.
   */
  function Calcular(fs: seq<Entrada>): (r: Totais)
    ensures r.bruto == Sum(Filter(fs, IsPf), ValorDe) + Sum(Filter(fs, IsPj), ValorDe) + Sum(Filter(fs, OutroTipo), ValorDe)
    ensures r.impostosPf == AliquotaPf * Sum(Filter(fs, IsPf), ValorDe)
    ensures r.impostosPj == AliquotaPj * Sum(Filter(fs, IsPj), ValorDe)
    ensures r.lucro == r.bruto - r.impostos && r.impostos == r.impostosPf + r.impostosPj
    ensures r.emitidas == |Filter(fs, Emitida)| && r.pendentes == |Filter(fs, Pendente)|
    ensures r.emitidas + r.pendentes <= |fs|
  {
    SumThreeWay(fs, IsPf, IsPj, OutroTipo, ValorDe);
    DisjointCounts(fs, Emitida, Pendente);
    var bruto := Sum(fs, ValorDe);
    var pf := Sum(Filter(fs, IsPf), ValorDe) * AliquotaPf;
    var pj := Sum(Filter(fs, IsPj), ValorDe) * AliquotaPj;
    Totais(bruto, pf, pj, pf + pj, bruto - (pf + pj), |Filter(fs, Emitida)|, |Filter(fs, Pendente)|)
  }

  /**
   * Only PJ entries can be pending, and once every entry's invoice is issued
   * nothing is pending and every entry counts as issued.
   */
  lemma {:induction false} ContagensNotas(fs: seq<Entrada>)
    ensures Calcular(fs).pendentes <= |Filter(fs, IsPj)|
    ensures (forall f :: f in fs ==> f.notaEmitida) ==>
              Calcular(fs).pendentes == 0 && Calcular(fs).emitidas == |fs|
  {
    FilterImpliesCount(fs, Pendente, IsPj);
    if forall f :: f in fs ==> f.notaEmitida {
      FilterAll(fs, Emitida);
      DisjointCounts(fs, Emitida, Pendente);
    }
  }

  predicate NaoNegativo(f: Entrada) {
    f.valor.None? || f.valor.value >= 0
  }

  /** With no negative amount the taxes never exceed 27.5% of gross, and the profit lies between zero and gross. */
  lemma LucroBounds(fs: seq<Entrada>)
    requires forall f :: f in fs ==> NaoNegativo(f)
    ensures var t := Calcular(fs); 0.0 <= t.impostos <= AliquotaPf * t.bruto && 0.0 <= t.lucro <= t.bruto
  {
    forall f | f in fs
      ensures ValorDe(f) >= 0.0
    {
      AmountNonNegative(f.valor);
    }
    assert forall f :: f in Filter(fs, IsPf) ==> f in fs;
    assert forall f :: f in Filter(fs, IsPj) ==> f in fs;
    assert forall f :: f in Filter(fs, OutroTipo) ==> f in fs;
    SumNonNegative(Filter(fs, IsPf), ValorDe);
    SumNonNegative(Filter(fs, IsPj), ValorDe);
    SumNonNegative(Filter(fs, OutroTipo), ValorDe);
  }

  /** The type a user without one is taken to have. */
  function TipoUsuario(tipo: Option<string>): string {
    if tipo.Some? && tipo.value != "" then tipo.value else "PF"
  }

  /** A hybrid user, whatever the case the type is written in. */
  predicate IsHibrido(tipo: Option<string>) {
    ToUpper(TipoUsuario(tipo)) == "HIBRIDO"
  }

  /** The entry form, every field as the text inputs hold it. */
  datatype Formulario = Formulario(
    descricao: string, valor: string, data: string, paciente: string, cpf: string,
    formaPagamento: string, tipoPessoa: string, observacoes: string,
    pagadorNome: string, pagadorCpf: string, pagadorTipoPessoa: string)

  /** The record sent to the revenue service; `valor` is NaN (`None`) when the text has no number. */
  datatype Dados = Dados(
    descricao: string, valor: Option<real>, data: string, paciente: string, cpf: string,
    formaPagamento: string, tipoPessoa: string, observacoes: string,
    pagadorNome: string, pagadorCpf: string, pagadorTipoPessoa: Option<string>)

  /** The empty form a new entry opens with: a hybrid user starts with no regime chosen. */
  function NovoFormulario(usuario: Option<string>, hoje: string): (r: Formulario)
    ensures IsHibrido(usuario) <==> r.tipoPessoa == "" 
    ensures !IsHibrido(usuario) ==> r.tipoPessoa == TipoUsuario(usuario)
    ensures r.valor == "" && r.descricao == "" && r.paciente == "" && r.data == hoje && r.pagadorTipoPessoa == "PF"
    ensures r.cpf == "" && r.formaPagamento == "" && r.observacoes == "" && r.pagadorNome == "" && r.pagadorCpf == ""
  {
    Formulario("", "", hoje, "", "", "", if IsHibrido(usuario) then "" else TipoUsuario(usuario), "", "", "", "PF")
  }

  /**
   * `handleSubmit`'s record: the regime is the user's own type unless the user
   * is hybrid, who chooses per entry; when the patient pays, the payer fields
   * are emptied and the payer type is null.
   */
  function DadosEnviados(usuario: Option<string>, form: Formulario, pagadorBeneficiario: bool): (r: Dados)
    ensures IsHibrido(usuario) ==> r.tipoPessoa == form.tipoPessoa
    ensures !IsHibrido(usuario) ==> r.tipoPessoa == TipoUsuario(usuario)
    ensures pagadorBeneficiario ==> r.pagadorNome == "" && r.pagadorCpf == "" && r.pagadorTipoPessoa.None?
    ensures !pagadorBeneficiario ==>
      r.pagadorNome == form.pagadorNome && r.pagadorCpf == form.pagadorCpf && r.pagadorTipoPessoa == Some(form.pagadorTipoPessoa)
    ensures r.valor == ParseFloat(form.valor)
    ensures r.descricao == form.descricao && r.data == form.data && r.paciente == form.paciente && r.cpf == form.cpf
    ensures r.formaPagamento == form.formaPagamento && r.observacoes == form.observacoes
  {
    var tipo := if IsHibrido(usuario) then form.tipoPessoa else TipoUsuario(usuario);
    Dados(form.descricao, ParseFloat(form.valor), form.data, form.paciente, form.cpf, form.formaPagamento,
          tipo, form.observacoes,
          if pagadorBeneficiario then "" else form.pagadorNome,
          if pagadorBeneficiario then "" else form.pagadorCpf,
          if pagadorBeneficiario then None else Some(form.pagadorTipoPessoa))
  }

  /** A user of one regime cannot tag an entry with another, whatever the form says. */
  lemma RegimeFixedForNonHybrid(usuario: Option<string>, a: Formulario, b: Formulario, pa: bool, pb: bool)
    requires !IsHibrido(usuario)
    ensures DadosEnviados(usuario, a, pa).tipoPessoa == DadosEnviados(usuario, b, pb).tipoPessoa
  {
  }

  /**
   * A user is hybrid exactly when the type reads `hibrido` in any mix of
   * cases, and such a user's entries carry the regime chosen in the form.
   */
  lemma {:induction false} HybridInAnyCase(tipo: string, form: Formulario, pagadorBeneficiario: bool)
    ensures IsHibrido(Some(tipo)) <==> ToLower(tipo) == "hibrido"
    ensures ToLower(tipo) == "hibrido" ==>
      DadosEnviados(Some(tipo), form, pagadorBeneficiario).tipoPessoa == form.tipoPessoa
  {
    assert ToUpper("hibrido") == "HIBRIDO";
    CaseInsensitiveEquals(tipo, "hibrido");
  }

  /** The save button's `disabled` test; `parseFloat(valor) <= 0` is false for NaN. */
  predicate SalvarDesabilitado(loading: bool, form: Formulario) {
    loading || form.valor == "" || (ParseFloat(form.valor).Some? && ParseFloat(form.valor).value <= 0.0)
    || form.descricao == "" || form.paciente == ""
  }

  /**
   * The amount field as written: every keystroke keeps the digits and shows
   * them as cents, `(parseInt(digits) / 100).toFixed(2)`; with no digit left
   * that is `NaN.toFixed(2)`, the text "NaN".
   */
  function ValorDigitadoComoEscrito(text: string): (r: string)
    ensures OnlyDigits(text) == "" <==> r == "NaN"
    ensures OnlyDigits(text) != "" ==> r == FormatCents(DigitsValue(OnlyDigits(text)))
  {
    var digits := OnlyDigits(text);
    if digits == "" then "NaN" else FormatCents(DigitsValue(digits))
  }

  /** The cents text of an amount reads back as the amount. */
  predicate ReadsBack(c: nat) {
    ParseFloat(FormatCents(c)) == Some(c as real / 100.0)
  }

  /** The field shows the digits typed as cents, and reads back as that many cents. */
  lemma ReadTypedValue(text: string)
    requires OnlyDigits(text) != ""
    ensures ReadsBack(DigitsValue(OnlyDigits(text)))
  {
    var c := DigitsValue(OnlyDigits(text));
    ParseFormatCents(c);
    assert ReadsBack(c);
  }

  /** Clearing the amount leaves "NaN" in the field, which enables the button and sends NaN. */
  lemma ClearedValueEnablesSave(form: Formulario, text: string)
    requires form.descricao != "" && form.paciente != "" && OnlyDigits(text) == ""
    ensures var f := form.(valor := ValorDigitadoComoEscrito(text));
      !SalvarDesabilitado(false, f) && ParseFloat(f.valor) == None
  {
    ParseFloatNoNumber("NaN");
  }

  /** The amount field with the cleared case kept empty, so that the button's empty test catches it. */
  function ValorDigitado(text: string): (r: string)
    ensures OnlyDigits(text) == "" <==> r == ""
    ensures OnlyDigits(text) != "" ==> r == ValorDigitadoComoEscrito(text)
  {
    var digits := OnlyDigits(text);
    if digits == "" then "" else FormatCents(DigitsValue(digits))
  }

  /**
   * With the corrected field, the button is disabled exactly when a text
   * field is empty or the digits typed are all zeros or none, and an enabled
   * button always sends a positive amount.
   */
  lemma EnabledSaveSendsPositive(form: Formulario, text: string, usuario: Option<string>, pagador: bool)
    ensures var f := form.(valor := ValorDigitado(text));
      SalvarDesabilitado(false, f) <==>
        form.descricao == "" || form.paciente == "" || OnlyDigits(text) == "" || DigitsValue(OnlyDigits(text)) == 0
    ensures var d := DadosEnviados(usuario, form.(valor := ValorDigitado(text)), pagador);
      !SalvarDesabilitado(false, form.(valor := ValorDigitado(text))) ==> d.valor.Some? && d.valor.value > 0.0
  {
    if OnlyDigits(text) != "" {
      ReadTypedValue(text);
    }
  }

  // ---- The CPF fields ----

  /**
   * `formatarCPF` of this screen: the patient register's CPF chain on the
   * digits typed, cut to fourteen characters whatever their number.
   */
  function FormatarCpf(valor: string): (r: string)
    ensures |r| <= 14
    ensures |OnlyDigits(valor)| <= 11 ==> r == Template(OnlyDigits(valor), CpfTemplate)
  {
    var d := OnlyDigits(valor);
    if |d| <= 11 then
      CpfChainFillsTemplate(d);
      TemplateLength(d, CpfTemplate);
      Take(CpfChain(d), 14)
    else Take(CpfChain(d), 14)
  }

  /** Up to eleven digits, the mask keeps exactly the digits typed. */
  lemma FormatarCpfKeepsDigits(valor: string)
    requires |OnlyDigits(valor)| <= 11
    ensures OnlyDigits(FormatarCpf(valor)) == OnlyDigits(valor)
  {
    var d := OnlyDigits(valor);
    CpfIsTemplate();
    CpfTemplateSlots();
    TemplateKeepsDigits(d, CpfTemplate);
  }

  /** Re-masking a masked CPF changes nothing, so each keystroke sees a stable field. */
  lemma FormatarCpfIdempotent(valor: string)
    requires |OnlyDigits(valor)| <= 11
    ensures FormatarCpf(FormatarCpf(valor)) == FormatarCpf(valor)
  {
    FormatarCpfKeepsDigits(valor);
  }
}
