/**
 * The combined ledger screen (src/screens/usuario/Lancamentos.js): the
 * date shown in its tables, the value typed with a decimal comma, the forms
 * for a new or an edited entry, and the record sent for an expense or a
 * revenue entry.
 */
module Lancamentos {
  import opened Seqs
  import opened Text
  import opened Numbers
  import opened DecimalText
  import opened ReadBack
  import opened Dates
  import opened Amounts

  /** Element `i` of a destructured split, `undefined` when the split is shorter. */
  function Piece(parts: seq<string>, i: nat): string {
    if i < |parts| then parts[i] else "undefined"
  }

  /**
   * `formatarData`: empty for a missing date, otherwise the first three
   * `-`-separated pieces in reverse order, joined by `/`.
   */
  function FormatarData(data: Option<string>): (r: string)
    ensures data.None? || data == Some("") ==> r == ""
    ensures data.Some? && data.value != "" ==> |r| >= 2 && '/' in r
  {
    match data
    case None => ""
    case Some(s) =>
      if s == "" then ""
      else
        var p := Split(s, '-');
        var r := Piece(p, 2) + "/" + Piece(p, 1) + "/" + Piece(p, 0);
        assert r[|Piece(p, 2)|] == '/';
        r
  }

  /** Three pieces without the separator, joined by it, split back into the three. */
  lemma SplitThree(a: string, b: string, c: string, sep: char)
    requires sep !in a && sep !in b && sep !in c
    ensures Split(a + [sep] + b + [sep] + c, sep) == [a, b, c]
  {
    var parts := [a, b, c];
    assert parts[1..] == [b, c] && parts[1..][1..] == [c];
    assert Join([c], sep) == c;
    assert Join([b, c], sep) == b + [sep] + c;
    assert Join(parts, sep) == a + [sep] + (b + [sep] + c);
    assert a + [sep] + (b + [sep] + c) == a + [sep] + b + [sep] + c;
    SplitJoin(parts, sep);
  }

  /** Three pieces joined by `-` come back as day, month and year joined by `/`. */
  lemma FormatarDataPieces(y: string, m: string, d: string)
    requires '-' !in y && '-' !in m && '-' !in d
    ensures FormatarData(Some(y + "-" + m + "-" + d)) == d + "/" + m + "/" + y
  {
    SplitThree(y, m, d, '-');
  }

  /** A stored `YYYY-MM-DD` date shows as `DD/MM/YYYY`. */
  lemma FormatarIsoDate(dt: Date)
    requires ValidDate(dt)
    ensures FormatarData(Some(FormatIsoDate(dt))) == Pad2(dt.day) + "/" + Pad2(dt.month) + "/" + Pad4(dt.year)
  {
    NoDashInDigits(Pad4(dt.year));
    NoDashInDigits(Pad2(dt.month));
    NoDashInDigits(Pad2(dt.day));
    FormatarDataPieces(Pad4(dt.year), Pad2(dt.month), Pad2(dt.day));
  }

  lemma NoDashInDigits(s: string)
    requires AllDigits(s)
    ensures '-' !in s && '/' !in s
  {
  }

  /** The display reverses the stored date: splitting it on `/` gives day, month and year. */
  lemma DisplayedDateSplits(y: string, m: string, d: string)
    requires '-' !in y && '-' !in m && '-' !in d
    requires '/' !in y && '/' !in m && '/' !in d
    ensures Split(FormatarData(Some(y + "-" + m + "-" + d)), '/') == [d, m, y]
  {
    FormatarDataPieces(y, m, d);
    SplitThree(d, m, y, '/');
  }

  /** A date without `-` fills the missing day and month with `undefined`. */
  lemma FormatarDataWithoutDash(s: string)
    requires s != "" && '-' !in s
    ensures FormatarData(Some(s)) == "undefined/undefined/" + s
  {
    SplitNoSeparator(s, '-');
  }

  /** The value field as typed: the first comma becomes a decimal point. */
  function ValorDigitado(text: string): (r: string)
    ensures |r| == |text|
    ensures ',' !in text ==> r == text
  {
    ReplaceFirstChar(text, ',', '.')
  }

  /** Only the first comma is read as the decimal point. */
  lemma FirstCommaBecomesPoint(a: string, b: string)
    requires ',' !in a
    ensures ValorDigitado(a + "," + b) == a + "." + b
  {
    var s := a + "," + b;
    assert s[..|a|] == a && s[|a|] == ',' && s[|a| + 1..] == b;
    ReplaceFirstCharAt(s, ',', '.', |a|);
  }

  /** The combined form: expense fields and revenue fields side by side, all text. */
  datatype Formulario = Formulario(
    descricao: string, valor: string, data: string, categoria: string, tipo: string,
    observacoes: string, paciente: string, procedimento: string, formaPagamento: string, tipoPessoa: string)

  /** A stored entry of either kind; absent fields are `None`. */
  datatype Lancamento = Lancamento(
    descricao: Option<string>, valor: Option<int>, data: Option<string>, categoria: Option<string>,
    tipo: Option<string>, observacoes: Option<string>, paciente: Option<string>,
    procedimento: Option<string>, formaPagamento: Option<string>, tipoPessoa: Option<string>)

  /** The kind of entry the "new" button opens: an expense on the first tab, revenue elsewhere. */
  function TipoDoNovo(tab: int): (r: string)
    ensures r == "despesa" <==> tab == 0
    ensures r == "despesa" || r == "faturamento"
  {
    if tab == 0 then "despesa" else "faturamento"
  }

  /** The form a new entry opens with: a variable expense or a PF revenue dated today. */
  function NovoFormulario(hoje: string): (r: Formulario)
    ensures r.data == hoje && r.tipo == "variavel" && r.tipoPessoa == "PF"
    ensures r.valor == "" && r.descricao == "" && r.categoria == "" && r.paciente == ""
    ensures r.observacoes == "" && r.procedimento == "" && r.formaPagamento == ""
  {
    Formulario("", "", hoje, "", "variavel", "", "", "", "", "PF")
  }

  /** `x || fallback` for an optional text. */
  function OrElse(x: Option<string>, fallback: string): (r: string)
    ensures x.Some? && x.value != "" ==> r == x.value
    ensures x.None? || x.value == "" ==> r == fallback
  {
    if x.Some? && x.value != "" then x.value else fallback
  }

  /** The form an edit opens with: the entry's fields, each with its fallback. */
  function FormularioEdicao(item: Lancamento, hoje: string): (r: Formulario)
    ensures r.valor == AmountText(item.valor)
    ensures r.data == OrElse(item.data, hoje) && r.tipo == OrElse(item.tipo, "variavel")
    ensures r.tipoPessoa == OrElse(item.tipoPessoa, "PF")
  {
    Formulario(OrElse(item.descricao, ""), AmountText(item.valor), OrElse(item.data, hoje),
               OrElse(item.categoria, ""), OrElse(item.tipo, "variavel"), OrElse(item.observacoes, ""),
               OrElse(item.paciente, ""), OrElse(item.procedimento, ""), OrElse(item.formaPagamento, ""),
               OrElse(item.tipoPessoa, "PF"))
  }

  /** The record sent: the expense fields, or the revenue fields (the procedure is never sent). */
  datatype Payload =
    | DespesaPayload(descricao: string, valor: real, data: string, categoria: string, tipo: string, observacoes: string)
    | ReceitaPayload(descricao: string, valor: real, data: string, paciente: string, formaPagamento: string,
                     tipoPessoa: string, observacoes: string)

  datatype Outcome = Invalid(message: string) | Send(payload: Payload)

  const MsgValor: string := "O campo Valor deve ser um número válido."

  /**
   * `handleSubmit`: only a value that does not read as a number is refused;
   * an expense modal sends the expense fields, any other the revenue fields.
   */
  function Submit(modalTipo: string, f: Formulario): (r: Outcome)
    ensures r.Invalid? <==> ParseFloat(f.valor).None?
    ensures r.Invalid? ==> r.message == MsgValor
    ensures r.Send? ==> Some(r.payload.valor) == ParseFloat(f.valor)
    ensures r.Send? ==> (r.payload.DespesaPayload? <==> modalTipo == "despesa")
    ensures r.Send? && r.payload.DespesaPayload? ==> r.payload.categoria == f.categoria && r.payload.tipo == f.tipo
    ensures r.Send? && r.payload.ReceitaPayload? ==>
      r.payload.paciente == f.paciente && r.payload.formaPagamento == f.formaPagamento && r.payload.tipoPessoa == f.tipoPessoa
    ensures r.Send? ==> r.payload.descricao == f.descricao && r.payload.data == f.data && r.payload.observacoes == f.observacoes
  {
    match ParseFloat(f.valor)
    case None => Invalid(MsgValor)
    case Some(v) =>
      if modalTipo == "despesa" then
        Send(DespesaPayload(f.descricao, v, f.data, f.categoria, f.tipo, f.observacoes))
      else
        Send(ReceitaPayload(f.descricao, v, f.data, f.paciente, f.formaPagamento, f.tipoPessoa, f.observacoes))
  }

  /** Unlike the expense screen, a zero or negative value is accepted here. */
  lemma NonPositiveAccepted(modalTipo: string, f: Formulario, c: int)
    requires c <= 0 && f.valor == NumberText(c)
    ensures var r := Submit(modalTipo, f); r.Send? && r.payload.valor == c as real / 100.0 && r.payload.valor <= 0.0
  {
    ParseNumberText(c);
  }

  /** Saving an edited entry unchanged sends its value back, unless the value was zero or missing. */
  lemma EditUnchangedResends(modalTipo: string, item: Lancamento, hoje: string)
    ensures var r := Submit(modalTipo, FormularioEdicao(item, hoje));
      (r.Send? <==> item.valor.Some? && item.valor.value != 0) &&
      (r.Send? ==> r.payload.valor == AmountOf(item.valor))
  {
    ReadAmountText(item.valor);
  }
}
