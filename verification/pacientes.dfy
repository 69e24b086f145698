/**
 * The patient register (src/screens/usuario/Pacientes.js): the CPF/CNPJ
 * mask, the form's change rules, the search filter and the submit guard.
 */
module Pacientes {
  import opened Seqs
  import opened Text
  import opened Masks
  import opened Layouts

  /** The CPF chain: two dots after runs of three, then `-` before the last one or two digits. */
  function CpfChain(n: string): string {
    ReplaceTail(InsertAfterRun(InsertAfterRun(n, 3, "."), 3, "."), 3, '-')
  }

  /** The CNPJ chain: `.` after two, `.` and `/` after runs of three, then `-` before the last one or two digits. */
  function CnpjChain(n: string): string {
    ReplaceTail(InsertAfterRun(InsertAfterRun(InsertAfterRun(n, 2, "."), 3, "."), 3, "/"), 4, '-')
  }

  lemma CpfFirstDot(d: string)
    requires AllDigits(d)
    ensures |d| <= 3 ==> InsertAfterRun(d, 3, ".") == d
    ensures |d| >= 4 ==> InsertAfterRun(d, 3, ".") == d[..3] + "." + d[3..]
  {
    if |d| >= 4 {
      InsertAfterRunAt(d, 3, ".", 0, 3);
    } else {
      InsertAfterRunNone(d, 3, ".");
    }
  }

  lemma CpfSecondDotAt(d: string)
    requires AllDigits(d) && |d| >= 7
    ensures InsertAfterRun(d[..3] + "." + d[3..], 3, ".") == d[..3] + "." + d[3..6] + "." + d[6..]
  {
    var s1 := d[..3] + "." + d[3..];
    assert InsertAfterRun(s1, 3, ".") == s1[..7] + "." + s1[7..] by {
      CpfDotPunctuation(d, s1);
      NonDigitBlocks(s1, 4, 3);
      assert RunAndDigit(3) == Digits(4);
      InsertAfterRunAt(s1, 3, ".", 4, 7);
    }
    CpfDotSlices(d, s1);
  }

  lemma CpfSecondDotNone(d: string)
    requires AllDigits(d) && 4 <= |d| <= 6
    ensures InsertAfterRun(d[..3] + "." + d[3..], 3, ".") == d[..3] + "." + d[3..]
  {
    var s1 := d[..3] + "." + d[3..];
    assert s1[3] == '.';
    NonDigitBlocks(s1, 4, 3);
    assert RunAndDigit(3) == Digits(4);
    InsertAfterRunNone(s1, 3, ".");
  }

  lemma CpfSecondDot(d: string)
    requires AllDigits(d) && |d| >= 4
    ensures var s1 := d[..3] + "." + d[3..];
      (|d| <= 6 ==> InsertAfterRun(s1, 3, ".") == s1) &&
      (|d| >= 7 ==> InsertAfterRun(s1, 3, ".") == d[..3] + "." + d[3..6] + "." + d[6..])
  {
    if |d| >= 7 {
      CpfSecondDotAt(d);
    } else {
      CpfSecondDotNone(d);
    }
  }

  lemma CpfDash(d: string)
    requires AllDigits(d) && 10 <= |d| <= 11
    ensures ReplaceTail(d[..3] + "." + d[3..6] + "." + d[6..], 3, '-') ==
            d[..3] + "." + d[3..6] + "." + d[6..9] + "-" + d[9..]
  {
    var s2 := d[..3] + "." + d[3..6] + "." + d[6..];
    assert s2[7] == '.';
    assert s2[8..] == d[6..];
    assert s2[..11] == d[..3] + "." + d[3..6] + "." + d[6..9];
    assert s2[11..] == d[9..];
    if |d| == 10 {
      assert s2[|s2| - 5..][0] == '.';
    }
  }

  lemma CpfChainUpTo6(d: string)
    requires AllDigits(d) && |d| <= 6
    ensures |d| <= 3 ==> CpfChain(d) == d
    ensures 3 < |d| ==> CpfChain(d) == d[..3] + "." + d[3..]
  {
    CpfFirstDot(d);
    if |d| <= 3 {
      InsertAfterRunNone(d, 3, ".");
    } else {
      var s1 := d[..3] + "." + d[3..];
      CpfSecondDot(d);
      TailBlocked(s1, 3, 3, '-');
    }
  }

  lemma CpfChainUpTo9(d: string)
    requires AllDigits(d) && 6 < |d| <= 9
    ensures CpfChain(d) == d[..3] + "." + d[3..6] + "." + d[6..]
  {
    var s2 := d[..3] + "." + d[3..6] + "." + d[6..];
    CpfFirstDot(d);
    CpfSecondDot(d);
    assert s2[7] == '.';
    TailBlocked(s2, 3, 7, '-');
  }

  lemma CpfChainUpTo11(d: string)
    requires AllDigits(d) && 9 < |d| <= 11
    ensures CpfChain(d) == d[..3] + "." + d[3..6] + "." + d[6..9] + "-" + d[9..]
  {
    CpfFirstDot(d);
    CpfSecondDot(d);
    CpfDash(d);
  }

  lemma CnpjFirstDot(d: string)
    requires AllDigits(d)
    ensures |d| <= 2 ==> InsertAfterRun(d, 2, ".") == d
    ensures |d| >= 3 ==> InsertAfterRun(d, 2, ".") == d[..2] + "." + d[2..]
  {
    if |d| >= 3 {
      InsertAfterRunAt(d, 2, ".", 0, 2);
    } else {
      InsertAfterRunNone(d, 2, ".");
    }
  }

  lemma CnpjSecondDotAt(d: string)
    requires AllDigits(d) && |d| >= 6
    ensures InsertAfterRun(d[..2] + "." + d[2..], 3, ".") == d[..2] + "." + d[2..5] + "." + d[5..]
  {
    var s1 := d[..2] + "." + d[2..];
    assert InsertAfterRun(s1, 3, ".") == s1[..6] + "." + s1[6..] by {
      CnpjDotPunctuation(d, s1);
      NonDigitBlocks(s1, 4, 2);
      assert RunAndDigit(3) == Digits(4);
      InsertAfterRunAt(s1, 3, ".", 3, 6);
    }
    CnpjDotSlices(d, s1);
  }

  lemma CnpjSecondDotNone(d: string)
    requires AllDigits(d) && 3 <= |d| <= 5
    ensures InsertAfterRun(d[..2] + "." + d[2..], 3, ".") == d[..2] + "." + d[2..]
  {
    var s1 := d[..2] + "." + d[2..];
    assert s1[2] == '.';
    NonDigitBlocks(s1, 4, 2);
    assert RunAndDigit(3) == Digits(4);
    InsertAfterRunNone(s1, 3, ".");
  }

  lemma CnpjSecondDot(d: string)
    requires AllDigits(d) && |d| >= 3
    ensures var s1 := d[..2] + "." + d[2..];
      (|d| <= 5 ==> InsertAfterRun(s1, 3, ".") == s1) &&
      (|d| >= 6 ==> InsertAfterRun(s1, 3, ".") == d[..2] + "." + d[2..5] + "." + d[5..])
  {
    if |d| >= 6 {
      CnpjSecondDotAt(d);
    } else {
      CnpjSecondDotNone(d);
    }
  }

  lemma CnpjSlashAt(d: string)
    requires AllDigits(d) && |d| >= 9
    ensures InsertAfterRun(d[..2] + "." + d[2..5] + "." + d[5..], 3, "/") ==
            d[..2] + "." + d[2..5] + "." + d[5..8] + "/" + d[8..]
  {
    var s2 := d[..2] + "." + d[2..5] + "." + d[5..];
    assert InsertAfterRun(s2, 3, "/") == s2[..10] + "/" + s2[10..] by {
      CnpjDotsPunctuation(d, s2);
      NonDigitBlocks(s2, 4, 2);
      NonDigitBlocks(s2, 4, 6);
      assert RunAndDigit(3) == Digits(4);
      InsertAfterRunAt(s2, 3, "/", 7, 10);
    }
    CnpjDotsSlices(d, s2);
  }

  lemma CnpjSlashNone(d: string)
    requires AllDigits(d) && 6 <= |d| <= 8
    ensures var s2 := d[..2] + "." + d[2..5] + "." + d[5..];
      InsertAfterRun(s2, 3, "/") == s2
  {
    var s2 := d[..2] + "." + d[2..5] + "." + d[5..];
    assert s2[2] == '.' && s2[6] == '.';
    NonDigitBlocks(s2, 4, 2);
    NonDigitBlocks(s2, 4, 6);
    assert RunAndDigit(3) == Digits(4);
    InsertAfterRunNone(s2, 3, "/");
  }

  lemma CnpjSlash(d: string)
    requires AllDigits(d) && |d| >= 6
    ensures var s2 := d[..2] + "." + d[2..5] + "." + d[5..];
      (|d| <= 8 ==> InsertAfterRun(s2, 3, "/") == s2) &&
      (|d| >= 9 ==> InsertAfterRun(s2, 3, "/") == d[..2] + "." + d[2..5] + "." + d[5..8] + "/" + d[8..])
  {
    if |d| >= 9 {
      CnpjSlashAt(d);
    } else {
      CnpjSlashNone(d);
    }
  }

  lemma CnpjDash(d: string)
    requires AllDigits(d) && 13 <= |d| <= 14
    ensures ReplaceTail(d[..2] + "." + d[2..5] + "." + d[5..8] + "/" + d[8..], 4, '-') ==
            d[..2] + "." + d[2..5] + "." + d[5..8] + "/" + d[8..12] + "-" + d[12..]
  {
    var s3 := d[..2] + "." + d[2..5] + "." + d[5..8] + "/" + d[8..];
    assert s3[10] == '/';
    assert s3[11..] == d[8..];
    assert s3[..15] == d[..2] + "." + d[2..5] + "." + d[5..8] + "/" + d[8..12];
    assert s3[15..] == d[12..];
    if |d| == 13 {
      assert s3[|s3| - 6..][0] == '/';
    }
  }

  lemma CnpjChainUpTo2(d: string)
    requires AllDigits(d) && |d| <= 2
    ensures CnpjChain(d) == d
  {
    CnpjFirstDot(d);
    InsertAfterRunNone(d, 3, ".");
    InsertAfterRunNone(d, 3, "/");
  }

  lemma CnpjChainUpTo5(d: string)
    requires AllDigits(d) && 2 < |d| <= 5
    ensures CnpjChain(d) == d[..2] + "." + d[2..]
  {
    var s1 := d[..2] + "." + d[2..];
    CnpjFirstDot(d);
    CnpjSecondDot(d);
    assert s1[2] == '.';
    NonDigitBlocks(s1, 4, 2);
    assert RunAndDigit(3) == Digits(4);
    InsertAfterRunNone(s1, 3, "/");
    TailBlocked(s1, 4, 2, '-');
  }

  lemma CnpjChainUpTo8(d: string)
    requires AllDigits(d) && 5 < |d| <= 8
    ensures CnpjChain(d) == d[..2] + "." + d[2..5] + "." + d[5..]
  {
    var s1 := d[..2] + "." + d[2..];
    var s2 := d[..2] + "." + d[2..5] + "." + d[5..];
    assert InsertAfterRun(d, 2, ".") == s1 by { CnpjFirstDot(d); }
    assert InsertAfterRun(s1, 3, ".") == s2 by { CnpjSecondDot(d); }
    assert InsertAfterRun(s2, 3, "/") == s2 by { CnpjSlash(d); }
    CnpjNoDashUpTo8(d);
  }

  /** Up to eight digits the second dot is too close to the end for the dash. */
  lemma CnpjNoDashUpTo8(d: string)
    requires AllDigits(d) && 5 < |d| <= 8
    ensures var s2 := d[..2] + "." + d[2..5] + "." + d[5..];
      ReplaceTail(s2, 4, '-') == s2
  {
    var s2 := d[..2] + "." + d[2..5] + "." + d[5..];
    assert s2[6] == '.';
    TailBlocked(s2, 4, 6, '-');
  }

  lemma CnpjChainUpTo12(d: string)
    requires AllDigits(d) && 8 < |d| <= 12
    ensures CnpjChain(d) == d[..2] + "." + d[2..5] + "." + d[5..8] + "/" + d[8..]
  {
    var s1 := d[..2] + "." + d[2..];
    var s2 := d[..2] + "." + d[2..5] + "." + d[5..];
    var s3 := d[..2] + "." + d[2..5] + "." + d[5..8] + "/" + d[8..];
    assert InsertAfterRun(d, 2, ".") == s1 by { CnpjFirstDot(d); }
    assert InsertAfterRun(s1, 3, ".") == s2 by { CnpjSecondDot(d); }
    assert InsertAfterRun(s2, 3, "/") == s3 by { CnpjSlash(d); }
    CnpjNoDashUpTo12(d);
  }

  /** Up to twelve digits the slash is too close to the end for the dash. */
  lemma CnpjNoDashUpTo12(d: string)
    requires AllDigits(d) && 8 < |d| <= 12
    ensures var s3 := d[..2] + "." + d[2..5] + "." + d[5..8] + "/" + d[8..];
      ReplaceTail(s3, 4, '-') == s3
  {
    var s3 := d[..2] + "." + d[2..5] + "." + d[5..8] + "/" + d[8..];
    assert s3[10] == '/';
    TailBlocked(s3, 4, 10, '-');
  }

  lemma CnpjChainUpTo14(d: string)
    requires AllDigits(d) && 12 < |d| <= 14
    ensures CnpjChain(d) == d[..2] + "." + d[2..5] + "." + d[5..8] + "/" + d[8..12] + "-" + d[12..]
  {
    CnpjFirstDot(d);
    CnpjSecondDot(d);
    CnpjSlash(d);
    CnpjDash(d);
  }

  lemma CnpjFillsUpTo5(d: string)
    requires AllDigits(d) && |d| <= 5
    ensures CnpjChain(d) == Template(d, CnpjTemplate)
  {
    if |d| <= 2 {
      CnpjChainUpTo2(d);
      CnpjLayoutUpTo2(d, CnpjTemplate);
    } else {
      CnpjChainUpTo5(d);
      CnpjLayoutUpTo8(d, CnpjTemplate);
      Assoc3(d[..2], ".", d[2..]);
    }
  }

  lemma CnpjFillsUpTo8(d: string)
    requires AllDigits(d) && 5 < |d| <= 8
    ensures CnpjChain(d) == Template(d, CnpjTemplate)
  {
    CnpjChainUpTo8(d);
    CnpjLayoutUpTo8(d, CnpjTemplate);
    Assoc5(d[..2], ".", d[2..5], ".", d[5..]);
  }

  lemma CnpjFillsUpTo12(d: string)
    requires AllDigits(d) && 8 < |d| <= 12
    ensures CnpjChain(d) == Template(d, CnpjTemplate)
  {
    CnpjChainUpTo12(d);
    CnpjLayoutUpTo12(d, CnpjTemplate);
    Assoc7(d[..2], ".", d[2..5], ".", d[5..8], "/", d[8..]);
  }

  lemma CnpjFillsUpTo14(d: string)
    requires AllDigits(d) && 12 < |d| <= 14
    ensures CnpjChain(d) == Template(d, CnpjTemplate)
  {
    CnpjChainUpTo14(d);
    CnpjLayoutFull(d, CnpjTemplate);
    assert Take(d[12..], 2) == d[12..];
    Assoc9(d[..2], ".", d[2..5], ".", d[5..8], "/", d[8..12], "-", d[12..]);
  }

  /** For up to fourteen digits the CNPJ chain fills the CNPJ layout. */
  lemma CnpjChainFillsTemplate(d: string)
    requires AllDigits(d) && |d| <= 14
    ensures CnpjChain(d) == Template(d, CnpjTemplate)
  {
    if |d| <= 5 {
      CnpjFillsUpTo5(d);
    } else if |d| <= 8 {
      CnpjFillsUpTo8(d);
    } else if |d| <= 12 {
      CnpjFillsUpTo12(d);
    } else {
      CnpjFillsUpTo14(d);
    }
  }

  /** For up to eleven digits the CPF chain fills the CPF layout. */
  lemma CpfChainFillsTemplate(d: string)
    requires AllDigits(d) && |d| <= 11
    ensures CpfChain(d) == Template(d, CpfTemplate)
  {
    if |d| <= 3 {
      CpfChainUpTo6(d);
      CpfLayoutUpTo6(d, CpfTemplate);
    } else if |d| <= 6 {
      CpfChainUpTo6(d);
      CpfLayoutUpTo6(d, CpfTemplate);
      Assoc3(d[..3], ".", d[3..]);
    } else if |d| <= 9 {
      CpfChainUpTo9(d);
      CpfLayoutUpTo9(d, CpfTemplate);
      Assoc5(d[..3], ".", d[3..6], ".", d[6..]);
    } else {
      CpfChainUpTo11(d);
      CpfLayoutFull(d, CpfTemplate);
      assert Take(d[9..], 2) == d[9..];
      Assoc7(d[..3], ".", d[3..6], ".", d[6..9], "-", d[9..]);
    }
  }

  /**
   * `formatarCPFCNPJ(valor, tipo)`: the digits of the input, masked as a CPF
   * for 'PF' and as a CNPJ for any other type; an input with more digits than
   * the document has comes back unchanged.
   */
  function FormatarCpfCnpj(valor: string, tipo: string): (r: string)
    ensures tipo == "PF" && |OnlyDigits(valor)| <= 11 ==> r == Template(OnlyDigits(valor), CpfTemplate)
    ensures tipo != "PF" && |OnlyDigits(valor)| <= 14 ==> r == Template(OnlyDigits(valor), CnpjTemplate)
    ensures tipo == "PF" && |OnlyDigits(valor)| > 11 ==> r == valor
    ensures tipo != "PF" && |OnlyDigits(valor)| > 14 ==> r == valor
  {
    var numeros := OnlyDigits(valor);
    if tipo == "PF" then
      if |numeros| <= 11 then
        CpfChainFillsTemplate(numeros);
        CpfChain(numeros)
      else valor
    else
      if |numeros| <= 14 then
        CnpjChainFillsTemplate(numeros);
        CnpjChain(numeros)
      else valor
  }

  /** Deleting the separators from the mask's output gives back exactly the input's digits. */
  lemma FormatarKeepsDigits(valor: string, tipo: string)
    ensures OnlyDigits(FormatarCpfCnpj(valor, tipo)) == OnlyDigits(valor)
  {
    var n := OnlyDigits(valor);
    if tipo == "PF" && |n| <= 11 {
      CpfIsTemplate();
      CpfTemplateSlots();
      TemplateKeepsDigits(n, CpfTemplate);
    } else if tipo != "PF" && |n| <= 14 {
      CnpjIsTemplate();
      CnpjTemplateSlots();
      TemplateKeepsDigits(n, CnpjTemplate);
    }
  }

  /** The masked document never outgrows its layout. */
  lemma FormatarLength(valor: string, tipo: string)
    ensures tipo == "PF" && |OnlyDigits(valor)| <= 11 ==> |FormatarCpfCnpj(valor, tipo)| <= 14
    ensures tipo != "PF" && |OnlyDigits(valor)| <= 14 ==> |FormatarCpfCnpj(valor, tipo)| <= 18
  {
    TemplateLength(OnlyDigits(valor), CpfTemplate);
    TemplateLength(OnlyDigits(valor), CnpjTemplate);
  }

  /** Re-masking an already masked value changes nothing, so each keystroke sees a stable field. */
  lemma FormatarIdempotent(valor: string, tipo: string)
    ensures FormatarCpfCnpj(FormatarCpfCnpj(valor, tipo), tipo) == FormatarCpfCnpj(valor, tipo)
  {
    FormatarKeepsDigits(valor, tipo);
  }

  /** The fields of the patient form that take text. */
  datatype Field = Nome | CpfCnpj | TipoPessoa | Email | Telefone | Cep | Logradouro | Numero
                 | Complemento | Bairro | Cidade | Estado | Observacoes

  /** The patient form. */
  datatype PacienteForm = PacienteForm(
    nome: string, cpfCnpj: string, tipoPessoa: string, email: string, telefone: string,
    cep: string, logradouro: string, numero: string, complemento: string, bairro: string,
    cidade: string, estado: string, observacoes: string, ativo: bool)
  {
    function Get(f: Field): string {
      match f
      case Nome => nome
      case CpfCnpj => cpfCnpj
      case TipoPessoa => tipoPessoa
      case Email => email
      case Telefone => telefone
      case Cep => cep
      case Logradouro => logradouro
      case Numero => numero
      case Complemento => complemento
      case Bairro => bairro
      case Cidade => cidade
      case Estado => estado
      case Observacoes => observacoes
    }

    /** `{ ...formData, [f]: v }`. */
    function Set(f: Field, v: string): (r: PacienteForm)
      ensures r.Get(f) == v
      ensures forall g :: g != f ==> r.Get(g) == Get(g)
      ensures r.ativo == ativo
    {
      match f
      case Nome => this.(nome := v)
      case CpfCnpj => this.(cpfCnpj := v)
      case TipoPessoa => this.(tipoPessoa := v)
      case Email => this.(email := v)
      case Telefone => this.(telefone := v)
      case Cep => this.(cep := v)
      case Logradouro => this.(logradouro := v)
      case Numero => this.(numero := v)
      case Complemento => this.(complemento := v)
      case Bairro => this.(bairro := v)
      case Cidade => this.(cidade := v)
      case Estado => this.(estado := v)
      case Observacoes => this.(observacoes := v)
    }
  }

  /** The form a new patient starts from. */
  function NewForm(): (r: PacienteForm)
    ensures forall f :: f != TipoPessoa ==> r.Get(f) == ""
    ensures r.tipoPessoa == "PF" && r.ativo
  {
    PacienteForm("", "", "PF", "", "", "", "", "", "", "", "", "", "", true)
  }

  /**
   * `handleChange(name, value)`: the document is re-masked for the current
   * person type, a new person type clears the document, the state is
   * upper-cased, and every other field is stored as typed.
   */
  function HandleChange(form: PacienteForm, f: Field, value: string): (r: PacienteForm)
    ensures f == CpfCnpj ==> r.cpfCnpj == FormatarCpfCnpj(value, form.tipoPessoa)
    ensures f == TipoPessoa ==> r.tipoPessoa == value && r.cpfCnpj == ""
    ensures f == Estado ==> r.estado == ToUpper(value)
    ensures f != CpfCnpj && f != TipoPessoa && f != Estado ==> r.Get(f) == value
    ensures forall g :: g != f && !(f == TipoPessoa && g == CpfCnpj) ==> r.Get(g) == form.Get(g)
    ensures r.ativo == form.ativo
  {
    if f == CpfCnpj then form.Set(CpfCnpj, FormatarCpfCnpj(value, form.tipoPessoa))
    else if f == TipoPessoa then form.Set(TipoPessoa, value).Set(CpfCnpj, "")
    else if f == Estado then form.Set(Estado, ToUpper(value))
    else form.Set(f, value)
  }

  /** Typing into the document field keeps exactly the digits typed. */
  lemma DocumentKeepsTypedDigits(form: PacienteForm, value: string)
    ensures OnlyDigits(HandleChange(form, CpfCnpj, value).cpfCnpj) == OnlyDigits(value)
  {
    FormatarKeepsDigits(value, form.tipoPessoa);
  }

  /** A patient as listed: the name and the document may be missing. */
  datatype Paciente = Paciente(id: nat, nome: Option<string>, cpfCnpj: Option<string>)

  /**
   * The search test: the lower-cased name contains the lower-cased term, or a
   * non-empty document contains the term as typed.
   */
  predicate MatchesSearch(p: Paciente, pesquisa: string) {
    (p.nome.Some? && Contains(ToLower(p.nome.value), ToLower(pesquisa)))
    || (p.cpfCnpj.Some? && p.cpfCnpj.value != "" && Contains(p.cpfCnpj.value, pesquisa))
  }

  /** `pacientesFiltrados`. */
  function PacientesFiltrados(pacientes: seq<Paciente>, pesquisa: string): (r: seq<Paciente>)
    ensures forall p :: p in r <==> p in pacientes && MatchesSearch(p, pesquisa)
    ensures IsSubsequence(r, pacientes)
  {
    FilterIsSubsequence(pacientes, p => MatchesSearch(p, pesquisa));
    Filter(pacientes, p => MatchesSearch(p, pesquisa))
  }

  /** The name test ignores the case of the term; the document test does not. */
  lemma NameSearchIgnoresCase(p: Paciente, pesquisa: string)
    requires p.cpfCnpj.None?
    ensures MatchesSearch(p, ToUpper(pesquisa)) == MatchesSearch(p, pesquisa)
  {
    LowerUpper(pesquisa);
  }

  /** An empty term keeps every patient that has a name. */
  lemma EmptySearchKeepsNamed(pacientes: seq<Paciente>)
    ensures forall p :: p in pacientes && p.nome.Some? ==> p in PacientesFiltrados(pacientes, "")
  {
    forall p | p in pacientes && p.nome.Some?
      ensures MatchesSearch(p, "")
    {
      ContainsEmpty(ToLower(p.nome.value));
    }
  }

  /** What saving the form does. */
  datatype SubmitOutcome = Refused(message: string) | Create(form: PacienteForm) | Update(id: nat, form: PacienteForm)

  const NomeObrigatorio: string := "O nome é obrigatório."

  /** `handleSubmit`: an empty name is refused; otherwise the form is sent as it is. */
  function Submit(form: PacienteForm, editando: Option<nat>): (r: SubmitOutcome)
    ensures r.Refused? <==> form.nome == ""
    ensures r.Refused? ==> r.message == NomeObrigatorio
    ensures r.Create? <==> form.nome != "" && editando.None?
    ensures r.Update? <==> form.nome != "" && editando.Some?
    ensures r.Update? ==> r.id == editando.value
    ensures !r.Refused? ==> r.form == form
  {
    if form.nome == "" then Refused(NomeObrigatorio)
    else match editando
      case Some(id) => Update(id, form)
      case None => Create(form)
  }
}
