/**
 * The administrator's clinic registration (src/screens/admin/CadastroClinica.js):
 * the CNPJ, CPF and phone masks, the field-change rules, the ordered
 * validation and the clinic record sent to the service.
 */
module CadastroClinica {
  import opened Seqs
  import opened Text
  import opened Masks
  import opened RegistrationMasks
  import opened Validation

  /** `formatarCNPJ`. */
  function FormatarCnpj(value: string): string {
    CnpjMaskChain(OnlyDigits(value))
  }

  /** `formatarCPF`. */
  function FormatarCpf(value: string): string {
    CpfMaskChain(OnlyDigits(value))
  }

  /** `formatarTelefone`. */
  function FormatarTelefone(value: string): string {
    PhoneMaskChain(OnlyDigits(value))
  }

  /** The CNPJ mask lays the digits typed out as `00.000.000/0000-00` and is never longer. */
  lemma FormatarCnpjLayout(value: string)
    ensures FormatarCnpj(value) == Template(OnlyDigits(value), CnpjTemplate)
    ensures |FormatarCnpj(value)| <= 18
  {
    CnpjMaskFillsLayout(OnlyDigits(value));
    TemplateLength(OnlyDigits(value), CnpjTemplate);
  }

  /** The CPF mask lays the digits typed out as `000.000.000-00` and is never longer. */
  lemma FormatarCpfLayout(value: string)
    ensures FormatarCpf(value) == Template(OnlyDigits(value), CpfTemplate)
    ensures |FormatarCpf(value)| <= 14
  {
    CpfMaskFillsLayout(OnlyDigits(value));
    TemplateLength(OnlyDigits(value), CpfTemplate);
  }

  /**
   * The phone mask lays the digits typed out as `(00) 00000-0000` from three
   * digits on, shows one or two digits bare, and is never longer than the layout.
   */
  lemma FormatarTelefoneLayout(value: string)
    ensures |OnlyDigits(value)| <= 2 ==> FormatarTelefone(value) == OnlyDigits(value)
    ensures |OnlyDigits(value)| > 2 ==> FormatarTelefone(value) == Template(OnlyDigits(value), PhoneTemplate)
    ensures |FormatarTelefone(value)| <= 15
  {
    PhoneMaskFillsLayout(OnlyDigits(value));
    TemplateLength(OnlyDigits(value), PhoneTemplate);
  }

  /** The CNPJ mask keeps the first fourteen digits typed. */
  lemma CnpjMaskKeepsDigits(value: string)
    ensures OnlyDigits(FormatarCnpj(value)) == Take(OnlyDigits(value), 14)
  {
    FormatarCnpjLayout(value);
    CnpjIsTemplate();
    CnpjTemplateSlots();
    TemplateKeepsDigits(OnlyDigits(value), CnpjTemplate);
  }

  /** The CPF mask keeps the first eleven digits typed. */
  lemma CpfMaskKeepsDigits(value: string)
    ensures OnlyDigits(FormatarCpf(value)) == Take(OnlyDigits(value), 11)
  {
    FormatarCpfLayout(value);
    CpfIsTemplate();
    CpfTemplateSlots();
    TemplateKeepsDigits(OnlyDigits(value), CpfTemplate);
  }

  /** The phone mask keeps the first eleven digits typed. */
  lemma PhoneMaskKeepsDigits(value: string)
    ensures OnlyDigits(FormatarTelefone(value)) == Take(OnlyDigits(value), 11)
  {
    FormatarTelefoneLayout(value);
    PhoneIsTemplate();
    PhoneTemplateSlots();
    TemplateKeepsDigits(OnlyDigits(value), PhoneTemplate);
  }

  /** The clinic form. */
  datatype ClinicaForm = ClinicaForm(nome: string, tipoPessoa: string, cpf: string, cnpj: string, telefone: string)

  datatype Field = Nome | TipoPessoa | Cpf | Cnpj | Telefone

  function Get(form: ClinicaForm, f: Field): string {
    match f
    case Nome => form.nome
    case TipoPessoa => form.tipoPessoa
    case Cpf => form.cpf
    case Cnpj => form.cnpj
    case Telefone => form.telefone
  }

  /** The screen's state: the form and the error on display. */
  datatype Screen = Screen(form: ClinicaForm, erro: string)

  const InitialForm: ClinicaForm := ClinicaForm("", "PJ", "", "", "")

  /** `handleChange`: only the named field changes, and the error is cleared. */
  function HandleChange(s: Screen, f: Field, value: string): (r: Screen)
    ensures Get(r.form, f) == value
    ensures forall g :: g != f ==> Get(r.form, g) == Get(s.form, g)
    ensures r.erro == ""
  {
    var form := match f
      case Nome => s.form.(nome := value)
      case TipoPessoa => s.form.(tipoPessoa := value)
      case Cpf => s.form.(cpf := value)
      case Cnpj => s.form.(cnpj := value)
      case Telefone => s.form.(telefone := value);
    Screen(form, "")
  }

  /** `handleCNPJChange`: the CNPJ field shows the masked input, and the error is cleared. */
  function HandleCnpjChange(s: Screen, value: string): (r: Screen)
    ensures r.form == s.form.(cnpj := FormatarCnpj(value)) && r.erro == ""
  {
    HandleChange(s, Cnpj, FormatarCnpj(value))
  }

  /** `handleCPFChange`: the CPF field shows the masked input, and the error is cleared. */
  function HandleCpfChange(s: Screen, value: string): (r: Screen)
    ensures r.form == s.form.(cpf := FormatarCpf(value)) && r.erro == ""
  {
    HandleChange(s, Cpf, FormatarCpf(value))
  }

  /** `handleTelefoneChange`: the phone field shows the masked input, and the error is cleared. */
  function HandleTelefoneChange(s: Screen, value: string): (r: Screen)
    ensures r.form == s.form.(telefone := FormatarTelefone(value)) && r.erro == ""
  {
    HandleChange(s, Telefone, FormatarTelefone(value))
  }

  const MsgNome: string := "Nome da clínica é obrigatório"
  const MsgCnpj: string := "CNPJ inválido. Digite os 14 dígitos"
  const MsgCpf: string := "CPF inválido. Digite os 11 dígitos"
  const MsgTelefone: string := "Telefone é obrigatório"
  const MsgTelefoneCurto: string := "Telefone inválido. Digite DDD + número"

  /** `validarFormulario`: the message of the first failed check, or none when all pass. */
  function ValidarFormulario(f: ClinicaForm): (r: Option<string>)
  {
    if Trim(f.nome) == "" then Some(MsgNome)
    else if f.tipoPessoa == "PJ" && (OnlyDigits(f.cnpj) == "" || |OnlyDigits(f.cnpj)| != 14) then Some(MsgCnpj)
    else if f.tipoPessoa == "PF" && (OnlyDigits(f.cpf) == "" || |OnlyDigits(f.cpf)| != 11) then Some(MsgCpf)
    else if Trim(f.telefone) == "" then Some(MsgTelefone)
    else if |OnlyDigits(f.telefone)| < 10 then Some(MsgTelefoneCurto)
    else None
  }

  /** The checks in the order the form runs them. */
  function Rules(f: ClinicaForm): (r: seq<Rule>)
    ensures |r| == 5
  {
    [ Rule(!IsBlank(f.nome), MsgNome),
      Rule(f.tipoPessoa != "PJ" || |OnlyDigits(f.cnpj)| == 14, MsgCnpj),
      Rule(f.tipoPessoa != "PF" || |OnlyDigits(f.cpf)| == 11, MsgCpf),
      Rule(!IsBlank(f.telefone), MsgTelefone),
      Rule(|OnlyDigits(f.telefone)| >= 10, MsgTelefoneCurto) ]
  }

  /** The validation reports exactly the first failed check, in the form's order. */
  lemma ValidarIsFirstFailure(f: ClinicaForm)
    ensures ValidarFormulario(f) == FirstFailure(Rules(f))
  {
    var rs := Rules(f);
    TrimEmptyIffBlank(f.nome);
    TrimEmptyIffBlank(f.telefone);
    FirstFailureEnds(rs);
    FirstFailureAt(rs, 0);
    FirstFailureAt(rs, 1);
    FirstFailureAt(rs, 2);
    FirstFailureAt(rs, 3);
    FirstFailureAt(rs, 4);
  }

  /** A masked phone with ten digits or more is neither blank nor short. */
  lemma MaskedPhonePasses(telefone: string)
    requires |OnlyDigits(telefone)| >= 10
    ensures !IsBlank(FormatarTelefone(telefone)) && |OnlyDigits(FormatarTelefone(telefone))| >= 10
  {
    var t := FormatarTelefone(telefone);
    assert |OnlyDigits(t)| >= 10 by {
      PhoneMaskKeepsDigits(telefone);
    }
    DigitNotBlank(t);
  }

  /**
   * With a name and a full phone number, the form is accepted exactly when the
   * document its person type asks for has all its digits.
   */
  lemma AcceptedByDocumentDigits(f: ClinicaForm)
    requires !IsBlank(f.nome) && !IsBlank(f.telefone) && |OnlyDigits(f.telefone)| >= 10
    ensures ValidarFormulario(f).None? <==>
      (f.tipoPessoa == "PJ" ==> |OnlyDigits(f.cnpj)| == 14) && (f.tipoPessoa == "PF" ==> |OnlyDigits(f.cpf)| == 11)
  {
    TrimEmptyIffBlank(f.nome);
    TrimEmptyIffBlank(f.telefone);
  }

  /** A form whose documents went through the masks is accepted exactly when enough digits were typed. */
  lemma MaskedFormAccepted(nome: string, tipo: string, cpf: string, cnpj: string, telefone: string)
    requires !IsBlank(nome) && |OnlyDigits(telefone)| >= 10
    ensures var f := ClinicaForm(nome, tipo, FormatarCpf(cpf), FormatarCnpj(cnpj), FormatarTelefone(telefone));
      ValidarFormulario(f).None? <==>
        (tipo == "PJ" ==> |OnlyDigits(cnpj)| >= 14) && (tipo == "PF" ==> |OnlyDigits(cpf)| >= 11)
  {
    var f := ClinicaForm(nome, tipo, FormatarCpf(cpf), FormatarCnpj(cnpj), FormatarTelefone(telefone));
    MaskedPhonePasses(telefone);
    AcceptedByDocumentDigits(f);
    assert |OnlyDigits(f.cnpj)| == 14 <==> |OnlyDigits(cnpj)| >= 14 by {
      CnpjMaskKeepsDigits(cnpj);
    }
    assert |OnlyDigits(f.cpf)| == 11 <==> |OnlyDigits(cpf)| >= 11 by {
      CpfMaskKeepsDigits(cpf);
    }
  }

  /** The record sent to the clinic service. */
  datatype DadosClinica = DadosClinica(
    nome: string, tipoPessoa: string, telefone: string, plano: string, limiteUsuarios: int,
    ativo: bool, cnpj: Option<string>, cpf: Option<string>)

  datatype Outcome = Invalid(message: string) | Send(dados: DadosClinica)

  /**
   * `handleSubmit`: the validation message, or the record with the name
   * trimmed, the free plan for three users, and either the CNPJ (for PJ) or the
   * CPF (otherwise) as bare digits.
   */
  function HandleSubmit(f: ClinicaForm): (r: Outcome)
    ensures r.Invalid? <==> ValidarFormulario(f).Some?
    ensures r.Invalid? ==> r.message == ValidarFormulario(f).value
    ensures r.Send? ==> r.dados.nome == Trim(f.nome) && r.dados.tipoPessoa == f.tipoPessoa
                        && r.dados.telefone == f.telefone
    ensures r.Send? ==> r.dados.plano == "FREE" && r.dados.limiteUsuarios == 3 && r.dados.ativo
    ensures r.Send? ==> (r.dados.cnpj.Some? <==> f.tipoPessoa == "PJ") && (r.dados.cpf.Some? <==> f.tipoPessoa != "PJ")
    ensures r.Send? && r.dados.cnpj.Some? ==> r.dados.cnpj.value == OnlyDigits(f.cnpj) && |r.dados.cnpj.value| == 14
    ensures r.Send? && r.dados.cpf.Some? ==> r.dados.cpf.value == OnlyDigits(f.cpf)
    ensures r.Send? && f.tipoPessoa == "PF" ==> |r.dados.cpf.value| == 11
  {
    match ValidarFormulario(f)
    case Some(m) => Invalid(m)
    case None =>
      var base := DadosClinica(Trim(f.nome), f.tipoPessoa, f.telefone, "FREE", 3, true, None, None);
      if f.tipoPessoa == "PJ" then Send(base.(cnpj := Some(OnlyDigits(f.cnpj))))
      else Send(base.(cpf := Some(OnlyDigits(f.cpf))))
  }
}
