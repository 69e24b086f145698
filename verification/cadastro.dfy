/**
 * Self-registration of a clinic and its first dentist
 * (src/screens/Cadastro.js): the person-type options, the CNPJ mask and
 * digit check, the field-change rules, the ordered form validation and the
 * payload sent to `/auth/register`.
 */
module Cadastro {
  import opened Seqs
  import opened Text
  import opened Masks
  import opened RegistrationMasks
  import opened Validation

  /** The label of each person type the form offers; there are exactly three. */
  function TipoPessoaLabel(tipo: string): (r: Option<string>)
    ensures r.Some? <==> tipo == "PF" || tipo == "PJ" || tipo == "HIBRIDO"
  {
    if tipo == "PF" then Some("Pessoa Física")
    else if tipo == "PJ" then Some("Pessoa Jurídica (CNPJ)")
    else if tipo == "HIBRIDO" then Some("Híbrido (PF + PJ)")
    else None
  }

  /** `validarCNPJ`: exactly fourteen digits once everything else is removed. */
  predicate ValidarCnpj(cnpj: string) {
    |OnlyDigits(cnpj)| == 14
  }

  /** `formatarCNPJ`: the digits typed, laid out as `00.000.000/0000-00` and never longer. */
  function FormatarCnpj(value: string): (r: string)
    ensures r == Template(OnlyDigits(value), CnpjTemplate)
    ensures |r| <= 18
  {
    CnpjMaskFillsLayout(OnlyDigits(value));
    TemplateLength(OnlyDigits(value), CnpjTemplate);
    CnpjMaskChain(OnlyDigits(value))
  }

  /** The mask keeps the first fourteen digits typed and drops the rest. */
  lemma FormatarCnpjDigits(value: string)
    ensures OnlyDigits(FormatarCnpj(value)) == Take(OnlyDigits(value), 14)
  {
    CnpjIsTemplate();
    CnpjTemplateSlots();
    TemplateKeepsDigits(OnlyDigits(value), CnpjTemplate);
  }

  /** A masked CNPJ passes the digit check exactly when at least fourteen digits were typed. */
  lemma FormatarThenValidar(value: string)
    ensures ValidarCnpj(FormatarCnpj(value)) <==> |OnlyDigits(value)| >= 14
  {
    FormatarCnpjDigits(value);
  }

  /** The registration form. */
  datatype CadastroForm = CadastroForm(
    nomeClinica: string, tipoPessoa: string, cnpj: string, nome: string,
    email: string, senha: string, confirmarSenha: string)

  datatype Field = NomeClinica | TipoPessoa | Cnpj | Nome | Email | Senha | ConfirmarSenha

  function Get(form: CadastroForm, f: Field): string {
    match f
    case NomeClinica => form.nomeClinica
    case TipoPessoa => form.tipoPessoa
    case Cnpj => form.cnpj
    case Nome => form.nome
    case Email => form.email
    case Senha => form.senha
    case ConfirmarSenha => form.confirmarSenha
  }

  function Set(form: CadastroForm, f: Field, v: string): (r: CadastroForm)
    ensures Get(r, f) == v
    ensures forall g :: g != f ==> Get(r, g) == Get(form, g)
  {
    match f
    case NomeClinica => form.(nomeClinica := v)
    case TipoPessoa => form.(tipoPessoa := v)
    case Cnpj => form.(cnpj := v)
    case Nome => form.(nome := v)
    case Email => form.(email := v)
    case Senha => form.(senha := v)
    case ConfirmarSenha => form.(confirmarSenha := v)
  }

  /** The screen's state: the form and the error on display. */
  datatype Screen = Screen(form: CadastroForm, error: string)

  const InitialForm: CadastroForm := CadastroForm("", "PF", "", "", "", "", "")

  /**
   * `handleChange(name, value)`: the field takes the value; choosing PF also
   * clears the CNPJ; the error is cleared.
   */
  function HandleChange(s: Screen, f: Field, value: string): (r: Screen)
    ensures Get(r.form, f) == value
    ensures f == TipoPessoa && value == "PF" ==> r.form.cnpj == ""
    ensures forall g :: g != f && !(f == TipoPessoa && value == "PF" && g == Cnpj) ==>
              Get(r.form, g) == Get(s.form, g)
    ensures r.error == ""
  {
    var form := Set(s.form, f, value);
    Screen(if f == TipoPessoa && value == "PF" then Set(form, Cnpj, "") else form, "")
  }

  /** `handleCNPJChange`: the CNPJ field shows the masked input; the error stays. */
  function HandleCnpjChange(s: Screen, value: string): (r: Screen)
    ensures r.form == Set(s.form, Cnpj, FormatarCnpj(value))
    ensures r.error == s.error
  {
    s.(form := Set(s.form, Cnpj, FormatarCnpj(value)))
  }

  /** `\S+@\S+\.\S+` occurs somewhere in `s`. */
  predicate EmailLike(s: string) {
    exists p, q :: 1 <= p && p + 1 < q && q + 1 < |s| && s[p] == '@' && s[q] == '.'
      && !IsJsSpace(s[p - 1]) && !IsJsSpace(s[q + 1]) && NoSpaceBetween(s, p, q)
  }

  predicate NoSpaceBetween(s: string, p: nat, q: nat)
    requires p <= q < |s|
  {
    forall k :: p < k < q ==> !IsJsSpace(s[k])
  }

  const MsgNomeClinica: string := "Por favor, informe o Nome da Clínica"
  const MsgTipoPessoa: string := "Por favor, selecione o Tipo de Pessoa"
  const MsgCnpjAusente: string := "Por favor, informe o CNPJ"
  const MsgCnpjInvalido: string := "CNPJ inválido"
  const MsgNome: string := "Por favor, informe o nome do dentista"
  const MsgEmail: string := "Email inválido"
  const MsgSenha: string := "A senha deve ter pelo menos 6 caracteres"
  const MsgConfirmacao: string := "As senhas não coincidem"

  predicate NeedsCnpj(tipo: string) {
    tipo == "PJ" || tipo == "HIBRIDO"
  }

  /** `validarFormulario`: the message of the first failed check, or none when all pass. */
  function ValidarFormulario(f: CadastroForm): (r: Option<string>)
  {
    if f.nomeClinica == "" then Some(MsgNomeClinica)
    else if f.tipoPessoa == "" then Some(MsgTipoPessoa)
    else if NeedsCnpj(f.tipoPessoa) && f.cnpj == "" then Some(MsgCnpjAusente)
    else if NeedsCnpj(f.tipoPessoa) && !ValidarCnpj(f.cnpj) then Some(MsgCnpjInvalido)
    else if f.nome == "" then Some(MsgNome)
    else if f.email == "" || !EmailLike(f.email) then Some(MsgEmail)
    else if f.senha == "" || |f.senha| < 6 then Some(MsgSenha)
    else if f.senha != f.confirmarSenha then Some(MsgConfirmacao)
    else None
  }

  /** The checks in the order the form runs them. */
  function Rules(f: CadastroForm): (r: seq<Rule>)
    ensures |r| == 8
  {
    [ Rule(f.nomeClinica != "", MsgNomeClinica),
      Rule(f.tipoPessoa != "", MsgTipoPessoa),
      Rule(!NeedsCnpj(f.tipoPessoa) || f.cnpj != "", MsgCnpjAusente),
      Rule(!NeedsCnpj(f.tipoPessoa) || ValidarCnpj(f.cnpj), MsgCnpjInvalido),
      Rule(f.nome != "", MsgNome),
      Rule(f.email != "" && EmailLike(f.email), MsgEmail),
      Rule(f.senha != "" && |f.senha| >= 6, MsgSenha),
      Rule(f.senha == f.confirmarSenha, MsgConfirmacao) ]
  }

  /** The validation reports exactly the first failed check, in the form's order. */
  lemma ValidarIsFirstFailure(f: CadastroForm)
    ensures ValidarFormulario(f) == FirstFailure(Rules(f))
  {
    var rs := Rules(f);
    FirstFailureEnds(rs);
    FirstFailureAt(rs, 0);
    FirstFailureAt(rs, 1);
    FirstFailureAt(rs, 2);
    FirstFailureAt(rs, 3);
    FirstFailureAt(rs, 4);
    FirstFailureAt(rs, 5);
    FirstFailureAt(rs, 6);
    FirstFailureAt(rs, 7);
  }

  /** The form is accepted exactly when every check passes. */
  lemma ValidarAcceptsIffAllPass(f: CadastroForm)
    ensures ValidarFormulario(f).None? <==>
            f.nomeClinica != "" && f.tipoPessoa != "" && (NeedsCnpj(f.tipoPessoa) ==> ValidarCnpj(f.cnpj))
            && f.nome != "" && EmailLike(f.email) && |f.senha| >= 6 && f.senha == f.confirmarSenha
  {
    if NeedsCnpj(f.tipoPessoa) && ValidarCnpj(f.cnpj) {
      assert f.cnpj != "";
    }
    if EmailLike(f.email) {
      assert f.email != "";
    }
  }

  /** A PF registration does not look at the CNPJ at all. */
  lemma PfIgnoresCnpj(f: CadastroForm, cnpj: string)
    requires f.tipoPessoa == "PF"
    ensures ValidarFormulario(f.(cnpj := cnpj)) == ValidarFormulario(f)
  {
  }

  /** The body posted to `/auth/register`. */
  datatype RegisterPayload = RegisterPayload(
    nomeClinica: string, tipoPessoa: string, cnpj: string, nome: string, email: string, senha: string)

  /** `handleSubmit`: the validation message, or the payload with the CNPJ reduced to its digits. */
  function HandleSubmit(f: CadastroForm): (r: Result)
    ensures r.Invalid? <==> ValidarFormulario(f).Some?
    ensures r.Invalid? ==> r.message == ValidarFormulario(f).value
    ensures r.Send? ==> AllDigits(r.payload.cnpj) && r.payload.cnpj == OnlyDigits(f.cnpj)
    ensures r.Send? ==> r.payload.nomeClinica == f.nomeClinica && r.payload.tipoPessoa == f.tipoPessoa
                        && r.payload.nome == f.nome && r.payload.email == f.email && r.payload.senha == f.senha
  {
    match ValidarFormulario(f)
    case Some(m) => Invalid(m)
    case None => Send(RegisterPayload(f.nomeClinica, f.tipoPessoa, OnlyDigits(f.cnpj), f.nome, f.email, f.senha))
  }

  datatype Result = Invalid(message: string) | Send(payload: RegisterPayload)

  /** Choosing PF, whatever was typed before, sends an empty CNPJ. */
  lemma ChoosingPfSendsNoCnpj(s: Screen)
    ensures var r := HandleSubmit(HandleChange(s, TipoPessoa, "PF").form);
      r.Send? ==> r.payload.cnpj == ""
  {
  }
}
