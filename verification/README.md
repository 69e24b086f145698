# Dental bookkeeping screens: a Dafny model

This project models the logic inside the screens of a React Native / MUI
bookkeeping app for dental practices. A practice is taxed as an individual
(PF), as a company (PJ), or as a hybrid of both (HIBRIDO). The app's logic
is made of pure expressions inside screen components. Each one is lifted out
here as a function over records, sequences and strings:

- **Revenue ledger** (`Faturamento`): the month and search filter, the
  gross total, the flat PF and PJ tax estimates (27.5% and 15%), the
  profit, the invoice counts, the regime and payer on submit, the save
  guard, and the amount and CPF input masks.
- **Expense ledger** (`Despesas`, `Lancamentos`): fixed/variable totals,
  amount checks, category id/name resolution, form defaults and prefill,
  the displayed date, and the decimal comma.
- **Monthly result** (`Dashboard`): revenue, expenses and result, category
  percentages, which tax sections a person type sees, and the collapsible
  cards.
- **Chart of accounts** (`PlanoDeContas`, `PlanoContas`): the
  deductible/non-deductible tabs and the add/edit/cancel form.
- **Document masks and registration** (`Pacientes`, `Cadastro`,
  `CadastroClinica`): the CPF, CNPJ and phone masks built from
  `String.prototype.replace` chains, digit checks, and ordered form
  validation.
- **Administration** (`DashboardAdmin`, `EstatisticasAdmin`, `Operacional`,
  `UsuariosAdmin`, `ResumoUsuario`): pie data and percentages, running
  totals, per-user balance and counts, initials, search and page resets,
  and the active/inactive tabs.
- **Procedures** (`Procedimentos`): search, the form, and reading the
  default value back from its text.

Shared modules give the JavaScript built-ins their meaning:

- `Seqs`: `filter`, `find` and `reduce`.
- `Text`: `trim`, case mapping, `replace` of one character, `slice`,
  `split`/`join`, and `replace(/\D/g, '')`.
- `Numbers`: `parseFloat`, `parseInt` on digits, `Math.round`, and
  `toFixed(1)` read back.
- `DecimalText`: `toFixed(2)` and `String(x)` of an amount in cents.
- `ReadBack`: proofs that those texts parse back.
- `Dates`: the `YYYY-MM-DD` dates.
- `Amounts`: the `x || 0` and `String(x || '')` of a stored amount.
- `Masks`: regular-expression `replace` without the `g` flag.
- `Layouts`: the layout templates the masks are compared against.

How values are modelled:

- Money that the screens hold as numbers is `real`.
- Amounts that are written back to text are held exactly in cents (`int`).
  `String(x)` then has one exact text, and `parseFloat` is proved to read it
  back.
- A JavaScript `NaN` from `parseFloat` is `None`.
- A missing or falsy field is `None`, and `x || d` is `GetOr(d)`.
- Dates are `(year, month, day)` read from `YYYY-MM-DD`.
- A `replace` without `/g` rewrites only the leftmost match, exactly as
  JavaScript does.

Every mask is proved equal to a reference: a template such as
`000.000.000-00` whose `0`s are filled with the digits in order. Each
separator is copied only when a digit follows it.

Four behaviours of the code are worth stating plainly, since the model
keeps them as they are:

- **Taxes.** The revenue summary applies flat rates of 27.5% (PF) and
  15% (PJ) to the filtered revenue; there are no tax brackets.
- **Hybrid regime.** The revenue form starts a hybrid user with an empty
  regime, and the submit does not check it. `Faturamento.DadosEnviados`
  sends the empty regime as it is.
- **Non-positive amounts.** The combined ledger screen refuses only a
  value that is not a number, so zero and negative values are sent. See
  `Lancamentos.NonPositiveAccepted`.
- **Error after a save.** Both chart-of-accounts screens reload the list
  after a successful save without waiting for it. In `PlanoContas` the
  save does not itself clear the error message and the reload decides it;
  in `PlanoDeContas` the save clears it, but a rejected reload then shows
  its own message. `PlanoContas.Adicionar` and `PlanoDeContas.Adicionar`
  model both outcomes of the reload.

## Model

| member | source | states |
|---|---|---|
| Seqs.Filter | src/screens/usuario/PlanoDeContas.js:53-54 | `filter` keeps exactly the elements that pass the test, only passing ones, and never more than it was given |
| Seqs.FilterIsSubsequence | src/screens/admin/UsuariosAdmin.old.js:178-183 | a filtered list keeps the original order: it is a subsequence of its input |
| Seqs.Find | src/screens/usuario/Despesas.js:123 | `find` yields a value iff some element passes, and then the first passing element |
| Seqs.SumAppend | src/screens/usuario/Despesas.js:219 | the `reduce` sum over a concatenation is the sum of the two parts' sums |
| Seqs.SumPartition | src/screens/usuario/Despesas.js:219-221 | sums over a test and over its complement add up to the sum over everything |
| Seqs.SumThreeWay | src/screens/usuario/Faturamento.js:256-258 | three selections that take each element exactly once add up to the whole sum |
| Seqs.SumFilterBounded | src/screens/usuario/Despesas.js:220-221 | with non-negative values, a selection sums to between zero and the whole sum |
| Seqs.DisjointCounts | src/screens/usuario/Faturamento.js:261-262 | two selections that never both hold have counts adding up to at most the length |
| Seqs.PartitionCounts | src/screens/admin/UsuariosAdmin.old.js:252-262 | a test and its complement select counts that add up to the length |
| Seqs.FilterAll | src/screens/admin/UsuariosAdmin.old.js:179 | filtering with a test that always holds gives back the same list |
| Text.OnlyDigits | src/screens/Cadastro.js:68 | `replace(/[^\d]/g, '')` gives a digit string, never longer than the input, containing a character iff it is a digit of the input, and leaves a digit string unchanged |
| Text.OnlyDigitsIsFilter | src/screens/Cadastro.js:68 | the stripped text is exactly the input's digits, every occurrence kept, in their order |
| Text.OnlyDigitsAppend | src/screens/Cadastro.js:73 | removing the non-digits from a concatenation removes them from each part |
| Text.TrimStart | src/screens/usuario/PlanoContas.js:122 | the result is a suffix of the input, what was cut is blank, and the result does not start with a blank |
| Text.TrimStartStep | src/screens/usuario/PlanoContas.js:122 | one more leading blank keeps the trimmed suffix and a blank cut |
| Text.TrimEnd | src/screens/usuario/PlanoContas.js:122 | the result is a prefix of the input, what was cut is blank, and the result does not end with a blank |
| Text.TrimEmptyIffBlank | src/screens/admin/CadastroClinica.js:96 | `!s.trim()` holds exactly when every character is a blank |
| Text.TrimHasNoOuterBlanks | src/screens/usuario/PlanoContas.js:122 | the trimmed text neither starts nor ends with a blank |
| Text.DigitNotBlank | src/screens/admin/CadastroClinica.js:117-126 | a text holding a digit is not blank |
| Text.ToLower | src/screens/usuario/Pacientes.js:216 | `toLowerCase` keeps the length and maps every character |
| Text.ToUpper | src/screens/usuario/Pacientes.js:136 | `toUpperCase` keeps the length and maps every character |
| Text.CaseInsensitiveEquals | src/screens/usuario/Faturamento.js:49-50 | for a lower-case word, upper-casing both texts and lower-casing the text alone decide equality the same way |
| Text.LowerUpper | src/screens/usuario/Pacientes.js:216 | lower-casing an upper-cased text is the same as lower-casing it, so the case of a search term is irrelevant |
| Text.OnlyDigitsLower | src/screens/usuario/Faturamento.js:246-248 | lower-casing a term leaves its digits unchanged |
| Text.ContainsEmpty | src/screens/usuario/Pacientes.js:216 | every text includes the empty text, so an empty search term matches |
| Text.ReplaceFirstChar | src/screens/usuario/Lancamentos.js:529 | `replace(',', '.')` keeps the length and changes nothing without a comma |
| Text.ReplaceFirstCharAt | src/screens/usuario/Lancamentos.js:529 | only the first occurrence of the character is replaced |
| Text.Take | src/screens/Cadastro.js:80 | `slice(0, n)` is the prefix of length `n`, or the whole text when it is shorter |
| Text.TakeAppend | src/screens/admin/CadastroClinica.js:57 | cutting text whose head fits within the limit keeps the head and cuts the rest |
| Text.Split | src/screens/usuario/Lancamentos.js:313 | `split` gives at least one piece, no piece holds the separator, and joining the pieces gives the text back |
| Text.SplitNoSeparator | src/screens/usuario/Lancamentos.js:313 | text without the separator is one piece |
| Text.SplitFirstPiece | src/screens/usuario/Lancamentos.js:313 | a first piece without the separator is split off whole |
| Text.SplitJoin | src/screens/usuario/Lancamentos.js:313 | splitting pieces joined by a separator none holds gives the pieces back |
| Numbers.NatToString | src/screens/usuario/PlanoContas.js:121 | `toString()` of a count is a non-empty digit string whose value is the count |
| Numbers.ParseFloatNoNumber | src/screens/usuario/Despesas.js:150-151 | text starting with a character that cannot begin a number parses as NaN |
| Numbers.ParseUnsignedWhole | src/screens/usuario/Despesas.js:150 | an integer numeral parses as its value |
| Numbers.ParseUnsignedDecimal | src/screens/usuario/Despesas.js:150 | a numeral `ip.fd` parses as the whole part plus the fraction digits read as decimals |
| Numbers.ParseFloatDigitFirst | src/screens/usuario/Despesas.js:150 | a numeral that starts with a digit is read without sign or blanks |
| Numbers.ParseFloatMinus | src/screens/usuario/Procedimentos.js:173 | a leading minus sign negates the numeral after it |
| Numbers.MathRound | src/screens/usuario/Dashboard.js:244 | `Math.round(x)` is within half a unit of `x` |
| Numbers.RoundOneDecimal | src/screens/admin/DashboardAdmin.js:245 | `parseFloat(x.toFixed(1))` has one decimal and is the nearest such number, ties away from zero: in (x - 0.05, x + 0.05] for x at least 0 and in [x - 0.05, x + 0.05) below |
| Numbers.RoundOneDecimalUnique | src/screens/admin/DashboardAdmin.js:245 | any one-decimal number within those half-open bounds is that rounding, so the rounding is pinned down |
| ReadBack.ParseFormatCents | src/screens/usuario/Faturamento.js:43 | the `toFixed(2)` text of an amount in cents parses back to that amount |
| ReadBack.ParseUnsignedText | src/screens/usuario/Procedimentos.js:143 | the shortest decimal text of `m` cents parses as `m / 100` |
| ReadBack.ParseNumberText | src/screens/usuario/Procedimentos.js:143 | `parseFloat(String(x))` is `x` for every amount, negative ones included |
| Dates.FormatIsoDate | src/screens/usuario/Faturamento.js:127 | a date is written as ten characters with `-` at positions 4 and 7 |
| Dates.ParseIsoDate | src/screens/usuario/Faturamento.js:242 | a text read as a date names a valid date whose `YYYY-MM-DD` text is that text |
| Dates.ParseFormatIsoDate | src/screens/usuario/Faturamento.js:242 | every valid date is read back from its own text |
| Amounts.ParseFloatEmpty | src/screens/usuario/Procedimentos.js:173 | `parseFloat('')` is NaN |
| Amounts.ReadAmountText | src/screens/usuario/Lancamentos.js:179 | the edit text of a stored amount parses back to the amount when it is non-zero, and to NaN when it is zero or missing |
| Amounts.AmountNonNegative | src/screens/usuario/Despesas.js:219 | a missing or non-negative stored amount, read with zero as the fallback, is not negative |
| Validation.FirstFailure | src/screens/Cadastro.js:91-134 | no message iff every check holds; otherwise the message of a failing check with every earlier check holding |
| Masks.FirstMatchFrom | src/screens/usuario/Pacientes.js:149 | the leftmost position at or after the start where the pattern matches, or none when it matches nowhere |
| Masks.ReplaceFirst | src/screens/usuario/Pacientes.js:149-150 | `replace` without `g` leaves text without a match unchanged and rewrites only the leftmost match |
| Masks.ReplaceTail | src/screens/usuario/Pacientes.js:151 | `replace(/(\d{a})(\d{1,2})$/, ...)` inserts the separator after the first `a` digits of the leftmost tail match, or changes nothing |
| Masks.TailBlocked | src/screens/usuario/Pacientes.js:151 | a non-digit among the last `a + 1` characters leaves nothing for the tail pattern to match |
| Masks.InsertAfterRunAt | src/screens/usuario/Pacientes.js:149 | `replace(/(\d{n})(\d)/, '$1' + sep + '$2')` inserts the separator after the first run of `n` digits that has a digit after it |
| Masks.InsertAfterRunNone | src/screens/usuario/Pacientes.js:149 | with no such run, the text is unchanged |
| Masks.TemplateLength | src/screens/admin/CadastroClinica.js:57 | a filled layout is never longer than the layout and is non-empty when a digit was given |
| Masks.TemplateKeepsDigits | src/screens/usuario/Pacientes.js:143-161 | deleting the separators from a filled layout gives back the digits it had room for, in order |
| Masks.TemplateIgnoresExtra | src/screens/admin/CadastroClinica.js:57 | digits beyond the layout's slots do not change the filled layout |
| RegistrationMasks.StartSplitDigits | src/screens/Cadastro.js:76 | `replace(/^(\d{k})(\d)/, ...)` on digits changes nothing up to `k` digits, else puts its text after the first `k` |
| RegistrationMasks.SecondDotOn | src/screens/Cadastro.js:77 | `^(\d{a})\.(\d{3})(\d)` adds the second dot once a digit follows the second group |
| RegistrationMasks.AfterDotRunTwoDots | src/screens/Cadastro.js:78 | `\.(\d{3})(\d)` skips the first dot when it is too close to the second and rewrites the group after the second |
| RegistrationMasks.CnpjMaskFull | src/screens/Cadastro.js:75-80 | thirteen or more digits come out as `00.000.000/0000-00`, the last group cut to two digits |
| RegistrationMasks.CnpjMaskFillsLayout | src/screens/Cadastro.js:72-81 | `formatarCNPJ` fills the CNPJ layout with the digits, for any number of digits |
| RegistrationMasks.CpfMaskFillsLayout | src/screens/admin/CadastroClinica.js:60-67 | `formatarCPF` fills the CPF layout with the digits, for any number of digits |
| RegistrationMasks.PhoneMaskFillsLayout | src/screens/admin/CadastroClinica.js:69-75 | `formatarTelefone` fills the phone layout from three digits on and shows one or two digits bare |
| Cadastro.TipoPessoaLabel | src/screens/Cadastro.js:46-50 | exactly PF, PJ and HIBRIDO have a label |
| Cadastro.FormatarCnpj | src/screens/Cadastro.js:72-81 | the masked CNPJ is the layout filled with the digits typed, at most 18 characters |
| Cadastro.FormatarCnpjDigits | src/screens/Cadastro.js:72-81 | the mask keeps the first fourteen digits typed and drops the rest |
| Cadastro.FormatarThenValidar | src/screens/Cadastro.js:67-81 | a masked CNPJ passes `validarCNPJ` exactly when at least fourteen digits were typed |
| Cadastro.Set | src/screens/Cadastro.js:53-56 | `{ ...prev, [name]: value }` changes the named field and no other |
| Cadastro.HandleChange | src/screens/Cadastro.js:52-65 | the field takes the value, choosing PF also empties the CNPJ, nothing else changes, and the error is cleared |
| Cadastro.HandleCnpjChange | src/screens/Cadastro.js:83-89 | the CNPJ field shows the masked input and the error stays |
| Cadastro.ValidarIsFirstFailure | src/screens/Cadastro.js:91-134 | `validarFormulario` reports the first failed check of the eight, in the form's order |
| Cadastro.ValidarAcceptsIffAllPass | src/screens/Cadastro.js:91-134 | the form is accepted iff every check passes |
| Cadastro.PfIgnoresCnpj | src/screens/Cadastro.js:102 | a PF registration's verdict does not depend on the CNPJ |
| Cadastro.HandleSubmit | src/screens/Cadastro.js:137-156 | an invalid form yields its message; a valid one sends clinic name, person type, name, e-mail and password as typed and the CNPJ reduced to its digits |
| Cadastro.ChoosingPfSendsNoCnpj | src/screens/Cadastro.js:57-62 | after choosing PF, a submitted payload has an empty CNPJ |
| CadastroClinica.FormatarCnpjLayout | src/screens/admin/CadastroClinica.js:50-58 | the CNPJ mask is the layout filled with the digits typed, at most 18 characters |
| CadastroClinica.FormatarCpfLayout | src/screens/admin/CadastroClinica.js:60-67 | the CPF mask is the layout filled with the digits typed, at most 14 characters |
| CadastroClinica.FormatarTelefoneLayout | src/screens/admin/CadastroClinica.js:69-75 | the phone mask fills its layout from three digits on, shows one or two digits bare, and has at most 15 characters |
| CadastroClinica.CnpjMaskKeepsDigits | src/screens/admin/CadastroClinica.js:50-58 | the CNPJ mask keeps the first fourteen digits typed |
| CadastroClinica.CpfMaskKeepsDigits | src/screens/admin/CadastroClinica.js:60-67 | the CPF mask keeps the first eleven digits typed |
| CadastroClinica.PhoneMaskKeepsDigits | src/screens/admin/CadastroClinica.js:69-75 | the phone mask keeps the first eleven digits typed |
| CadastroClinica.HandleChange | src/screens/admin/CadastroClinica.js:41-48 | only the named field changes, and the error is cleared |
| CadastroClinica.HandleCnpjChange | src/screens/admin/CadastroClinica.js:77-81 | the CNPJ field shows the masked input, and the error is cleared |
| CadastroClinica.HandleCpfChange | src/screens/admin/CadastroClinica.js:83-87 | the CPF field shows the masked input, and the error is cleared |
| CadastroClinica.HandleTelefoneChange | src/screens/admin/CadastroClinica.js:89-93 | the phone field shows the masked input, and the error is cleared |
| CadastroClinica.ValidarIsFirstFailure | src/screens/admin/CadastroClinica.js:95-129 | `validarFormulario` reports the first failed check of the five, in order |
| CadastroClinica.MaskedPhonePasses | src/screens/admin/CadastroClinica.js:117-126 | a masked phone typed with ten or more digits passes both phone checks |
| CadastroClinica.AcceptedByDocumentDigits | src/screens/admin/CadastroClinica.js:95-129 | with a name and a full phone, the form is accepted iff the document the person type asks for has all its digits |
| CadastroClinica.MaskedFormAccepted | src/screens/admin/CadastroClinica.js:95-129 | a form filled through the masks is accepted iff enough digits were typed for the person type's document |
| CadastroClinica.HandleSubmit | src/screens/admin/CadastroClinica.js:131-158 | an invalid form yields its message; a valid one sends the trimmed name, FREE plan, three users, active, and the CNPJ (PJ) or the CPF (otherwise) as bare digits |
| Pacientes.CpfFirstDot | src/screens/usuario/Pacientes.js:149 | the first CPF step puts a dot after three digits once a fourth follows |
| Pacientes.CpfSecondDot | src/screens/usuario/Pacientes.js:150 | the second CPF step puts the second dot after the next three digits once a digit follows |
| Pacientes.CpfDash | src/screens/usuario/Pacientes.js:151 | the CPF tail step puts the dash before the last one or two digits |
| Pacientes.CnpjFirstDot | src/screens/usuario/Pacientes.js:157 | the first CNPJ step puts a dot after two digits once a third follows |
| Pacientes.CnpjSecondDot | src/screens/usuario/Pacientes.js:158 | the second CNPJ step puts a dot after the next three digits once a digit follows |
| Pacientes.CnpjSlash | src/screens/usuario/Pacientes.js:159 | the third CNPJ step puts the slash after the next three digits once a digit follows |
| Pacientes.CnpjDash | src/screens/usuario/Pacientes.js:160 | the CNPJ tail step puts the dash before the last one or two digits |
| Pacientes.CpfChainFillsTemplate | src/screens/usuario/Pacientes.js:147-151 | for up to eleven digits the CPF chain fills the layout `000.000.000-00` |
| Pacientes.CnpjChainFillsTemplate | src/screens/usuario/Pacientes.js:155-160 | for up to fourteen digits the CNPJ chain fills the layout `00.000.000/0000-00` |
| Pacientes.FormatarCpfCnpj | src/screens/usuario/Pacientes.js:142-165 | PF with up to 11 digits gets the CPF layout, any other type with up to 14 gets the CNPJ layout, and longer input comes back unchanged |
| Pacientes.FormatarKeepsDigits | src/screens/usuario/Pacientes.js:142-165 | deleting the separators from the output gives exactly the input's digits |
| Pacientes.FormatarLength | src/screens/usuario/Pacientes.js:142-165 | a masked CPF has at most 14 characters and a masked CNPJ at most 18 |
| Pacientes.FormatarIdempotent | src/screens/usuario/Pacientes.js:142-165 | masking an already masked value changes nothing |
| Pacientes.NewForm | src/screens/usuario/Pacientes.js:101-116 | a new patient form has every text field empty, type PF, and is active |
| Pacientes.HandleChange | src/screens/usuario/Pacientes.js:127-140 | the document is masked for the current type, a new type clears the document, the state is upper-cased, other fields are stored as typed, and nothing else changes |
| Pacientes.DocumentKeepsTypedDigits | src/screens/usuario/Pacientes.js:129-131 | typing into the document field keeps exactly the digits typed |
| Pacientes.PacientesFiltrados | src/screens/usuario/Pacientes.js:215-218 | a patient is listed iff its name contains the term ignoring case or its non-empty document contains the term, in list order |
| Pacientes.NameSearchIgnoresCase | src/screens/usuario/Pacientes.js:216 | without a document, the case of the term does not matter |
| Pacientes.EmptySearchKeepsNamed | src/screens/usuario/Pacientes.js:215-218 | an empty term lists every patient that has a name |
| Pacientes.Submit | src/screens/usuario/Pacientes.js:167-180 | an empty name is refused with its message; otherwise the form is created, or updated under the edited id |
| Faturamento.Filtrados | src/screens/usuario/Faturamento.js:241-253 | an entry is kept iff it is in the selected month and year and, when a term is typed, matches it by name or by CPF digits; list order is kept |
| Faturamento.KeptEntryDate | src/screens/usuario/Faturamento.js:241-243 | a kept entry's date text is the selected year and month with a valid day |
| Faturamento.TermWithoutDigitsMatchesAnyCpf | src/screens/usuario/Faturamento.js:245-249 | a term without digits matches every in-period entry that has a CPF |
| Faturamento.NameMatchIgnoresCase | src/screens/usuario/Faturamento.js:246-247 | the name test does not depend on the case of the term |
| Faturamento.Calcular | src/screens/usuario/Faturamento.js:256-262 | gross is the sum of all entries, split by PF, PJ and other tags; PF tax is 27.5% of PF, PJ tax 15% of PJ; profit is gross less both; issued counts the entries with an invoice and pending the PJ entries without one, and the two together fit in the count |
| Faturamento.ContagensNotas | src/screens/usuario/Faturamento.js:261-262 | pending invoices never outnumber the PJ entries; with every invoice issued nothing is pending and every entry counts as issued |
| Faturamento.LucroBounds | src/screens/usuario/Faturamento.js:256-260 | with non-negative amounts the taxes are at most 27.5% of gross and the profit lies between zero and gross |
| Faturamento.NovoFormulario | src/screens/usuario/Faturamento.js:117-138 | a new entry starts empty, dated today, payer PF, with the user's own type, or no regime for a hybrid user |
| Faturamento.DadosEnviados | src/screens/usuario/Faturamento.js:176-193 | the regime is the user's type unless the user is hybrid, the payer fields are emptied when the patient pays, and the value is `parseFloat` of the field |
| Faturamento.RegimeFixedForNonHybrid | src/screens/usuario/Faturamento.js:176-180 | a non-hybrid user's entries all get the same regime, whatever the form says |
| Faturamento.HybridInAnyCase | src/screens/usuario/Faturamento.js:49-50 | a type is hybrid exactly when it reads `hibrido` in any mix of cases, and a hybrid user's entries carry the regime chosen in the form |
| Faturamento.ValorDigitadoComoEscrito | src/screens/usuario/Faturamento.js:43 | the amount field shows the digits typed as cents with two decimals, and "NaN" when no digit is left |
| Faturamento.ReadTypedValue | src/screens/usuario/Faturamento.js:43 | the shown amount parses back as exactly the cents typed |
| Faturamento.ClearedValueEnablesSave | src/screens/usuario/Faturamento.js:619 | as written, clearing the amount shows "NaN", leaves the save button enabled, and sends NaN |
| Faturamento.ValorDigitado | src/screens/usuario/Faturamento.js:43 | the corrected field is empty exactly when no digit is left, and otherwise agrees with the field as written |
| Faturamento.EnabledSaveSendsPositive | src/screens/usuario/Faturamento.js:619 | with the corrected field, the save button is disabled exactly when description or patient is empty or the digits typed are none or all zeros, and an enabled button always sends a positive amount |
| Faturamento.FormatarCpf | src/screens/usuario/Faturamento.js:39-42 | the CPF field has at most 14 characters and, up to eleven digits, is the CPF layout filled with them |
| Faturamento.FormatarCpfKeepsDigits | src/screens/usuario/Faturamento.js:39-42 | up to eleven digits, the CPF mask keeps exactly the digits typed |
| Faturamento.FormatarCpfIdempotent | src/screens/usuario/Faturamento.js:39-42 | up to eleven digits, re-masking a masked CPF changes nothing |
| Despesas.Totais | src/screens/usuario/Despesas.js:219-221 | fixed and variable totals sum their kinds, and the total is both plus the expenses of neither kind |
| Despesas.FixasMaisVariaveis | src/screens/usuario/Despesas.js:219-221 | when every expense is fixed or variable, the two totals add up to the total |
| Despesas.TotaisBounded | src/screens/usuario/Despesas.js:219-221 | with no negative amount, each kind's total lies between zero and the total |
| Despesas.ContagensCabem | src/screens/usuario/Despesas.js:256-288 | the fixed and variable entry counts on the cards add up to at most the number of expenses |
| Despesas.CategoriaEnviada | src/screens/usuario/Despesas.js:156-163 | the category sent is the name of the first account whose id (or name) is the selection, or the selection itself |
| Despesas.CategoriaInicial | src/screens/usuario/Despesas.js:123 | an edit opens on the id of the first account named like the stored category, else the stored category, else empty |
| Despesas.CategoriaRoundTrip | src/screens/usuario/Despesas.js:123-163 | with unique keys, opening a record and saving sends back the category it stored |
| Despesas.NovoFormulario | src/screens/usuario/Despesas.js:105-117 | a new expense is variable, dated today, with every other field empty |
| Despesas.FormularioEdicao | src/screens/usuario/Despesas.js:119-133 | an edit shows the stored amount's text and the mapped category, with a non-empty type |
| Despesas.Submit | src/screens/usuario/Despesas.js:150-164 | a NaN or non-positive amount is refused with its message; otherwise the positive amount, the resolved category and the other fields are sent |
| Despesas.NewFormRejected | src/screens/usuario/Despesas.js:150-153 | a new form cannot be saved before an amount is typed |
| Despesas.EditUnchangedKeepsRecord | src/screens/usuario/Despesas.js:119-163 | saving a positive expense unchanged sends back its amount and category |
| Lancamentos.FormatarData | src/screens/usuario/Lancamentos.js:310-315 | a missing or empty date shows as empty; any other shows a text holding a slash |
| Lancamentos.FormatarDataPieces | src/screens/usuario/Lancamentos.js:310-315 | `y-m-d` shows as `d/m/y` |
| Lancamentos.FormatarIsoDate | src/screens/usuario/Lancamentos.js:310-315 | a stored `YYYY-MM-DD` date shows as `DD/MM/YYYY` |
| Lancamentos.DisplayedDateSplits | src/screens/usuario/Lancamentos.js:310-315 | splitting the shown date on `/` gives day, month and year |
| Lancamentos.FormatarDataWithoutDash | src/screens/usuario/Lancamentos.js:313-314 | a date without `-` shows `undefined` for day and month |
| Lancamentos.ValorDigitado | src/screens/usuario/Lancamentos.js:529 | the value field keeps its length and is unchanged without a comma |
| Lancamentos.FirstCommaBecomesPoint | src/screens/usuario/Lancamentos.js:529 | only the first comma becomes a decimal point |
| Lancamentos.TipoDoNovo | src/screens/usuario/Lancamentos.js:401 | the new button opens an expense on tab 0 and a revenue entry on any other tab |
| Lancamentos.NovoFormulario | src/screens/usuario/Lancamentos.js:134-149 | a new entry is a variable expense or PF revenue dated today, with empty fields |
| Lancamentos.FormularioEdicao | src/screens/usuario/Lancamentos.js:174-188 | an edit shows the stored value's text, empty when it is zero or missing, and the fields with their fallbacks: today, `variavel`, PF |
| Lancamentos.Submit | src/screens/usuario/Lancamentos.js:217-257 | only a value that is not a number is refused; an expense sends category and type, revenue sends patient, payment and regime, and the procedure is never sent |
| Lancamentos.NonPositiveAccepted | src/screens/usuario/Lancamentos.js:221-225 | a zero or negative value is sent as it is |
| Lancamentos.EditUnchangedResends | src/screens/usuario/Lancamentos.js:174-188 | saving an edited entry unchanged resends its value, unless the value was zero or missing, which is refused |
| Dashboard.CalcularValores | src/screens/usuario/Dashboard.js:61-71 | all zero without metrics; revenue is PF income plus company revenue, expenses are PF payments plus the expense figure, and the result is their difference |
| Dashboard.CorResultado | src/screens/usuario/Dashboard.js:147 | the result is green iff it is at least zero, otherwise red |
| Dashboard.ResultadoVerdeSeCobre | src/screens/usuario/Dashboard.js:147 | the result card is green exactly when PF income plus company revenue covers PF payments plus expenses, and green before the metrics arrive |
| Dashboard.ValoresCategorias | src/screens/usuario/Dashboard.js:244 | each category's amount, a missing one counting as zero |
| Dashboard.Percentuais | src/screens/usuario/Dashboard.js:221-244 | each percentage is its share of the total rounded to a whole number, and all are zero when the total is not positive |
| Dashboard.PercentuaisSomam | src/screens/usuario/Dashboard.js:221-244 | the rounded percentages add up to 100, within half a point per category |
| Dashboard.PercentuaisBounded | src/screens/usuario/Dashboard.js:244 | with no negative amount every percentage lies between 0 and 100 |
| Dashboard.CorDaFatia | src/screens/usuario/Dashboard.js:228 | every slice colour comes from the six-colour palette |
| Dashboard.CoresDasFatias | src/screens/usuario/Dashboard.js:228 | neighbouring slices differ in colour, and colours repeat every six slices |
| Dashboard.SecoesPorTipo | src/screens/usuario/Dashboard.js:158-186 | HIBRIDO sees both tax sections, PF and PJ one each, and any other type none |
| Dashboard.Toggle | src/screens/usuario/Dashboard.js:54-59 | toggling flips that card and leaves every other card as it was |
| Dashboard.ToggleTwice | src/screens/usuario/Dashboard.js:54-59 | toggling a card twice restores every card |
| Dashboard.FirstToggle | src/screens/usuario/Dashboard.js:38-59 | the result and tax cards start open, so their first toggle closes them; any other card opens |
| PlanoDeContas.Exibidas | src/screens/usuario/PlanoDeContas.js:53-55 | tab 0 lists the deductible natures and any other tab the others, in order |
| PlanoDeContas.TabsPartition | src/screens/usuario/PlanoDeContas.js:53-54 | every nature is on exactly one tab, and the two counts add up to the total |
| PlanoDeContas.MsgRecarga | src/screens/usuario/PlanoDeContas.js:30-39 | a rejected reload's error starts with `Erro ao carregar plano de contas`, is exactly that with neither a server answer nor a message, and ends with the error's message when there is no server answer |
| PlanoDeContas.Adicionar | src/screens/usuario/PlanoDeContas.js:57-81 | a blank name is refused; otherwise the untrimmed name and switch go to an update or a create; failure changes only the error; success resets the form, and the error stays empty iff the unawaited reload succeeds, otherwise it is the reload's message |
| PlanoDeContas.Editar | src/screens/usuario/PlanoDeContas.js:84-89 | the form takes the nature's name and switch, and the error stays |
| PlanoDeContas.Cancelar | src/screens/usuario/PlanoDeContas.js:91-95 | cancel resets name, switch and edited nature, and keeps the tab and error |
| PlanoDeContas.EditarMostraConta | src/screens/usuario/PlanoDeContas.js:84-89 | editing a nature switches to the tab that lists it |
| PlanoDeContas.EditarThenSalvar | src/screens/usuario/PlanoDeContas.js:57-89 | saving an edited nature unchanged updates it with its own name and switch |
| PlanoDeContas.CancelarThenSalvar | src/screens/usuario/PlanoDeContas.js:57-95 | after a cancel, a save creates a new deductible nature instead of updating |
| PlanoContas.Montar | src/screens/usuario/PlanoContas.js:119-127 | the record has the time as its code, the trimmed name, type `despesa`, active, and the label matching the switch |
| PlanoContas.MsgFalha | src/screens/usuario/PlanoContas.js:146 | a failure shows its message, or `Desconhecido` when it has none |
| PlanoContas.Adicionar | src/screens/usuario/PlanoContas.js:111-150 | a blank name is refused; otherwise the record goes to an update or a create; failure changes only the error; success resets the form |
| PlanoContas.Editar | src/screens/usuario/PlanoContas.js:152-158 | the form takes the nature's fields and tab 0 iff it is deductible |
| PlanoContas.Cancelar | src/screens/usuario/PlanoContas.js:160-166 | cancel clears the name, edited nature and error and sets the switch to deductible |
| PlanoContas.EditarMostraConta | src/screens/usuario/PlanoContas.js:152-158 | editing a nature switches to the tab that lists it |
| PlanoContas.EditarThenSalvar | src/screens/usuario/PlanoContas.js:111-158 | saving an edited nature unchanged updates it with its trimmed name and label |
| PlanoContas.ConsultarIA | src/screens/usuario/PlanoContas.js:195-210 | a blank question raises the alert and nothing is asked; any other is sent as typed |
| Procedimentos.Filtrados | src/screens/usuario/Procedimentos.js:232-236 | a procedure is listed iff its name, code or category contains the term ignoring case, in list order |
| Procedimentos.SearchIgnoresCase | src/screens/usuario/Procedimentos.js:232-236 | the case of the term does not matter |
| Procedimentos.EmptySearch | src/screens/usuario/Procedimentos.js:232-236 | an empty term lists exactly the procedures with a name, code or category |
| Procedimentos.NovoFormulario | src/screens/usuario/Procedimentos.js:146-155 | a new form has an empty name, code, description, category, notes and default value, no id, and is active |
| Procedimentos.NewFormCannotSave | src/screens/usuario/Procedimentos.js:431 | a new form's save button is disabled until a name is typed |
| Procedimentos.Submit | src/screens/usuario/Procedimentos.js:170-182 | an empty default value is sent as null; other text is read with its first comma as a point and refused with its message when that is NaN; id, code, name, description, category, notes and the active flag go as they are |
| Procedimentos.FormularioEdicao | src/screens/usuario/Procedimentos.js:137-144 | as written, an edit shows the default value's text only when it is truthy |
| Procedimentos.NoCommaInNumberText | src/screens/usuario/Procedimentos.js:173 | `String(x)` of an amount never holds a comma |
| Procedimentos.EditZeroClearsValue | src/screens/usuario/Procedimentos.js:143 | as written, opening a procedure with default value 0 and saving unchanged erases the value |
| Procedimentos.FormularioEdicaoCorrigido | src/screens/usuario/Procedimentos.js:143 | the corrected edit form shows any stored default value, zero included |
| Procedimentos.SaveNumberText | src/screens/usuario/Procedimentos.js:173-177 | a form showing the text of an amount saves that amount |
| Procedimentos.EditUnchangedKeepsValue | src/screens/usuario/Procedimentos.js:137-182 | with the corrected form, saving unchanged keeps the default value |
| Shares.PercentShares | src/screens/admin/DashboardAdmin.js:245 | each share is the value divided by the total, times 100 |
| Shares.SharesTotal | src/screens/admin/DashboardAdmin.js:244-245 | the shares add up to the values' total in percent of the total |
| Shares.SharesMakeHundred | src/screens/admin/DashboardAdmin.js:244-245 | of a positive total, the shares add up to exactly 100 |
| Shares.ShareBounds | src/screens/usuario/Dashboard.js:244 | each share of non-negative values lies between 0 and 100 |
| Shares.TotalsClose | src/screens/admin/DashboardAdmin.js:250 | values each within `e` of a reference add up to within `e` per value of its total |
| Shares.RunningTotals | src/screens/admin/EstatisticasAdmin.js:303-306 | row `i` holds the sum of rows `0..i`, computed in one pass |
| Shares.RunningTotalMonotone | src/screens/admin/EstatisticasAdmin.js:303-306 | with non-negative rows the running total never decreases |
| ResumoUsuario.Saldo | src/screens/admin/Operacional.js:43 | with both figures present the balance is revenue less expenses; a missing figure counts as zero: with no expense figure the balance is the revenue, with no revenue figure it is minus the expenses, and with neither it is zero |
| ResumoUsuario.SaldoSign | src/screens/admin/UsuariosAdmin.old.js:375-385 | the balance is non-negative iff revenue covers expenses |
| ResumoUsuario.TotalLancamentos | src/screens/admin/DashboardAdmin.js:485 | with both counts present the total is their sum; a missing count counts as zero: with non-negative counts the total is at least each of them, with one count missing it is the other, and with both missing it is zero |
| ResumoUsuario.CorSaldo | src/screens/admin/UsuariosAdmin.old.js:375-379 | the balance colour is green iff the balance is at least zero |
| ResumoUsuario.TipoLabel | src/screens/admin/DashboardAdmin.js:248 | PF and PJ are labelled by name and anything else is hybrid |
| ResumoUsuario.UltimoLancamento | src/screens/admin/Operacional.js:172 | the last-entry date is the last revenue date, else the last expense date, else none |
| DashboardAdmin.FatiaDe | src/screens/admin/DashboardAdmin.js:244-251 | a slice carries its label and value; with a positive total its share is the one-decimal rounding of value over total times 100, and 0 when the total is not positive |
| DashboardAdmin.DadosGraficoPizza | src/screens/admin/DashboardAdmin.js:243-252 | one slice per entry, in order, labelled by type; with a positive total each share is the one-decimal rounding of that entry's percentage of the total; all zero when the total is not positive, and none for no entries |
| DashboardAdmin.PiePercentsSum | src/screens/admin/DashboardAdmin.js:243-252 | the slice percentages add up to 100, within 0.05 per slice |
| DashboardAdmin.CorSaldoComoEscrito | src/screens/admin/DashboardAdmin.js:493 | as written, the colour is green only when both figures are present and their difference is not negative |
| DashboardAdmin.ColourDisagreesWithBalance | src/screens/admin/DashboardAdmin.js:493-496 | a user with revenue and no expense figure shows a positive balance in red |
| DashboardAdmin.ColourAgreesWhenPresent | src/screens/admin/DashboardAdmin.js:493 | with both figures present, the written colour and the corrected colour agree |
| DashboardAdmin.FiltrosIniciais | src/screens/admin/DashboardAdmin.js:103-107 | the table opens on page 1 with no search, sorted by `createdAt`, `DESC` |
| DashboardAdmin.EscolherOrdenar | src/screens/admin/DashboardAdmin.js:405-414 | choosing option i sets the sort field to the i-th of `createdAt`, `nome` and `email` and changes nothing else |
| DashboardAdmin.EscolherOrdem | src/screens/admin/DashboardAdmin.js:416-425 | choosing option i sets the order to the i-th of `ASC` and `DESC` and changes nothing else |
| DashboardAdmin.Pesquisar | src/screens/admin/DashboardAdmin.js:394 | typing a search changes only the search; the page stays |
| EstatisticasAdmin.DadosGraficoPizza | src/screens/admin/EstatisticasAdmin.js:155-169 | no slices for no entries; otherwise, with a positive total, one slice per entry, in order, labelled by type, each share the one-decimal rounding of its percentage of the total |
| EstatisticasAdmin.SameAsDashboardPie | src/screens/admin/EstatisticasAdmin.js:155-169 | wherever this pie is defined (no entries, or a positive total) it equals the dashboard's pie |
| EstatisticasAdmin.TotalAcumulado | src/screens/admin/EstatisticasAdmin.js:303-306 | row `i` of the cumulative column is the sum of new users in rows `0..i`, and the last row is the grand total |
| EstatisticasAdmin.TotalAcumuladoMonotone | src/screens/admin/EstatisticasAdmin.js:303-306 | with no negative month the cumulative column never decreases |
| EstatisticasAdmin.PeriodoInicial | src/screens/admin/EstatisticasAdmin.js:110 | the period starts at twelve months, one of the offered 3, 6, 12 and 24 |
| Operacional.FirstCharsAreWordStarts | src/screens/admin/Operacional.js:44 | the first characters of the space-separated words are exactly the characters that begin a word |
| Operacional.NoWordStartIffSpaces | src/screens/admin/Operacional.js:44 | a name has no word start iff it is all spaces |
| Operacional.Iniciais | src/screens/admin/Operacional.js:44 | the initials have one or two characters, and a missing name gives the fallback letter |
| Operacional.IniciaisSaoInicios | src/screens/admin/Operacional.js:44 | the initials are the first two word starts upper-cased, or the fallback for an all-space name |
| Operacional.IniciaisUsuario | src/screens/admin/Operacional.js:44 | a user card falls back to `U` |
| Operacional.IniciaisClinica | src/screens/admin/Operacional.js:196 | a clinic card falls back to `C` |
| Operacional.HandleSearch | src/screens/admin/Operacional.js:389-392 | committing a search copies the input into the search and returns to page 1 |
| Operacional.HandleSearchIdempotent | src/screens/admin/Operacional.js:389-392 | committing twice is the same as committing once |
| Operacional.HandleModoChange | src/screens/admin/Operacional.js:411-418 | a null selection changes nothing; a mode starts on page 1 with search and input cleared |
| Operacional.ModeChangeClearsSearch | src/screens/admin/Operacional.js:411-418 | after a mode change, committing the search searches for nothing |
| Operacional.ResetPageInPager | src/screens/admin/Operacional.js:535 | whenever the pager is shown, the page a reset lands on is one it offers |
| UsuariosAdmin.Filtrados | src/screens/admin/UsuariosAdmin.old.js:178-183 | tab 1 lists the active users, tab 2 the inactive ones, any other tab everyone, in order |
| UsuariosAdmin.OtherTabsKeepAll | src/screens/admin/UsuariosAdmin.old.js:178-183 | any tab other than 1 and 2 lists every user |
| UsuariosAdmin.BadgesAddUp | src/screens/admin/UsuariosAdmin.old.js:244-262 | the active and inactive badges add up to the total badge |
| UsuariosAdmin.SaldoExibido | src/screens/admin/UsuariosAdmin.old.js:375-385 | the balance column shows the balance with missing figures as zero, green iff it is not negative |
| UsuariosAdmin.SortOptionsExtendDashboard | src/screens/admin/UsuariosAdmin.old.js:294-297 | the sort fields are the dashboard's plus `updatedAt` |

## Left out

- Rendering is not modelled: JSX, styles, modals, navigation, timers and loading flags.
- Service calls are not modelled. Their success or failure, and that of the list reload after a save, is a parameter where a screen reacts to it: `PlanoDeContas.Adicionar`, `PlanoContas.Adicionar`. The reloaded list itself (the fetched natures, or none after a rejected reload) is not part of the modelled form state.
- Storage and the authentication context are not modelled. The user's person type is a parameter.
- The clock is a parameter. Today's date is `hoje`, and `Date.now()` is `agora`.
- Locale formatting is not modelled: `toLocaleString`, `toLocaleDateString` and `Intl.NumberFormat`.
- The list sort by date in the revenue ledger (`Faturamento.js:396`) is presentation order and is not modelled.
- The revenue screen's edit prefill (`Faturamento.js:140-162`) is not modelled. Its one computation, `parseFloat(x).toFixed(2)`, is the amount text `DecimalText.FormatCents` already models.
- Floating point is not modelled: money is exact (`real`, or cents), so `parseFloat`/`toFixed` rounding drift does not appear.
- `Numbers.ParseFloat` reads blanks, a sign, digits, a point and digits. Exponents and `Infinity` are not read.
- `Numbers.DigitsValue` reads `parseInt` on digits without the precision limit of a double.
- `Text.ToLower`, `Text.ToUpper`: map only the ASCII letters; other letters are left as they are.
- Strings are sequences of characters. JavaScript's UTF-16 lengths, which matter for `slice` on characters outside the basic plane, are not modelled.
- `Dates.ParseIsoDate`: accepts exactly `YYYY-MM-DD` texts that name a real day. The JavaScript `Date` roll-over of impossible days (February 30 becoming March 2) is not modelled; such a text gives no date.
- `Cadastro.EmailLike`: states the `\S+@\S+\.\S+` test directly. It is not derived from a regular-expression engine.
- `Dashboard.CalcularValores`: the metrics are taken as already-read numbers. `parseFloat` of metric strings is not modelled.
- `Procedimentos.Submit`, `Pacientes.Submit`: `procedimentoService.js` and `pacienteService.js` export only `listar`, so the `criar` and `atualizar` calls these screens make do not exist in the source. `Salvar`, `Create` and `Update` stand for the request the screen would make.
- `ResumoUsuario.CorSaldo`: a figure sent as JSON `null` gives `100 - null = 100` in JavaScript, not `NaN`; the finding on `DashboardAdmin.js:493` is about a figure that is absent.
- The dashboard's fixed month (December 2025, `Dashboard.js:47-48`) only labels the service request and is left out.
- `EstatisticasAdmin.DadosGraficoPizza`: requires a positive total for a non-empty list, because this screen divides without a guard; a non-empty list whose total is zero gives `NaN` percentages in the source, which are not modelled.
- `Faturamento.FormatarCpf`: for more than eleven digits, it states only the 14-character bound, not the exact text the chain produces.
- `Pacientes.CpfChainFillsTemplate`, `Pacientes.CnpjChainFillsTemplate`: stated for up to eleven and up to fourteen digits, the only inputs `formatarCPFCNPJ` masks.
- Despesas, edit prefill: the form receives the stored amount `item.valor || ''` as a number. `parseFloat` on a number reads its text, which is how `Despesas.FormularioEdicao` models it (`String(x || '')`).
- An account without an id is modelled with the empty id, so `cat.id || cat.nome` picks the name.
- Stored amounts in cents are integers. Amounts with more than two decimals are not modelled in the screens that write them back to text.

## Findings

| source | as written | input that shows it | evidently intended | confidence | as-written member | corrected member |
|---|---|---|---|---|---|---|
| src/screens/usuario/Faturamento.js:43 | `formatarValorInput` turns an amount field with no digits into `NaN.toFixed(2)`, the text "NaN". The save guard at line 619 tests `=== ''` and `<= 0`, and neither catches "NaN", so the button is enabled and NaN is sent | type an amount, then delete every digit, with description and patient filled | a field with no digits stays empty, so the guard disables the save and only positive amounts are sent | medium (not executed) | Faturamento.ClearedValueEnablesSave | Faturamento.EnabledSaveSendsPositive |
| src/screens/usuario/Procedimentos.js:143 | the edit form shows `valorPadrao` only when it is truthy, so a stored 0 becomes '' and saving unchanged builds a record whose `valorPadrao` is null | a procedure whose default value is 0, opened and saved unchanged | opening and saving a procedure unchanged keeps its default value | medium (not executed) | Procedimentos.EditZeroClearsValue | Procedimentos.EditUnchangedKeepsValue |
| src/screens/admin/DashboardAdmin.js:493 | the balance colour uses the raw difference `valorTotalFaturamento - valorTotalDespesas`, which is NaN when a figure is missing, while the balance text next to it counts a missing figure as zero | a user with revenue 100 whose expense field is omitted (undefined): the text shows +100, in red | the colour follows the shown balance, as in `UsuariosAdmin.old.js:375-379` | high (not executed) | DashboardAdmin.ColourDisagreesWithBalance | ResumoUsuario.CorSaldo |
