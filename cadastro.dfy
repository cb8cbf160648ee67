/**
 * The registration screen (`CadastroComponent`): the form, the two message
 * fields and the loading flag, the eight-step check chain of `onSubmit`, and
 * the handlers that map the response to messages.
 */
module CadastroScreen {
  import opened Wrappers
  import opened Text
  import opened Validation
  import opened Api

  const NomeRequired := "Nome é obrigatório"
  const NomeTooShort := "Nome deve ter no mínimo 3 caracteres"
  const SenhaRequired := "Senha é obrigatória"
  const ConfirmRequired := "Confirmação de senha é obrigatória"
  const PasswordsDiffer := "As senhas não conferem"
  const EmailTaken := "Este email já está cadastrado"
  const InvalidData := "Dados inválidos. Verifique os campos"
  const RegisterFailed := "Erro ao realizar o cadastro. Tente novamente"

  const EmptyForm := Register("", "", "", "")

  /** The checks of `onSubmit`, in the order it runs them. */
  function RegisterChecks(f: Register): seq<Check> {
    [ Check(IsBlank(f.nome), NomeRequired),
      Check(|Trim(f.nome)| < 3, NomeTooShort),
      Check(IsBlank(f.email), EmailRequired),
      Check(!ValidEmail(f.email), EmailInvalid),
      Check(f.senha == "", SenhaRequired),
      Check(!LengthRule(f.senha).valida, LengthRule(f.senha).mensagem),
      Check(f.confirmarSenha == "", ConfirmRequired),
      Check(f.senha != f.confirmarSenha, PasswordsDiffer) ]
  }

  /** What `onSubmit` decides before sending: the message of the first
      check that fails, or `None` when the request goes out. */
  function RegisterFailure(f: Register): Option<string> {
    if IsBlank(f.nome) then Some(NomeRequired)
    else if |Trim(f.nome)| < 3 then Some(NomeTooShort)
    else if IsBlank(f.email) then Some(EmailRequired)
    else if !ValidEmail(f.email) then Some(EmailInvalid)
    else if f.senha == "" then Some(SenhaRequired)
    else if !LengthRule(f.senha).valida then Some(LengthRule(f.senha).mensagem)
    else if f.confirmarSenha == "" then Some(ConfirmRequired)
    else if f.senha != f.confirmarSenha then Some(PasswordsDiffer)
    else None
  }

  /** The decision is the first failure of the declared check list. */
  lemma RegisterFailureIsFirst(f: Register)
    ensures RegisterFailure(f) == FirstFailure(RegisterChecks(f))
  {
    var cs := RegisterChecks(f);
    if IsBlank(f.nome) { FirstFailureAt(cs, 0); return; }
    PassesStep(cs, 0);
    if |Trim(f.nome)| < 3 { FirstFailureAt(cs, 1); return; }
    PassesStep(cs, 1);
    if IsBlank(f.email) { FirstFailureAt(cs, 2); return; }
    PassesStep(cs, 2);
    if !ValidEmail(f.email) { FirstFailureAt(cs, 3); return; }
    PassesStep(cs, 3);
    if f.senha == "" { FirstFailureAt(cs, 4); return; }
    PassesStep(cs, 4);
    if !LengthRule(f.senha).valida { FirstFailureAt(cs, 5); return; }
    PassesStep(cs, 5);
    if f.confirmarSenha == "" { FirstFailureAt(cs, 6); return; }
    PassesStep(cs, 6);
    if f.senha != f.confirmarSenha { FirstFailureAt(cs, 7); return; }
    PassesStep(cs, 7);
    FirstFailureNone(cs);
  }

  /** A request goes out exactly when every client check passes. */
  lemma RegisterSendsIff(f: Register)
    ensures RegisterFailure(f).None? <==>
      && !IsBlank(f.nome) && |Trim(f.nome)| >= 3
      && !IsBlank(f.email) && ValidEmail(f.email)
      && f.senha != "" && |f.senha| >= MinPasswordLength
      && f.confirmarSenha != "" && f.senha == f.confirmarSenha
  {
    if ValidEmail(f.email) {
      ValidEmailNotBlank(f.email);
    }
  }

  /** A mismatched confirmation never issues a request. */
  lemma MismatchNeverSends(f: Register)
    requires f.senha != f.confirmarSenha
    ensures RegisterFailure(f).Some?
  {
    RegisterSendsIff(f);
  }

  /** The "required" check on the password does not trim: six spaces,
      confirmed identically, pass every client check. */
  lemma BlankPasswordPasses(nome: string, email: string)
    requires |Trim(nome)| >= 3 && ValidEmail(email)
    ensures RegisterFailure(Register(nome, email, "      ", "      ")) == None
  {
    ValidEmailNotBlank(email);
    RegisterSendsIff(Register(nome, email, "      ", "      "));
  }

  /** The message shown by the `error` handler. */
  function RegisterErrorMessage(e: HttpError): (m: string)
    ensures m != ""
    ensures e.status != 400 ==> m == EmailTaken || m == ServerError || m == CannotConnect || m == RegisterFailed
  {
    if e.status == 409 then EmailTaken
    else if e.status == 400 then BodyErrorOr(e, InvalidData)
    else if e.status == 500 then ServerError
    else if e.status == 0 then CannotConnect
    else RegisterFailed
  }

  class CadastroComponent {
    var user: Register
    var errorMessage: string
    var successMessage: string
    var isLoading: bool
    /** Navigations requested so far (each after a timer in the source). */
    ghost var navigations: seq<Route>

    /** At most one of the two messages is shown. */
    predicate MessagesExclusive()
      reads this
    {
      errorMessage == "" || successMessage == ""
    }

    constructor ()
      ensures user == EmptyForm && errorMessage == "" && successMessage == ""
      ensures !isLoading && navigations == []
    {
      user := EmptyForm;
      errorMessage, successMessage := "", "";
      isLoading := false;
      navigations := [];
    }

    /** `goToLogin()`. */
    method GoToLogin()
      modifies this
      ensures navigations == old(navigations) + [ToLogin]
      ensures user == old(user) && errorMessage == old(errorMessage)
      ensures successMessage == old(successMessage) && isLoading == old(isLoading)
    {
      navigations := navigations + [ToLogin];
    }

    /** `onSubmit()` up to the request: clears both messages, runs the checks
        in order, stops at the first failure with its message, and otherwise
        sets the loading flag and returns the request body. */
    method Submit() returns (request: Option<Register>)
      modifies this
      ensures user == old(user) && navigations == old(navigations)
      ensures successMessage == "" && MessagesExclusive()
      ensures request == (if RegisterFailure(old(user)).None? then Some(old(user)) else None)
      ensures errorMessage == RegisterFailure(old(user)).GetOr("")
      ensures isLoading == (request.Some? || old(isLoading))
    {
      errorMessage := "";
      successMessage := "";
      var f := user;

      if IsBlank(f.nome) {
        errorMessage := NomeRequired;
        return None;
      }
      if |Trim(f.nome)| < 3 {
        errorMessage := NomeTooShort;
        return None;
      }
      if IsBlank(f.email) {
        errorMessage := EmailRequired;
        return None;
      }
      if !ValidEmail(f.email) {
        errorMessage := EmailInvalid;
        return None;
      }
      if f.senha == "" {
        errorMessage := SenhaRequired;
        return None;
      }
      var validacaoSenha := LengthRule(f.senha);
      if !validacaoSenha.valida {
        errorMessage := validacaoSenha.mensagem;
        return None;
      }
      if f.confirmarSenha == "" {
        errorMessage := ConfirmRequired;
        return None;
      }
      if f.senha != f.confirmarSenha {
        errorMessage := PasswordsDiffer;
        return None;
      }

      isLoading := true;
      request := Some(user);
    }

    /** The `next` and `error` handlers: the loading flag drops; a success
        shows the server's message, clears the form and asks for the login
        screen; any failure shows its message and clears the success one. */
    method OnResponse(outcome: Outcome)
      modifies this
      ensures !isLoading && MessagesExclusive()
      ensures match outcome
        case Next(Success(message, _, _, _)) =>
          successMessage == message && errorMessage == "" && user == EmptyForm
          && navigations == old(navigations) + [ToLogin]
        case Next(Failure(error)) =>
          errorMessage == error && successMessage == "" && user == old(user) && navigations == old(navigations)
        case Error(e) =>
          errorMessage == RegisterErrorMessage(e) && successMessage == ""
          && user == old(user) && navigations == old(navigations)
    {
      isLoading := false;
      match outcome
      case Next(resposta) =>
        if resposta.Success? {
          successMessage := resposta.message;
          errorMessage := "";
          user := EmptyForm;
          navigations := navigations + [ToLogin];
        } else {
          errorMessage := resposta.error;
          successMessage := "";
        }
      case Error(e) =>
        errorMessage := RegisterErrorMessage(e);
        successMessage := "";
    }
  }
}
