/**
 * The login screen (`LoginComponent`): the credentials, the message fields
 * and the loading flag, the four-step check chain of `onSubmit`, the
 * `localStorage` writes of the success handler and the error mapping.
 */
module LoginScreen {
  import opened Wrappers
  import opened Text
  import opened Validation
  import opened Api

  const SenhaRequired := "Senha é obrigatória"
  const SenhaTooShort := "Senha deve ter no mínimo 6 caracteres"
  const WrongCredentials := "Email ou senha incorretos"
  const InvalidData := "Dados inválidos. Verifique os campos"
  const LoginFailed := "Erro ao fazer login. Tente novamente"

  /** The checks of `onSubmit`, in the order it runs them.  Unlike the
      required check, the length check looks at the untrimmed password. */
  function LoginChecks(c: Login): seq<Check> {
    [ Check(IsBlank(c.email), EmailRequired),
      Check(!ValidEmail(c.email), EmailInvalid),
      Check(IsBlank(c.senha), SenhaRequired),
      Check(|c.senha| < 6, SenhaTooShort) ]
  }

  /** What `onSubmit` decides before sending: the message of the first check
      that fails, or `None` when the request goes out. */
  function LoginFailure(c: Login): Option<string> {
    if IsBlank(c.email) then Some(EmailRequired)
    else if !ValidEmail(c.email) then Some(EmailInvalid)
    else if IsBlank(c.senha) then Some(SenhaRequired)
    else if |c.senha| < 6 then Some(SenhaTooShort)
    else None
  }

  /** The decision is the first failure of the declared check list. */
  lemma LoginFailureIsFirst(c: Login)
    ensures LoginFailure(c) == FirstFailure(LoginChecks(c))
  {
    var cs := LoginChecks(c);
    if IsBlank(c.email) { FirstFailureAt(cs, 0); return; }
    PassesStep(cs, 0);
    if !ValidEmail(c.email) { FirstFailureAt(cs, 1); return; }
    PassesStep(cs, 1);
    if IsBlank(c.senha) { FirstFailureAt(cs, 2); return; }
    PassesStep(cs, 2);
    if |c.senha| < 6 { FirstFailureAt(cs, 3); return; }
    PassesStep(cs, 3);
    FirstFailureNone(cs);
  }

  /** A request goes out exactly when the email is well formed and the
      password is not blank and has at least six characters. */
  lemma LoginSendsIff(c: Login)
    ensures LoginFailure(c).None? <==>
      ValidEmail(c.email) && !IsBlank(c.senha) && |c.senha| >= MinPasswordLength
  {
    if ValidEmail(c.email) {
      ValidEmailNotBlank(c.email);
    }
  }

  /** A password of six spaces passes the length rule but not the trimmed
      required check. */
  lemma BlankPasswordRejected(email: string)
    requires ValidEmail(email)
    ensures LoginFailure(Login(email, "      ")) == Some(SenhaRequired)
  {
    ValidEmailNotBlank(email);
    assert AllWhitespace("      ");
    BlankIffAllWhitespace("      ");
  }

  /** The message shown by the `error` handler. */
  function LoginErrorMessage(e: HttpError): (m: string)
    ensures m != ""
    ensures e.status == 401 ==> m == WrongCredentials
    ensures m == WrongCredentials ==> e.status == 401 || e.bodyError == Some(WrongCredentials)
    ensures e.status != 400 && e.status != 401 ==> m == ServerError || m == CannotConnect || m == LoginFailed
  {
    if e.status == 401 then WrongCredentials
    else if e.status == 400 then BodyErrorOr(e, InvalidData)
    else if e.status == 500 then ServerError
    else if e.status == 0 then CannotConnect
    else LoginFailed
  }

  class LoginComponent {
    var credentials: Login
    var errorMessage: string
    var successMessage: string
    var isLoading: bool
    var rememberMe: bool
    /** Navigations requested so far (the dashboard one after a timer). */
    ghost var navigations: seq<Route>
    /** What this screen wrote to the `access_token` and `user` entries of
        `localStorage`. */
    ghost var storedToken: Option<string>
    ghost var storedUser: Option<Usuario>

    /** At most one of the two messages is shown. */
    predicate MessagesExclusive()
      reads this
    {
      errorMessage == "" || successMessage == ""
    }

    constructor ()
      ensures credentials == Login("", "") && errorMessage == "" && successMessage == ""
      ensures !isLoading && !rememberMe && navigations == []
      ensures storedToken == None && storedUser == None
    {
      credentials := Login("", "");
      errorMessage, successMessage := "", "";
      isLoading, rememberMe := false, false;
      navigations := [];
      storedToken, storedUser := None, None;
    }

    /** `goToRegister()`. */
    method GoToRegister()
      modifies this
      ensures navigations == old(navigations) + [ToCadastro]
      ensures credentials == old(credentials) && errorMessage == old(errorMessage) && rememberMe == old(rememberMe)
      ensures successMessage == old(successMessage) && isLoading == old(isLoading)
      ensures storedToken == old(storedToken) && storedUser == old(storedUser)
    {
      navigations := navigations + [ToCadastro];
    }

    /** `goToForgot()`. */
    method GoToForgot()
      modifies this
      ensures navigations == old(navigations) + [ToEsqueceu]
      ensures credentials == old(credentials) && errorMessage == old(errorMessage) && rememberMe == old(rememberMe)
      ensures successMessage == old(successMessage) && isLoading == old(isLoading)
      ensures storedToken == old(storedToken) && storedUser == old(storedUser)
    {
      navigations := navigations + [ToEsqueceu];
    }

    /** `onSubmit()` up to the request: clears both messages, runs the checks
        in order, stops at the first failure with its message, and otherwise
        sets the loading flag and returns the credentials to send. */
    method Submit() returns (request: Option<Login>)
      modifies this
      ensures credentials == old(credentials) && navigations == old(navigations) && rememberMe == old(rememberMe)
      ensures storedToken == old(storedToken) && storedUser == old(storedUser)
      ensures successMessage == "" && MessagesExclusive()
      ensures request == (if LoginFailure(old(credentials)).None? then Some(old(credentials)) else None)
      ensures errorMessage == LoginFailure(old(credentials)).GetOr("")
      ensures isLoading == (request.Some? || old(isLoading))
    {
      errorMessage := "";
      successMessage := "";
      var c := credentials;

      if IsBlank(c.email) {
        errorMessage := EmailRequired;
        return None;
      }
      if !ValidEmail(c.email) {
        errorMessage := EmailInvalid;
        return None;
      }
      if IsBlank(c.senha) {
        errorMessage := SenhaRequired;
        return None;
      }
      if |c.senha| < 6 {
        errorMessage := SenhaTooShort;
        return None;
      }

      isLoading := true;
      request := Some(c);
    }

    /** The `next` and `error` handlers.  A success shows the server's
        message, stores the token when the body has one and the user only
        together with a token, and asks for the dashboard whether or not a
        token came back; any failure shows its message. */
    method OnResponse(outcome: Outcome)
      modifies this
      ensures !isLoading && MessagesExclusive() && credentials == old(credentials) && rememberMe == old(rememberMe)
      ensures match outcome
        case Next(Success(message, token, usuario, _)) =>
          && successMessage == message && errorMessage == ""
          && navigations == old(navigations) + [ToDashboard]
          && storedToken == (if token.Some? then token else old(storedToken))
          && storedUser == (if token.Some? && usuario.Some? then usuario else old(storedUser))
        case Next(Failure(error)) =>
          && errorMessage == error && successMessage == "" && navigations == old(navigations)
          && storedToken == old(storedToken) && storedUser == old(storedUser)
        case Error(e) =>
          && errorMessage == LoginErrorMessage(e) && successMessage == ""
          && navigations == old(navigations)
          && storedToken == old(storedToken) && storedUser == old(storedUser)
    {
      isLoading := false;
      match outcome
      case Next(resposta) =>
        if resposta.Success? {
          successMessage := resposta.message;
          errorMessage := "";
          if resposta.accessToken.Some? {
            storedToken := resposta.accessToken;
            if resposta.usuario.Some? {
              storedUser := resposta.usuario;
            }
          }
          navigations := navigations + [ToDashboard];
        } else {
          errorMessage := resposta.error;
          successMessage := "";
        }
      case Error(e) =>
        errorMessage := LoginErrorMessage(e);
        successMessage := "";
    }
  }
}
