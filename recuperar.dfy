/**
 * The reset-password screen (`RecuperarComponent`): the token taken from the
 * address, the form, the message fields, the loading flag and `tokenValido`;
 * `ngOnInit`, the token gate and four-step check chain of `onSubmit`, the
 * payload it builds, and the handlers.
 */
module RecuperarScreen {
  import opened Wrappers
  import opened Text
  import opened Validation
  import opened Api

  const TokenNotFound := "Token não encontrado. Solicite um novo link de recuperação."
  const TokenGate := "Token inválido. Solicite um novo link de recuperação."
  const NovaSenhaRequired := "Nova senha é obrigatória"
  const ConfirmRequired := "Confirmação de senha é obrigatória"
  const PasswordsDiffer := "As senhas não conferem"
  const TokenRejected := "Token inválido ou expirado. Solicite um novo link"
  const ResetFailed := "Erro ao recuperar senha. Tente novamente"

  /** The password checks of `onSubmit`, in the order it runs them; both
      "required" checks trim, the length rule does not. */
  function ResetChecks(d: ResetPassword): seq<Check> {
    [ Check(IsBlank(d.novaSenha), NovaSenhaRequired),
      Check(!LengthRule(d.novaSenha).valida, LengthRule(d.novaSenha).mensagem),
      Check(IsBlank(d.confirmarSenha), ConfirmRequired),
      Check(d.novaSenha != d.confirmarSenha, PasswordsDiffer) ]
  }

  /** What `onSubmit` decides before sending: the token gate comes first,
      then the password checks. */
  function ResetFailure(tokenValido: bool, token: string, d: ResetPassword): Option<string> {
    if !tokenValido || token == "" then Some(TokenGate)
    else if IsBlank(d.novaSenha) then Some(NovaSenhaRequired)
    else if !LengthRule(d.novaSenha).valida then Some(LengthRule(d.novaSenha).mensagem)
    else if IsBlank(d.confirmarSenha) then Some(ConfirmRequired)
    else if d.novaSenha != d.confirmarSenha then Some(PasswordsDiffer)
    else None
  }

  /** Past the gate, the decision is the first failure of the check list. */
  lemma ResetFailureIsFirst(tokenValido: bool, token: string, d: ResetPassword)
    ensures ResetFailure(tokenValido, token, d) ==
      if !tokenValido || token == "" then Some(TokenGate) else FirstFailure(ResetChecks(d))
  {
    var cs := ResetChecks(d);
    if !tokenValido || token == "" { return; }
    if IsBlank(d.novaSenha) { FirstFailureAt(cs, 0); return; }
    PassesStep(cs, 0);
    if !LengthRule(d.novaSenha).valida { FirstFailureAt(cs, 1); return; }
    PassesStep(cs, 1);
    if IsBlank(d.confirmarSenha) { FirstFailureAt(cs, 2); return; }
    PassesStep(cs, 2);
    if d.novaSenha != d.confirmarSenha { FirstFailureAt(cs, 3); return; }
    PassesStep(cs, 3);
    FirstFailureNone(cs);
  }

  /** Without a usable token nothing is sent, whatever the form holds. */
  lemma GateBlocksEverything(tokenValido: bool, token: string, d: ResetPassword)
    requires !tokenValido || token == ""
    ensures ResetFailure(tokenValido, token, d) == Some(TokenGate)
  {
  }

  /** A request goes out exactly when there is a token and the two
      passwords are equal, not blank and at least six characters long. */
  lemma ResetSendsIff(tokenValido: bool, token: string, d: ResetPassword)
    ensures ResetFailure(tokenValido, token, d).None? <==>
      && tokenValido && token != ""
      && !IsBlank(d.novaSenha) && |d.novaSenha| >= MinPasswordLength
      && d.novaSenha == d.confirmarSenha
  {
  }

  /** The message shown by the `error` handler; there is no 401 or 409
      branch. */
  function ResetErrorMessage(e: HttpError): (m: string)
    ensures m != ""
    ensures e.status != 400 ==> m == ServerError || m == CannotConnect || m == ResetFailed
    ensures e.status == 400 ==> m == BodyErrorOr(e, TokenRejected)
  {
    if e.status == 400 then BodyErrorOr(e, TokenRejected)
    else if e.status == 500 then ServerError
    else if e.status == 0 then CannotConnect
    else ResetFailed
  }

  /** `queryParamMap.get('token') || ''`. */
  function TokenOrEmpty(query: Option<string>): (t: string)
    ensures t != "" <==> query.Some? && query.value != ""
    ensures t != "" ==> query == Some(t)
  {
    if query.Some? then query.value else ""
  }

  class RecuperarComponent {
    var token: string
    var data: ResetPassword
    var errorMessage: string
    var successMessage: string
    var isLoading: bool
    var tokenValido: bool
    /** Navigations requested so far (the login one after a timer). */
    ghost var navigations: seq<Route>

    /** At most one of the two messages is shown. */
    predicate MessagesExclusive()
      reads this
    {
      errorMessage == "" || successMessage == ""
    }

    constructor ()
      ensures token == "" && data == ResetPassword("", "", "")
      ensures errorMessage == "" && successMessage == "" && !isLoading && tokenValido
      ensures navigations == []
    {
      token := "";
      data := ResetPassword("", "", "");
      errorMessage, successMessage := "", "";
      isLoading := false;
      tokenValido := true;
      navigations := [];
    }

    /** `ngOnInit()`, given the `token` query parameter of the address: a
        missing or empty one marks the token invalid and says so; otherwise
        the form's token is set to it. */
    method Init(query: Option<string>)
      modifies this
      ensures token == TokenOrEmpty(query)
      ensures tokenValido == (old(tokenValido) && token != "")
      ensures token == "" ==> errorMessage == TokenNotFound && data == old(data)
      ensures token != "" ==> errorMessage == old(errorMessage) && data == old(data).(token := token)
      ensures successMessage == old(successMessage) && isLoading == old(isLoading) && navigations == old(navigations)
    {
      token := if query.Some? then query.value else "";
      if token == "" {
        tokenValido := false;
        errorMessage := TokenNotFound;
      } else {
        data := data.(token := token);
      }
    }

    /** `voltarParaLogin()`. */
    method VoltarParaLogin()
      modifies this
      ensures navigations == old(navigations) + [ToLogin]
      ensures token == old(token) && data == old(data) && tokenValido == old(tokenValido)
      ensures errorMessage == old(errorMessage) && successMessage == old(successMessage) && isLoading == old(isLoading)
    {
      navigations := navigations + [ToLogin];
    }

    /** `solicitarNovoLink()`. */
    method SolicitarNovoLink()
      modifies this
      ensures navigations == old(navigations) + [ToEsqueceu]
      ensures token == old(token) && data == old(data) && tokenValido == old(tokenValido)
      ensures errorMessage == old(errorMessage) && successMessage == old(successMessage) && isLoading == old(isLoading)
    {
      navigations := navigations + [ToEsqueceu];
    }

    /** `onSubmit()` up to the request: clears both messages, applies the
        token gate and the checks in order, and otherwise sets the loading
        flag and returns the payload, which carries the screen's `token`
        and the two password fields. */
    method Submit() returns (request: Option<ResetPassword>)
      modifies this
      ensures token == old(token) && data == old(data) && tokenValido == old(tokenValido)
      ensures navigations == old(navigations)
      ensures successMessage == "" && MessagesExclusive()
      ensures var failure := ResetFailure(old(tokenValido), old(token), old(data));
        && errorMessage == failure.GetOr("")
        && request == (if failure.None? then Some(ResetPassword(old(data).novaSenha, old(data).confirmarSenha, old(token))) else None)
      ensures isLoading == (request.Some? || old(isLoading))
    {
      errorMessage := "";
      successMessage := "";

      if !tokenValido || token == "" {
        errorMessage := TokenGate;
        return None;
      }

      var d := data;
      if IsBlank(d.novaSenha) {
        errorMessage := NovaSenhaRequired;
        return None;
      }
      var validacaoSenha := LengthRule(d.novaSenha);
      if !validacaoSenha.valida {
        errorMessage := validacaoSenha.mensagem;
        return None;
      }
      if IsBlank(d.confirmarSenha) {
        errorMessage := ConfirmRequired;
        return None;
      }
      if d.novaSenha != d.confirmarSenha {
        errorMessage := PasswordsDiffer;
        return None;
      }

      isLoading := true;
      request := Some(ResetPassword(d.novaSenha, d.confirmarSenha, token));
    }

    /** The `next` and `error` handlers: a success shows the server's
        message, clears both password fields (the token stays) and asks for
        the login screen; any failure shows its message. */
    method OnResponse(outcome: Outcome)
      modifies this
      ensures !isLoading && MessagesExclusive()
      ensures token == old(token) && tokenValido == old(tokenValido)
      ensures match outcome
        case Next(Success(message, _, _, _)) =>
          && successMessage == message && errorMessage == ""
          && data == ResetPassword("", "", old(data).token)
          && navigations == old(navigations) + [ToLogin]
        case Next(Failure(error)) =>
          errorMessage == error && successMessage == "" && data == old(data) && navigations == old(navigations)
        case Error(e) =>
          errorMessage == ResetErrorMessage(e) && successMessage == ""
          && data == old(data) && navigations == old(navigations)
    {
      isLoading := false;
      match outcome
      case Next(resposta) =>
        if resposta.Success? {
          successMessage := resposta.message;
          errorMessage := "";
          data := data.(novaSenha := "", confirmarSenha := "");
          navigations := navigations + [ToLogin];
        } else {
          errorMessage := resposta.error;
          successMessage := "";
        }
      case Error(e) =>
        errorMessage := ResetErrorMessage(e);
        successMessage := "";
    }
  }
}
