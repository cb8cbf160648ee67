/**
 * The forgot-password screen (`EsqueceuComponent`): the email field, the
 * message fields, the loading flag and the captured `resetLink`, the
 * two-step check chain of `onSubmit`, the handlers, and
 * `abrirLinkRecuperacao`, which reads the token back out of the link.
 */
module EsqueceuScreen {
  import opened Wrappers
  import opened Text
  import opened Validation
  import opened Api
  import opened Url

  const EmailInvalidShort := "Email inválido"
  const SendFailed := "Erro ao enviar email de recuperação. Tente novamente"

  /** The checks of `onSubmit`, in the order it runs them. */
  function ForgotChecks(d: ForgotPassword): seq<Check> {
    [ Check(IsBlank(d.email), EmailRequired),
      Check(!ValidEmail(d.email), EmailInvalid) ]
  }

  /** What `onSubmit` decides before sending. */
  function ForgotFailure(d: ForgotPassword): Option<string> {
    if IsBlank(d.email) then Some(EmailRequired)
    else if !ValidEmail(d.email) then Some(EmailInvalid)
    else None
  }

  /** The decision is the first failure of the declared check list. */
  lemma ForgotFailureIsFirst(d: ForgotPassword)
    ensures ForgotFailure(d) == FirstFailure(ForgotChecks(d))
  {
    var cs := ForgotChecks(d);
    if IsBlank(d.email) { FirstFailureAt(cs, 0); return; }
    PassesStep(cs, 0);
    if !ValidEmail(d.email) { FirstFailureAt(cs, 1); return; }
    PassesStep(cs, 1);
    FirstFailureNone(cs);
  }

  /** A request goes out exactly when the email is well formed: the blank
      check only chooses which message a bad email gets. */
  lemma ForgotSendsIff(d: ForgotPassword)
    ensures ForgotFailure(d).None? <==> ValidEmail(d.email)
    ensures ForgotFailure(d).Some? ==> ForgotFailure(d).value == EmailRequired || ForgotFailure(d).value == EmailInvalid
  {
    if ValidEmail(d.email) {
      ValidEmailNotBlank(d.email);
    }
  }

  /** The message shown by the `error` handler. */
  function ForgotErrorMessage(e: HttpError): (m: string)
    ensures m != ""
    ensures e.status != 400 ==> m == ServerError || m == CannotConnect || m == SendFailed
    ensures e.status == 400 ==> m == BodyErrorOr(e, EmailInvalidShort)
  {
    if e.status == 400 then BodyErrorOr(e, EmailInvalidShort)
    else if e.status == 500 then ServerError
    else if e.status == 0 then CannotConnect
    else SendFailed
  }

  /** `if (resposta.reset_link)`: the link is taken only when present and
      non-empty. */
  function CapturedLink(resposta: ApiResponse): (link: string)
    requires resposta.Success?
    ensures link != "" <==> resposta.resetLink.Some? && resposta.resetLink.value != ""
    ensures link != "" ==> resposta.resetLink == Some(link)
  {
    if resposta.resetLink.Some? && resposta.resetLink.value != "" then resposta.resetLink.value else ""
  }

  /** The token `abrirLinkRecuperacao` navigates with, if any: the link must
      be non-empty and carry a non-empty `token` parameter. */
  function LinkToken(resetLink: string): (t: Option<string>)
    ensures t.Some? ==> t == QueryParam(resetLink, "token") && t.value != "" && resetLink != ""
    ensures t.Some? <==> resetLink != "" && QueryParam(resetLink, "token").Some? && QueryParam(resetLink, "token").value != ""
  {
    if resetLink == "" then None
    else
      var token := QueryParam(resetLink, "token");
      if token.Some? && token.value != "" then token else None
  }

  class EsqueceuComponent {
    var data: ForgotPassword
    var errorMessage: string
    var successMessage: string
    var isLoading: bool
    var resetLink: string
    /** Navigations requested so far. */
    ghost var navigations: seq<Route>

    /** At most one of the two messages is shown. */
    predicate MessagesExclusive()
      reads this
    {
      errorMessage == "" || successMessage == ""
    }

    constructor ()
      ensures data == ForgotPassword("") && errorMessage == "" && successMessage == ""
      ensures !isLoading && resetLink == "" && navigations == []
    {
      data := ForgotPassword("");
      errorMessage, successMessage := "", "";
      isLoading := false;
      resetLink := "";
      navigations := [];
    }

    /** `goToLogin()`. */
    method GoToLogin()
      modifies this
      ensures navigations == old(navigations) + [ToLogin]
      ensures data == old(data) && errorMessage == old(errorMessage) && successMessage == old(successMessage)
      ensures isLoading == old(isLoading) && resetLink == old(resetLink)
    {
      navigations := navigations + [ToLogin];
    }

    /** `abrirLinkRecuperacao()`: with a link holding a token, asks for the
        reset screen with that token; otherwise changes nothing. */
    method AbrirLinkRecuperacao()
      modifies this
      ensures navigations == old(navigations) + (if LinkToken(resetLink).Some? then [ToRecuperar(LinkToken(resetLink).value)] else [])
      ensures data == old(data) && errorMessage == old(errorMessage) && successMessage == old(successMessage)
      ensures isLoading == old(isLoading) && resetLink == old(resetLink)
    {
      if resetLink != "" {
        var token := QueryParam(resetLink, "token");
        if token.Some? && token.value != "" {
          navigations := navigations + [ToRecuperar(token.value)];
        }
      }
    }

    /** `onSubmit()` up to the request: clears both messages and the link,
        runs the checks, and otherwise sets the loading flag and returns the
        request body. */
    method Submit() returns (request: Option<ForgotPassword>)
      modifies this
      ensures data == old(data) && navigations == old(navigations)
      ensures successMessage == "" && resetLink == "" && MessagesExclusive()
      ensures request == (if ForgotFailure(old(data)).None? then Some(old(data)) else None)
      ensures errorMessage == ForgotFailure(old(data)).GetOr("")
      ensures isLoading == (request.Some? || old(isLoading))
    {
      errorMessage := "";
      successMessage := "";
      resetLink := "";
      var d := data;

      if IsBlank(d.email) {
        errorMessage := EmailRequired;
        return None;
      }
      if !ValidEmail(d.email) {
        errorMessage := EmailInvalid;
        return None;
      }

      isLoading := true;
      request := Some(d);
    }

    /** The `next` and `error` handlers: a success shows the server's
        message and keeps the link when the body carries one. */
    method OnResponse(outcome: Outcome)
      modifies this
      ensures !isLoading && MessagesExclusive()
      ensures data == old(data) && navigations == old(navigations)
      ensures match outcome
        case Next(Success(message, _, _, _)) =>
          && successMessage == message && errorMessage == ""
          && resetLink == (if CapturedLink(outcome.response) != "" then CapturedLink(outcome.response) else old(resetLink))
        case Next(Failure(error)) =>
          errorMessage == error && successMessage == "" && resetLink == old(resetLink)
        case Error(e) =>
          errorMessage == ForgotErrorMessage(e) && successMessage == "" && resetLink == old(resetLink)
    {
      isLoading := false;
      match outcome
      case Next(resposta) =>
        if resposta.Success? {
          successMessage := resposta.message;
          errorMessage := "";
          if resposta.resetLink.Some? && resposta.resetLink.value != "" {
            resetLink := resposta.resetLink.value;
          }
        } else {
          errorMessage := resposta.error;
          successMessage := "";
        }
      case Error(e) =>
        errorMessage := ForgotErrorMessage(e);
        successMessage := "";
    }
  }
}
