/**
 * What the screens exchange with the back end: the request payloads, the JSON
 * envelope `{success, message, ...}` / `{success: false, error}`, the error
 * object an HTTP failure delivers, the navigation targets, and the fail-fast
 * check chain every `onSubmit` runs.
 */
module Api {
  import opened Wrappers

  /** `usuario` in a response: the public part of a user row. */
  datatype Usuario = Usuario(id: int, nome: string, email: string)

  /** `ApiResponse`: the envelope of every response body.  `resetLink` is the
      `reset_link` field the forgot-password route adds. */
  datatype ApiResponse =
    | Success(message: string, accessToken: Option<string>, usuario: Option<Usuario>, resetLink: Option<string>)
    | Failure(error: string)

  /** The request payloads (`Register`, `Login`, `ForgotPassword`, `ResetPassword`). */
  datatype Register = Register(nome: string, email: string, senha: string, confirmarSenha: string)
  datatype Login = Login(email: string, senha: string)
  datatype ForgotPassword = ForgotPassword(email: string)
  datatype ResetPassword = ResetPassword(novaSenha: string, confirmarSenha: string, token: string)

  /** The error a failed request delivers: `error.status` (0 when the server
      cannot be reached) and `error.error?.error`, the body's `error` field
      when there is one. */
  datatype HttpError = HttpError(status: int, bodyError: Option<string>)

  /** How a request ends: the `next` handler with a body, or the `error`
      handler. */
  datatype Outcome = Next(response: ApiResponse) | Error(failure: HttpError)

  /** The navigations the screens ask the router for. */
  datatype Route = ToLogin | ToCadastro | ToEsqueceu | ToDashboard | ToRecuperar(token: string)

  /** `error.error?.error || fallback`: the body's message unless it is
      absent or empty. */
  function BodyErrorOr(e: HttpError, fallback: string): (m: string)
    ensures e.bodyError.Some? && e.bodyError.value != "" ==> m == e.bodyError.value
    ensures e.bodyError.None? || e.bodyError.value == "" ==> m == fallback
    ensures m == "" ==> fallback == ""
  {
    if e.bodyError.Some? && e.bodyError.value != "" then e.bodyError.value else fallback
  }

  const ServerError := "Erro no servidor. Tente novamente mais tarde"
  const CannotConnect := "Não foi possível conectar ao servidor. Verifique sua conexão"
  const EmailRequired := "Email é obrigatório"
  const EmailInvalid := "Email inválido. Deve conter @ e domínio válido"

  // ---------------------------------------------------------------------------
  // The fail-fast check chain
  // ---------------------------------------------------------------------------

  /** One client-side check: whether it fails, and the message it shows. */
  datatype Check = Check(fails: bool, message: string)

  ghost predicate PassesBefore(checks: seq<Check>, i: int) {
    forall j :: 0 <= j < i && j < |checks| ==> !checks[j].fails
  }

  /** The message of the first failing check at or after position `k`, or
      `None` when all of them pass. */
  function FirstFailureFrom(checks: seq<Check>, k: nat): Option<string>
    requires k <= |checks|
    decreases |checks| - k
  {
    if k == |checks| then None
    else if checks[k].fails then Some(checks[k].message)
    else FirstFailureFrom(checks, k + 1)
  }

  /** The message of the first failing check, or `None` when every check
      passes (and the request is sent). */
  function FirstFailure(checks: seq<Check>): Option<string> {
    FirstFailureFrom(checks, 0)
  }

  /** No message exactly when every check passes. */
  lemma FirstFailureNone(checks: seq<Check>)
    ensures FirstFailure(checks).None? <==> PassesBefore(checks, |checks|)
  {
    FirstFailureFromNone(checks, 0);
  }

  lemma {:induction false} FirstFailureFromNone(checks: seq<Check>, k: nat)
    requires k <= |checks|
    ensures FirstFailureFrom(checks, k).None? <==> forall j :: k <= j < |checks| ==> !checks[j].fails
    decreases |checks| - k
  {
    if k < |checks| && !checks[k].fails {
      FirstFailureFromNone(checks, k + 1);
    }
  }

  /** The check that fails first decides the message, whatever the later
      checks say. */
  lemma FirstFailureAt(checks: seq<Check>, i: nat)
    requires i < |checks| && checks[i].fails && PassesBefore(checks, i)
    ensures FirstFailure(checks) == Some(checks[i].message)
  {
    FirstFailureFromAt(checks, 0, i);
  }

  lemma {:induction false} FirstFailureFromAt(checks: seq<Check>, k: nat, i: nat)
    requires k <= i < |checks| && checks[i].fails
    requires forall j :: k <= j < i ==> !checks[j].fails
    ensures FirstFailureFrom(checks, k) == Some(checks[i].message)
    decreases i - k
  {
    if k < i {
      FirstFailureFromAt(checks, k + 1, i);
    }
  }

  /** A message is always that of a failing check all of whose predecessors
      pass. */
  lemma FirstFailureSome(checks: seq<Check>)
    requires FirstFailure(checks).Some?
    ensures exists i :: 0 <= i < |checks| && checks[i].fails && PassesBefore(checks, i)
                        && FirstFailure(checks).value == checks[i].message
  {
    FirstFailureFromSome(checks, 0);
  }

  lemma {:induction false} FirstFailureFromSome(checks: seq<Check>, k: nat)
    requires k <= |checks| && FirstFailureFrom(checks, k).Some?
    requires PassesBefore(checks, k)
    ensures exists i :: k <= i < |checks| && checks[i].fails && PassesBefore(checks, i)
                        && FirstFailureFrom(checks, k).value == checks[i].message
    decreases |checks| - k
  {
    if !checks[k].fails {
      FirstFailureFromSome(checks, k + 1);
    } else {
      assert checks[k].fails && PassesBefore(checks, k);
    }
  }

  /** One more passing check extends the passing prefix. */
  lemma PassesStep(checks: seq<Check>, k: nat)
    requires k < |checks| && PassesBefore(checks, k) && !checks[k].fails
    ensures PassesBefore(checks, k + 1)
  {
  }
}
