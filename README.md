# login-cadastro-api in Dafny

This project models the login and registration application in Dafny. The application has an Angular front end with four screens: login, registration (*cadastro*), forgot password (*esqueceu*) and reset password (*recuperar*). Its Flask back end serves four account routes over a `users` table. The model has three layers.

- **Validators** (`Text`, `Validation`).
  - The e-mail expression `^[^\s@]+@[^\s@]+\.[^\s@]+$` becomes a six-state automaton. It is proved equal to a plain description of the shape: no white space, exactly one `@` with text before it, and a dot after it with a character on each side.
  - The four password flags of `SenhaRequisitos` and `senhaForte`.
  - The length-only rule that the registration and reset screens define for themselves.
  - JavaScript's `trim()` and `\s`.
- **Screens** (`CadastroScreen`, `LoginScreen`, `EsqueceuScreen`, `RecuperarScreen`). Each component is a Dafny class with the component's own fields.
  - `Submit()` is the part of `onSubmit()` before the request. It clears the messages, runs the checks in order, stops at the first failure and returns the payload it would post, or `None`.
  - `OnResponse(outcome)` is the `next`/`error` handler pair.
  - Router navigations and `localStorage` writes are ghost fields that record the effect.
  - Each screen's decision is also a function (`RegisterFailure`, …). Lemmas prove it is the first failure of the declared check list (`Api.FirstFailure`) and say exactly when a request goes out.
- **Back end** (`Accounts`).
  - Each route is a function from the table before the request to the reply and the table after it.
  - Each route is also a method of `Database` that updates `users` in place, proved equal to that function.
  - Lemmas state the routes' promises: check order, unchanged table on every error, unique emails, a login error that does not tell which credential was wrong, single-use and expiring reset tokens, and the whole register/login and forgot/reset/login sequences.
- **Flows** (`Flows`) joins the layers.
  - It gives the HTTP client's delivery of a reply.
  - It gives the JSON bodies the screens post.
  - It proves that the link the forgot route builds gives its token back to the forgot screen.
  - It proves that what a screen lets through passes the route's own checks.
  - It proves what the user finally sees in the main scenarios.

Library behaviour enters as parameters:
- the password hash and its check (`Crypto`, with the single assumed fact `Sound`: a password checks against its own hash);
- the JWT issuer (`issue`);
- the reset token drawn by `generate_reset_token`;
- the clock (`now`, in seconds);
- the error a `commit` raises (`fault`).

Two behaviours of the code worth noting:
- No screen cancels its pending navigation timer when it is destroyed; no component has teardown code.
- A reset screen opened without a token first shows "Token não encontrado…". A submit then replaces it with "Token inválido. Solicite um novo link de recuperação." (`Flows.MissingTokenScenario`).

Observations the model makes explicit:
- The link built by the forgot route points at `/recuperar-senha`. The front end's route table only has `/recuperar`, and `abrirLinkRecuperacao` reaches that route by copying the token.
- The login screen navigates to `/dashboard`, which is not in the route table either.
- The registration screen's "required" check on the password does not trim, but the login screen's does. A six-space password therefore registers, and the login screen then never sends it (`Flows.BlankPasswordAccount`).

## Model

| member | source | states |
|---|---|---|
| `Text.TrimStart` | frontend/src/app/components/cadastro-component/cadastro-component.ts:52 | the leading half of `trim()`; defined by its body, its properties are stated by `Text.TrimStartSpec` |
| `Text.TrimEnd` | frontend/src/app/components/cadastro-component/cadastro-component.ts:52 | the trailing half of `trim()`; defined by its body, its properties are stated by `Text.TrimEndSpec` |
| `Text.Trim` | frontend/src/app/components/cadastro-component/cadastro-component.ts:58 | `s.trim()`; defined by its body, its properties are stated by `Text.TrimSpec` |
| `Text.IsBlank` | frontend/src/app/components/login-component/login-component.ts:47 | `!s \|\| s.trim() === ''`; defined by its body, its meaning is stated by `Text.BlankIffAllWhitespace` |
| `Text.TrimStartSpec` | frontend/src/app/components/cadastro-component/cadastro-component.ts:52-58 | leading trim removes exactly a white-space prefix and stops at a non-white-space character |
| `Text.TrimEndSpec` | frontend/src/app/components/cadastro-component/cadastro-component.ts:52-58 | trailing trim removes exactly a white-space suffix and stops at a non-white-space character |
| `Text.TrimSpec` | frontend/src/app/components/cadastro-component/cadastro-component.ts:58 | `trim()` is a slice `s[a..b]` with only white space before and after it, and neither end of a non-empty result is white space |
| `Text.BlankIffAllWhitespace` | frontend/src/app/components/login-component/login-component.ts:47 | `!s \|\| s.trim() === ''` holds exactly when every character of `s` is white space |
| `Validation.ValidEmail` | frontend/src/app/core/services/validation.service.ts:15-18 | `emailRegex.test(email)`, the expression run as an automaton (the screens carry identical copies, e.g. cadastro-component.ts:33-36); defined by its body, its meaning is stated by `Validation.ValidEmailIffShape`, `Validation.EmailRejects` and `Validation.ValidEmailNotBlank` |
| `Validation.ValidEmailIffShape` | frontend/src/app/core/services/validation.service.ts:15-18 | the expression accepts exactly the strings with no white space, one `@` with text before it, and a dot after it flanked by characters |
| `Validation.EmailRejects` | frontend/src/app/core/services/validation.service.ts:16 | any string with white space, no `@`, or two `@` is rejected |
| `Validation.ValidEmailNotBlank` | frontend/src/app/components/cadastro-component/cadastro-component.ts:63-73 | an accepted address is never blank, so the required check never masks the shape check |
| `Validation.ContainsInRange` | frontend/src/app/core/services/validation.service.ts:23-25 | the class test `[lo-hi]` is true exactly when some character lies in the range |
| `Validation.ValidarSenha` | frontend/src/app/core/services/validation.service.ts:20-27 | `minLength` iff length at least 6; `hasUpper`, `hasLower`, `hasNumber` iff some character in `A-Z`, `a-z`, `0-9` |
| `Validation.Every` | frontend/src/app/core/services/validation.service.ts:31 | `every` is true exactly when all values are true |
| `Validation.SenhaForte` | frontend/src/app/core/services/validation.service.ts:29-32 | strong exactly when all four flags hold; a strong password has at least 6 characters |
| `Validation.RequirementExamples` | frontend/src/app/core/services/validation.service.ts:20-32 | "Abc123" meets all four flags, "abc" only `hasLower`; the first is strong, the second is not |
| `Validation.LengthRule` | frontend/src/app/components/cadastro-component/cadastro-component.ts:39-44 | the screens' rule is valid exactly when `minLength` holds, and then exactly when its message is empty |
| `Api.BodyErrorOr` | frontend/src/app/components/cadastro-component/cadastro-component.ts:146 | `error.error?.error \|\| fallback` is the body's message when it is present and non-empty, and otherwise the fallback |
| `Api.FirstFailureNone` | frontend/src/app/components/cadastro-component/cadastro-component.ts:51-98 | a fail-fast chain produces no message exactly when every check passes |
| `Api.FirstFailureAt` | frontend/src/app/components/cadastro-component/cadastro-component.ts:51-98 | the first failing check decides the message whatever the later checks say |
| `Api.FirstFailureSome` | frontend/src/app/components/cadastro-component/cadastro-component.ts:51-98 | every message is that of a failing check all of whose predecessors pass |
| `CadastroScreen.RegisterFailure` | frontend/src/app/components/cadastro-component/cadastro-component.ts:51-98 | the message of the first failing check of `onSubmit`, or none; defined by its body, its properties are stated by `CadastroScreen.RegisterFailureIsFirst` and `CadastroScreen.RegisterSendsIff` |
| `CadastroScreen.RegisterFailureIsFirst` | frontend/src/app/components/cadastro-component/cadastro-component.ts:51-98 | the submit decision is the first failure of the eight checks in source order |
| `CadastroScreen.RegisterSendsIff` | frontend/src/app/components/cadastro-component/cadastro-component.ts:51-112 | a request goes out exactly when name, email and both passwords pass all eight checks |
| `CadastroScreen.MismatchNeverSends` | frontend/src/app/components/cadastro-component/cadastro-component.ts:94-98 | a mismatched confirmation never issues a request |
| `CadastroScreen.BlankPasswordPasses` | frontend/src/app/components/cadastro-component/cadastro-component.ts:75-86 | six spaces, confirmed identically, pass every client check |
| `CadastroScreen.RegisterErrorMessage` | frontend/src/app/components/cadastro-component/cadastro-component.ts:142-153 | some message is always shown; outside 400 it is one of the fixed texts |
| `CadastroScreen.CadastroComponent.constructor` | frontend/src/app/components/cadastro-component/cadastro-component.ts:15-24 | empty form, no messages, not loading, no navigation |
| `CadastroScreen.CadastroComponent.GoToLogin` | frontend/src/app/components/cadastro-component/cadastro-component.ts:28-30 | records the navigation to the login screen and changes nothing else |
| `CadastroScreen.CadastroComponent.Submit` | frontend/src/app/components/cadastro-component/cadastro-component.ts:46-112 | messages cleared, the first failure shown, the form returned as the request only when all checks pass, loading set only then |
| `CadastroScreen.CadastroComponent.OnResponse` | frontend/src/app/components/cadastro-component/cadastro-component.ts:113-156 | loading drops and at most one message shows; a success shows the server's message, clears the form and asks for login; failures keep form and route |
| `LoginScreen.LoginFailure` | frontend/src/app/components/login-component/login-component.ts:46-68 | the message of the first failing check of `onSubmit`, or none; defined by its body, its properties are stated by `LoginScreen.LoginFailureIsFirst` and `LoginScreen.LoginSendsIff` |
| `LoginScreen.LoginFailureIsFirst` | frontend/src/app/components/login-component/login-component.ts:46-68 | the submit decision is the first failure of the four checks in source order |
| `LoginScreen.LoginSendsIff` | frontend/src/app/components/login-component/login-component.ts:46-80 | a request goes out exactly for a valid email and a non-blank password of at least 6 characters |
| `LoginScreen.BlankPasswordRejected` | frontend/src/app/components/login-component/login-component.ts:59-62 | six spaces are refused by the trimmed required check |
| `LoginScreen.LoginErrorMessage` | frontend/src/app/components/login-component/login-component.ts:113-123 | 401 shows "Email ou senha incorretos"; that text otherwise only comes from a 400 body; other statuses give fixed texts |
| `LoginScreen.LoginComponent.constructor` | frontend/src/app/components/login-component/login-component.ts:15-23 | empty credentials, no messages, nothing stored, no navigation |
| `LoginScreen.LoginComponent.GoToRegister` | frontend/src/app/components/login-component/login-component.ts:27-29 | records the navigation to registration and changes no other field, `rememberMe` included |
| `LoginScreen.LoginComponent.GoToForgot` | frontend/src/app/components/login-component/login-component.ts:31-33 | records the navigation to the forgot screen and changes no other field, `rememberMe` included |
| `LoginScreen.LoginComponent.Submit` | frontend/src/app/components/login-component/login-component.ts:41-80 | messages cleared, the first failure shown, credentials returned as the request only when all checks pass; credentials, storage, navigations and `rememberMe` unchanged |
| `LoginScreen.LoginComponent.OnResponse` | frontend/src/app/components/login-component/login-component.ts:81-126 | on success the token is stored iff present, the user only with a token, and the dashboard is requested either way; failures store nothing; credentials and `rememberMe` unchanged |
| `EsqueceuScreen.ForgotFailure` | frontend/src/app/components/esqueceu-component/esqueceu-component.ts:59-69 | the message of the first failing check of `onSubmit`, or none; defined by its body, its properties are stated by `EsqueceuScreen.ForgotFailureIsFirst` and `EsqueceuScreen.ForgotSendsIff` |
| `EsqueceuScreen.ForgotFailureIsFirst` | frontend/src/app/components/esqueceu-component/esqueceu-component.ts:59-69 | the submit decision is the first failure of the two checks |
| `EsqueceuScreen.ForgotSendsIff` | frontend/src/app/components/esqueceu-component/esqueceu-component.ts:59-72 | a request goes out exactly for a valid email; otherwise one of the two messages |
| `EsqueceuScreen.ForgotErrorMessage` | frontend/src/app/components/esqueceu-component/esqueceu-component.ts:106-114 | 400 shows the body's error or "Email inválido"; other statuses give fixed texts |
| `EsqueceuScreen.CapturedLink` | frontend/src/app/components/esqueceu-component/esqueceu-component.ts:90-95 | the link is kept exactly when `reset_link` is present and non-empty, and is then that field |
| `EsqueceuScreen.LinkToken` | frontend/src/app/components/esqueceu-component/esqueceu-component.ts:38-51 | the token is the link's `token` query parameter, taken only from a non-empty link when that parameter is non-empty |
| `EsqueceuScreen.EsqueceuComponent.constructor` | frontend/src/app/components/esqueceu-component/esqueceu-component.ts:16-23 | empty email, no messages, no link, no navigation |
| `EsqueceuScreen.EsqueceuComponent.GoToLogin` | frontend/src/app/components/esqueceu-component/esqueceu-component.ts:27-29 | records the navigation to login only |
| `EsqueceuScreen.EsqueceuComponent.AbrirLinkRecuperacao` | frontend/src/app/components/esqueceu-component/esqueceu-component.ts:38-51 | asks for the reset screen with the link's token when there is one; otherwise changes nothing |
| `EsqueceuScreen.EsqueceuComponent.Submit` | frontend/src/app/components/esqueceu-component/esqueceu-component.ts:53-80 | messages and link cleared, the first failure shown, the email returned as the request only when both checks pass |
| `EsqueceuScreen.EsqueceuComponent.OnResponse` | frontend/src/app/components/esqueceu-component/esqueceu-component.ts:81-117 | loading drops, at most one message; a success shows the message and keeps a non-empty `reset_link` |
| `RecuperarScreen.ResetFailure` | frontend/src/app/components/recuperar-component/recuperar-component.ts:66-95 | the token gate, then the message of the first failing password check, or none; defined by its body, its properties are stated by `RecuperarScreen.ResetFailureIsFirst`, `RecuperarScreen.GateBlocksEverything` and `RecuperarScreen.ResetSendsIff` |
| `RecuperarScreen.ResetFailureIsFirst` | frontend/src/app/components/recuperar-component/recuperar-component.ts:66-95 | the token gate comes first, then the first failure of the four password checks |
| `RecuperarScreen.GateBlocksEverything` | frontend/src/app/components/recuperar-component/recuperar-component.ts:67-70 | without a valid, non-empty token the gate's message is shown whatever the form holds |
| `RecuperarScreen.ResetSendsIff` | frontend/src/app/components/recuperar-component/recuperar-component.ts:66-98 | a request goes out exactly with a token and two equal, non-blank passwords of at least 6 characters |
| `RecuperarScreen.ResetErrorMessage` | frontend/src/app/components/recuperar-component/recuperar-component.ts:142-150 | 400 shows the body's error or the expired-token text; no 401 or 409 branch |
| `RecuperarScreen.TokenOrEmpty` | frontend/src/app/components/recuperar-component/recuperar-component.ts:36 | `get('token') \|\| ''` is non-empty exactly for a present, non-empty parameter, and is then that parameter |
| `RecuperarScreen.RecuperarComponent.constructor` | frontend/src/app/components/recuperar-component/recuperar-component.ts:15-26 | empty token and form, no messages, `tokenValido` true |
| `RecuperarScreen.RecuperarComponent.Init` | frontend/src/app/components/recuperar-component/recuperar-component.ts:34-46 | a missing or empty token clears `tokenValido` and shows "Token não encontrado"; otherwise the form's token is set |
| `RecuperarScreen.RecuperarComponent.VoltarParaLogin` | frontend/src/app/components/recuperar-component/recuperar-component.ts:57-59 | records the navigation to login only |
| `RecuperarScreen.RecuperarComponent.SolicitarNovoLink` | frontend/src/app/components/recuperar-component/recuperar-component.ts:158-160 | records the navigation to the forgot screen and changes no other field |
| `RecuperarScreen.RecuperarComponent.Submit` | frontend/src/app/components/recuperar-component/recuperar-component.ts:61-115 | messages cleared, gate then checks, the payload carries both password fields and the screen's `token` |
| `RecuperarScreen.RecuperarComponent.OnResponse` | frontend/src/app/components/recuperar-component/recuperar-component.ts:116-153 | a success clears both password fields, keeps the token and asks for login; failures change only the messages |
| `Url.IndexFrom` | frontend/src/app/components/esqueceu-component/esqueceu-component.ts:41-42 | the search finds the first occurrence of the character, or the end |
| `Url.Split` | frontend/src/app/components/esqueceu-component/esqueceu-component.ts:42 | cutting at `&` gives at least one piece and no piece holds a separator |
| `Url.SplitJoin` | frontend/src/app/components/esqueceu-component/esqueceu-component.ts:42 | gluing the pieces back gives the query again |
| `Url.PlusToSpace` | frontend/src/app/components/esqueceu-component/esqueceu-component.ts:42 | form decoding maps every `+` to a space and keeps every other character |
| `Url.Query` | frontend/src/app/components/esqueceu-component/esqueceu-component.ts:41-42 | `url.search` without its `?`: the text after the first `?` and before any `#`; defined by its body, used by `Url.QueryParamSingle` |
| `Url.QueryParam` | frontend/src/app/components/esqueceu-component/esqueceu-component.ts:42 | `searchParams.get(name)`: the decoded value of the first piece with that name, or none; defined by its body, its properties are stated by `Url.LookupFromFirst`, `Url.LookupFromNone` and `Url.QueryParamSingle` |
| `Url.LookupFromFirst` | frontend/src/app/components/esqueceu-component/esqueceu-component.ts:42 | `searchParams.get` returns the value of the first non-empty piece with that name |
| `Url.LookupFromNone` | frontend/src/app/components/esqueceu-component/esqueceu-component.ts:42 | `get` returns null exactly when no piece carries the name |
| `Url.QueryParamSingle` | frontend/src/app/components/esqueceu-component/esqueceu-component.ts:41-42 | a link with one plain parameter gives its value back |
| `Accounts.ToDict` | backend/models.py:22-27 | `to_dict()`: id, name and email of the row; defined by its body, `Accounts.ToDictIgnoresSecrets` states that nothing secret enters it |
| `Accounts.ToDictIgnoresSecrets` | backend/models.py:22-27 | `to_dict` is the same whatever the password hash, reset token and expiry are, so none of them leaks |
| `Accounts.LoginIgnoresResetColumns` | backend/auth/routes.py:83-104 | the `/login` reply is the same whatever any row's reset token and expiry are |
| `Accounts.FindByEmailFrom` | backend/auth/routes.py:34 | `filter_by(email).first()` finds the first row with that email, or reports that none has it |
| `Accounts.FindByTokenFrom` | backend/auth/routes.py:200 | `filter_by(reset_token).first()` finds the first row holding the token, or reports that none holds it |
| `Accounts.FindByEmail` | backend/auth/routes.py:34 | `User.query.filter_by(email=...).first()`, i.e. `Accounts.FindByEmailFrom` from the first row, whose contract characterises it |
| `Accounts.FindByToken` | backend/auth/routes.py:200 | `User.query.filter_by(reset_token=...).first()`, i.e. `Accounts.FindByTokenFrom` from the first row, whose contract characterises it |
| `Accounts.RegisterStep` | backend/auth/routes.py:14-64 | `/cadastrar` as a function of the table; defined by its body, its properties are stated by `Accounts.RegisterErrorsKeepTable`, `Accounts.RegisterOrder`, `Accounts.RegisterSuccess` and `Accounts.RegisterKeepsValid` |
| `Accounts.LoginReply` | backend/auth/routes.py:70-104 | `/login` as a function of the table; defined by its body, its properties are stated by `Accounts.LoginSuccessIff`, `Accounts.LoginHidesWhichCredential` and `Accounts.LoginIgnoresResetColumns` |
| `Accounts.ForgotStep` | backend/auth/routes.py:116-170 | `/esqueceuSenha` as a function of the table; defined by its body, its properties are stated by `Accounts.ForgotOrder`, `Accounts.ForgotUnknownKeepsTable`, `Accounts.ForgotSetsOnlyThatRow` and `Accounts.ForgotKeepsValid` |
| `Accounts.ResetStep` | backend/auth/routes.py:176-237 | `/recuperarSenha` as a function of the table; defined by its body, its properties are stated by `Accounts.ResetErrorsKeepTable`, `Accounts.ResetOrder`, `Accounts.ResetSuccess`, `Accounts.ResetKeepsValid` and `Accounts.ResetSingleUse` |
| `Accounts.RegisterErrorsKeepTable` | backend/auth/routes.py:14-64 | only 201, 400, 409 and 500 occur, and every non-201 reply is a failure with the table unchanged |
| `Accounts.RegisterOrder` | backend/auth/routes.py:20-38 | 400 required-fields, then 400 mismatch, then 409 duplicate email, each exactly under its condition and the earlier ones passing |
| `Accounts.RegisterSuccess` | backend/auth/routes.py:41-56 | a 201 appends exactly one row with the next key, name, email, hashed password and no token, and returns its public part |
| `Accounts.RegisterKeepsValid` | backend/auth/routes.py:33-49 | registration keeps keys distinct and emails unique |
| `Accounts.LoginHidesWhichCredential` | backend/auth/routes.py:83-90 | an unknown email and a wrong password get the same 401 reply |
| `Accounts.LoginSuccessIff` | backend/auth/routes.py:70-104 | 200 exactly for a row with that email whose hash checks; only then a token and the row's public part |
| `Accounts.RegisterThenLogin` | backend/auth/routes.py:41-104 | a freshly registered account logs in with its password |
| `Accounts.ForgotUnknownKeepsTable` | backend/auth/routes.py:116-137 | errors and an unknown email leave the table unchanged; the unknown email gets the generic success |
| `Accounts.ForgotOrder` | backend/auth/routes.py:118-145 | a body that is not a JSON object gives 500; 400 "Email é obrigatório" exactly for a missing or empty email; a known email whose commit fails gives 500; none of them changes the table |
| `Accounts.ForgotSetsOnlyThatRow` | backend/auth/routes.py:139-163 | for a known email only that row's token and its 30-minute expiry change, and the reply carries the link |
| `Accounts.ForgotKeepsValid` | backend/auth/routes.py:139-145 | issuing a token keeps the table's invariant |
| `Accounts.ResetErrorsKeepTable` | backend/auth/routes.py:176-237 | only 200, 400 and 500 occur, and every non-200 reply is a failure with the table unchanged |
| `Accounts.ResetOrder` | backend/auth/routes.py:185-214 | required fields, mismatch, unknown token, expiry in that order; expiry equal to now is still accepted |
| `Accounts.ResetSuccess` | backend/auth/routes.py:216-230 | a 200 rehashes the token holder's password, clears its token and expiry, and changes no other row |
| `Accounts.ResetKeepsValid` | backend/auth/routes.py:216-224 | resetting keeps the table's invariant |
| `Accounts.ResetSingleUse` | backend/auth/routes.py:199-224 | when one row held the token, after a successful reset any later request with it is refused as "Token inválido" and nothing changes |
| `Accounts.ForgotThenResetThenLogin` | backend/auth/routes.py:116-230 | a token used before expiry resets the password, and the account logs in with the new one |
| `Accounts.Database.constructor` | backend/models.py:4-14 | an empty table satisfies the invariant |
| `Accounts.Database.Cadastro` | backend/auth/routes.py:14-64 | reply and new table are those of the registration function, and the invariant is kept |
| `Accounts.Database.Login` | backend/auth/routes.py:70-110 | the reply is that of the login function and nothing is written |
| `Accounts.Database.EsqueceuSenha` | backend/auth/routes.py:116-170 | reply and new table are those of the forgot function, and the invariant is kept |
| `Accounts.Database.RecuperarSenha` | backend/auth/routes.py:176-237 | reply and new table are those of the reset function, and the invariant is kept |
| `Flows.Deliver` | frontend/src/app/core/services/api-service.ts:15-29 | a 2xx reaches `next` with the body; anything else reaches `error` with the status and the body's error |
| `Flows.ResetLinkRoundTrip` | backend/auth/routes.py:148 | the forgot screen reads back from the built link exactly the 32-digit hex token |
| `Flows.RegisterScreenSatisfiesRoute` | backend/auth/routes.py:20-31 | a form the registration screen sends passes the route's required and confirmation checks |
| `Flows.DuplicateEmailShown` | frontend/src/app/components/cadastro-component/cadastro-component.ts:143-144 | a taken email ends with "Este email já está cadastrado" on the screen |
| `Flows.LoginFailureLooksTheSame` | frontend/src/app/components/login-component/login-component.ts:113-114 | unknown email and wrong password end with the same screen message |
| `Flows.BlankPasswordAccount` | frontend/src/app/components/login-component/login-component.ts:59-62 | a six-space password registers on screen and route but is never sent by the login screen |
| `Flows.ForgotLinkOpensReset` | frontend/src/app/components/esqueceu-component/esqueceu-component.ts:85-95 | the forgot reply for a known email leaves a link whose token is the drawn one |
| `Flows.ResetScreenSatisfiesRoute` | backend/auth/routes.py:186-197 | a form the reset screen sends passes the route's required and confirmation checks |
| `Flows.ReusedTokenShown` | frontend/src/app/components/recuperar-component/recuperar-component.ts:142-143 | a reused token ends with "Token inválido" on the reset screen |
| `Flows.MissingTokenScenario` | frontend/src/app/components/recuperar-component/recuperar-component.ts:34-70 | opened without a token, the screen shows "Token não encontrado", then a submit sends nothing and shows the gate's message |
| `Flows.FirstAccount` | backend/auth/routes.py:41-104 | a form the registration screen sends creates the first row of an empty table, and its credentials log in |
| `Flows.SignUpScenario` | frontend/src/app/components/cadastro-component/cadastro-component.ts:46-137 | on an empty table the registration screen ends with the route's success message and a request for the login screen, or with its own check's message and no navigation |
| `Flows.SignInScenario` | frontend/src/app/components/login-component/login-component.ts:41-107 | after registering, the login screen ends with the route's message, the screen having written to `localStorage` the token issued for key 1 and the account's public part, and a request for the dashboard; or with its own check's message, nothing written and no navigation |

## Left out

- HTTP transport (`api-service.ts`, `HttpClient`), Flask's `request`/`jsonify` and the SQLAlchemy session are left out. `Flows.Deliver` and the `Body`, `Reply` and `Table` values stand in for them.
- Asynchrony is left out. A reply is handled by a separate `OnResponse` call, and nothing models a second submit while one is in flight.
- Timers (`setTimeout`) are left out. A navigation is recorded when it is scheduled.
- Component teardown is left out: the code has none.
- `Router`, `ActivatedRoute` and `localStorage` appear as ghost fields and parameters. The storage fields hold only what one screen object wrote; `localStorage` surviving across screens and sessions is not modelled.
- `JSON.stringify` of the stored user is not modelled; the stored value is the `Usuario` record.
- `new URL(...)` throwing on a link it cannot parse is not modelled; every non-empty link is parsed.
- Percent-decoding of query names and values is not modelled; only `+` is decoded.
- Parsing of the URL's scheme, host and path is not modelled; only `?`, `#`, `&` and `=` are honoured.
- JavaScript counts `length` in UTF-16 code units. Here a string is a sequence of Unicode scalar values, so a character outside the Basic Multilingual Plane counts once instead of twice.
- JSON values that are not strings (numbers, `null`, arrays) are not modelled. A missing key and a `null` value both read as absent. Errors raised by `request.get_json()` itself are not modelled.
- Accounts.LoginSuccessIff: lists only 200, 400 and 401. The 500 reply of `/login`'s `except` comes from a library fault (JWT issuance), which is not modelled.
- The faults modelled are three: a failing `commit`, the `AttributeError` that `data.get` raises on a missing body, and the `TypeError` of comparing a missing expiry. Failing queries are not modelled.
- `first()` without `ORDER BY` is taken in storage order.
- Primary keys are assumed to be 1, 2, … in insertion order with no gaps. A rolled-back insert does not consume a key. The database engine is configured from the environment, so its actual numbering is not known.
- Email comparison is exact equality of characters. Column length limits are not enforced.
- Salted hashing is covered by passing one `Crypto` per request. Only `Sound` is assumed of it.
- Token randomness and token length are not assumed by the routes; only `Flows.ResetLinkRoundTrip` asks for 32 hexadecimal digits.
- The simulated email (`print`) and all `console.log` calls are I/O and are not modelled. In `/esqueceuSenha` the `print` calls run after `commit` but inside the `try` (routes.py:145-155). A failing `print` would reply 500 with the new token already stored. `Accounts.ForgotUnknownKeepsTable` and `Accounts.ForgotOrder` assume printing never fails.
- Templates are not modelled. The `rememberMe` field is kept but only the template reads it.
- Google sign-in and the `is_new_user`, `picture` and `google_id` fields are not modelled; none of the routes or screens modelled here handles them.
- `ValidationService` is modelled as the functions `ValidarSenha` and `SenhaForte`. No screen calls it.
- `app.routes.ts` is static configuration. `backend/app.py` and `backend/config.py` are set-up code. `backend/test_serve.py` and `esqueceu-component.spec.ts` are tests.
