/**
 * The screens and the routes together: how a reply reaches a screen's
 * handlers, the JSON body each screen sends, and what a user sees at the
 * end of the main scenarios.
 */
module Flows {
  import opened Wrappers
  import opened Text
  import opened Validation
  import opened Api
  import opened Url
  import Accounts
  import CadastroScreen
  import LoginScreen
  import EsqueceuScreen
  import RecuperarScreen

  /** `HttpClient`: a 2xx reply reaches `next` with its body; any other
      reaches `error` with the status and, for a failure body, its `error`
      field. */
  function Deliver(r: Accounts.Reply): (o: Outcome)
    ensures o.Next? <==> 200 <= r.status < 300
    ensures o.Next? ==> o.response == r.body
    ensures o.Error? ==> o.failure.status == r.status
    ensures o.Error? && r.body.Failure? ==> o.failure.bodyError == Some(r.body.error)
  {
    if 200 <= r.status < 300 then Next(r.body)
    else Error(HttpError(r.status, if r.body.Failure? then Some(r.body.error) else None))
  }

  /** The JSON objects the screens post. */
  function RegisterBody(f: Register): map<string, string> {
    map["nome" := f.nome, "email" := f.email, "senha" := f.senha, "confirmar_senha" := f.confirmarSenha]
  }

  function LoginBody(c: Login): map<string, string> {
    map["email" := c.email, "senha" := c.senha]
  }

  function ForgotBody(d: ForgotPassword): map<string, string> {
    map["email" := d.email]
  }

  function ResetBody(d: ResetPassword): map<string, string> {
    map["nova_senha" := d.novaSenha, "confirmar_senha" := d.confirmarSenha, "token" := d.token]
  }

  /** A link the forgot route builds hands its token back to the screen
      that reads it, for the 32 hexadecimal digits `token_hex(16)` draws. */
  predicate IsHexToken(t: string) {
    |t| == 32 && forall i :: 0 <= i < |t| ==> ('0' <= t[i] <= '9' || 'a' <= t[i] <= 'f')
  }

  lemma ResetPagePlain()
    ensures '#' !in Accounts.ResetPage && '?' !in Accounts.ResetPage
  {
    var page := Accounts.ResetPage;
    forall i | 0 <= i < |page| ensures page[i] != '#' && page[i] != '?' { }
  }

  lemma ResetLinkRoundTrip(token: string)
    requires IsHexToken(token)
    ensures QueryParam(Accounts.ResetLink(token), "token") == Some(token)
    ensures EsqueceuScreen.LinkToken(Accounts.ResetLink(token)) == Some(token)
  {
    var page := Accounts.ResetPage;
    assert "?token=" == "?" + "token" + "=";
    assert Accounts.ResetLink(token) == page + "?" + "token" + "=" + token;
    ResetPagePlain();
    assert '&' !in token && '#' !in token && '+' !in token by {
      forall i | 0 <= i < |token| ensures token[i] != '&' && token[i] != '#' && token[i] != '+' { }
    }
    QueryParamSingle(page, "token", token);
  }

  /** A form that passes the registration screen's checks passes the
      route's required-field and confirmation checks: the route can only
      create the account, find the email taken, or fail to commit. */
  lemma RegisterScreenSatisfiesRoute(f: Register, t: Accounts.Table, crypto: Accounts.Crypto, fault: Option<string>)
    requires CadastroScreen.RegisterFailure(f).None?
    ensures Accounts.RegisterStep(t, Some(RegisterBody(f)), crypto, fault).reply.status in {201, 409, 500}
  {
    CadastroScreen.RegisterSendsIff(f);
    BlankIffAllWhitespace(f.nome);
    BlankIffAllWhitespace(f.email);
    var data := RegisterBody(f);
    assert Accounts.Get(data, "nome") == Some(f.nome) && Accounts.Get(data, "email") == Some(f.email);
    assert Accounts.Get(data, "senha") == Some(f.senha) && Accounts.Get(data, "confirmar_senha") == Some(f.confirmarSenha);
  }

  /** Registering an email that is already taken ends on the registration
      screen with the screen's own duplicate message. */
  lemma DuplicateEmailShown(f: Register, t: Accounts.Table, crypto: Accounts.Crypto, fault: Option<string>)
    requires CadastroScreen.RegisterFailure(f).None?
    requires exists j :: 0 <= j < |t.users| && t.users[j].email == f.email
    ensures var o := Deliver(Accounts.RegisterStep(t, Some(RegisterBody(f)), crypto, fault).reply);
      o.Error? && CadastroScreen.RegisterErrorMessage(o.failure) == CadastroScreen.EmailTaken
  {
    RegisterScreenSatisfiesRoute(f, t, crypto, fault);
    Accounts.RegisterOrder(t, Some(RegisterBody(f)), crypto, fault);
  }

  /** An unknown email and a wrong password end on the login screen with
      the same message. */
  lemma LoginFailureLooksTheSame(c: Login, t: Accounts.Table, crypto: Accounts.Crypto, issue: nat -> string)
    requires LoginScreen.LoginFailure(c).None?
    requires (forall j :: 0 <= j < |t.users| ==> t.users[j].email != c.email)
          || (exists j :: 0 <= j < |t.users| && t.users[j].email == c.email && !crypto.check(t.users[j].senhaHash, c.senha)
                           && forall k :: 0 <= k < j ==> t.users[k].email != c.email)
    ensures var o := Deliver(Accounts.LoginReply(t, Some(LoginBody(c)), crypto, issue));
      o.Error? && LoginScreen.LoginErrorMessage(o.failure) == LoginScreen.WrongCredentials
  {
    LoginScreen.LoginSendsIff(c);
    ValidEmailNotBlank(c.email);
    assert c.email != "" && c.senha != "" by {
      BlankIffAllWhitespace(c.email);
      BlankIffAllWhitespace(c.senha);
    }
    assert LoginBody(c) == map["email" := c.email, "senha" := c.senha];
    Accounts.LoginHidesWhichCredential(t, c.email, c.senha, crypto, issue);
  }

  /** A password of six spaces registers (both the screen and the route
      accept it) but the login screen never sends it. */
  lemma BlankPasswordAccount(nome: string, email: string, t: Accounts.Table, crypto: Accounts.Crypto)
    requires |Trim(nome)| >= 3 && ValidEmail(email)
    requires forall j :: 0 <= j < |t.users| ==> t.users[j].email != email
    ensures var f := Register(nome, email, "      ", "      ");
      && CadastroScreen.RegisterFailure(f).None?
      && Accounts.RegisterStep(t, Some(RegisterBody(f)), crypto, None).reply.status == 201
      && LoginScreen.LoginFailure(Login(email, "      ")) == Some(LoginScreen.SenhaRequired)
  {
    var f := Register(nome, email, "      ", "      ");
    CadastroScreen.BlankPasswordPasses(nome, email);
    RegisterScreenSatisfiesRoute(f, t, crypto, None);
    var data := RegisterBody(f);
    assert Accounts.Get(data, "email") == Some(email);
    assert Accounts.FindByEmail(t.users, email).None?;
    LoginScreen.BlankPasswordRejected(email);
  }

  /** A request the forgot screen sends for a known email comes back with
      a link from which `abrirLinkRecuperacao` takes the drawn token. */
  lemma ForgotLinkOpensReset(d: ForgotPassword, t: Accounts.Table, token: string, now: int)
    requires EsqueceuScreen.ForgotFailure(d).None? && IsHexToken(token)
    requires exists j :: 0 <= j < |t.users| && t.users[j].email == d.email
    ensures var o := Deliver(Accounts.ForgotStep(t, Some(ForgotBody(d)), token, now, None).reply);
      && o.Next? && o.response.Success?
      && EsqueceuScreen.LinkToken(EsqueceuScreen.CapturedLink(o.response)) == Some(token)
  {
    EsqueceuScreen.ForgotSendsIff(d);
    ValidEmailNotBlank(d.email);
    BlankIffAllWhitespace(d.email);
    assert ForgotBody(d) == map["email" := d.email];
    Accounts.ForgotSetsOnlyThatRow(t, d.email, token, now);
    ResetLinkRoundTrip(token);
  }

  /** A form that passes the reset screen's gate and checks passes the
      route's required-field and confirmation checks. */
  lemma ResetScreenSatisfiesRoute(tokenValido: bool, token: string, d: ResetPassword,
                                  t: Accounts.Table, crypto: Accounts.Crypto, now: int, fault: Option<string>)
    requires RecuperarScreen.ResetFailure(tokenValido, token, d).None?
    ensures var s := Accounts.ResetStep(t, Some(ResetBody(ResetPassword(d.novaSenha, d.confirmarSenha, token))), crypto, now, fault);
      s.reply != Accounts.Fail(400, Accounts.RequiredReset) && s.reply != Accounts.Fail(400, Accounts.PasswordsDiffer)
  {
    BlankIffAllWhitespace(d.novaSenha);
    var data := ResetBody(ResetPassword(d.novaSenha, d.confirmarSenha, token));
    assert Accounts.Get(data, "token") == Some(token) && Accounts.Get(data, "nova_senha") == Some(d.novaSenha);
    assert Accounts.Get(data, "confirmar_senha") == Some(d.confirmarSenha);
    Accounts.ResetOrder(t, data, crypto, now);
  }

  /** Reusing a token ends on the reset screen with the route's message. */
  lemma ReusedTokenShown(t: Accounts.Table, first: map<string, string>, d: ResetPassword, crypto: Accounts.Crypto,
                         now: int, later: int)
    requires Accounts.ResetStep(t, Some(first), crypto, now, None).reply.status == 200
    requires Accounts.Truthy(Accounts.Get(first, "token"))
    requires forall a, b :: 0 <= a < b < |t.users| ==>
               t.users[a].resetToken != Some(first["token"]) || t.users[b].resetToken != Some(first["token"])
    requires RecuperarScreen.ResetFailure(true, first["token"], d).None?
    ensures var t' := Accounts.ResetStep(t, Some(first), crypto, now, None).table;
      var o := Deliver(Accounts.ResetStep(t', Some(ResetBody(ResetPassword(d.novaSenha, d.confirmarSenha, first["token"]))), crypto, later, None).reply);
      o.Error? && RecuperarScreen.ResetErrorMessage(o.failure) == Accounts.UnknownToken
  {
    var token := first["token"];
    var second := ResetBody(ResetPassword(d.novaSenha, d.confirmarSenha, token));
    BlankIffAllWhitespace(d.novaSenha);
    assert Accounts.Get(second, "token") == Some(token) && Accounts.Get(second, "nova_senha") == Some(d.novaSenha);
    assert Accounts.Get(second, "confirmar_senha") == Some(d.confirmarSenha);
    Accounts.ResetSingleUse(t, first, second, crypto, now, later);
  }

  // ---------------------------------------------------------------------------
  // Scenarios on the screen objects
  // ---------------------------------------------------------------------------

  /** The reset screen opened without a token: whatever the form holds, a
      submit sends nothing and shows the gate's message, which replaces the
      "token not found" one that `ngOnInit` put up. */
  method MissingTokenScenario(d: ResetPassword) returns (request: Option<ResetPassword>, shownAfterInit: string, shown: string)
    ensures request.None?
    ensures shownAfterInit == RecuperarScreen.TokenNotFound && shown == RecuperarScreen.TokenGate
  {
    var screen := new RecuperarScreen.RecuperarComponent();
    screen.data := d;
    screen.Init(None);
    shownAfterInit := screen.errorMessage;
    request := screen.Submit();
    shown := screen.errorMessage;
  }

  /** A form the registration screen sends creates the first row of an
      empty table, and its credentials then log in. */
  lemma FirstAccount(f: Register, crypto: Accounts.Crypto, issue: nat -> string)
    requires Accounts.Sound(crypto) && CadastroScreen.RegisterFailure(f).None?
    ensures var s := Accounts.RegisterStep(Accounts.Table([], 1), Some(RegisterBody(f)), crypto, None);
      && s.reply == Accounts.Reply(201, Success(Accounts.UserCreated, None, Some(Usuario(1, f.nome, f.email)), None))
      && Accounts.LoginReply(s.table, Some(LoginBody(Login(f.email, f.senha))), crypto, issue)
         == Accounts.Reply(200, Success(Accounts.LoggedIn, Some(issue(1)), Some(Usuario(1, f.nome, f.email)), None))
  {
    var t := Accounts.Table([], 1);
    RegisterScreenSatisfiesRoute(f, t, crypto, None);
    CadastroScreen.RegisterSendsIff(f);
    BlankIffAllWhitespace(f.nome);
    BlankIffAllWhitespace(f.email);
    Accounts.RegisterSuccess(t, Some(RegisterBody(f)), crypto, None);
    Accounts.RegisterThenLogin(t, f.nome, f.email, f.senha, crypto, None, issue);
    assert RegisterBody(f) == map["nome" := f.nome, "email" := f.email, "senha" := f.senha, "confirmar_senha" := f.senha];
    assert LoginBody(Login(f.email, f.senha)) == map["email" := f.email, "senha" := f.senha];
  }

  /** A new account on an empty table, created through the registration
      screen: the screen shows the route's message and asks for the login
      screen, or shows its own check's message and stays. */
  method SignUpScenario(f: Register, crypto: Accounts.Crypto) returns (shown: string, ghost navigations: seq<Route>)
    requires Accounts.Sound(crypto)
    ensures shown == if CadastroScreen.RegisterFailure(f).Some? then CadastroScreen.RegisterFailure(f).value else Accounts.UserCreated
    ensures navigations == if CadastroScreen.RegisterFailure(f).Some? then [] else [ToLogin]
  {
    var db := new Accounts.Database();
    var screen := new CadastroScreen.CadastroComponent();
    screen.user := f;
    var request := screen.Submit();
    if request.None? {
      return screen.errorMessage, screen.navigations;
    }
    FirstAccount(f, crypto, _ => "");
    var reply := db.Cadastro(Some(RegisterBody(f)), crypto, None);
    screen.OnResponse(Deliver(reply));
    shown := screen.successMessage;
    navigations := screen.navigations;
  }

  /** The first account, then the login screen with its credentials: when
      the login screen's checks pass, it shows the route's message, writes
      to `localStorage` the token issued for the first key and that
      account's public part, and asks for the dashboard; otherwise it shows
      its own check's message, writes nothing and stays. */
  method SignInScenario(f: Register, crypto: Accounts.Crypto, issue: nat -> string)
    returns (shown: string, ghost storedToken: Option<string>, ghost storedUser: Option<Usuario>, ghost navigations: seq<Route>)
    requires Accounts.Sound(crypto) && CadastroScreen.RegisterFailure(f).None?
    ensures shown == if LoginScreen.LoginFailure(Login(f.email, f.senha)).Some?
                     then LoginScreen.LoginFailure(Login(f.email, f.senha)).value else Accounts.LoggedIn
    ensures LoginScreen.LoginFailure(Login(f.email, f.senha)).None? ==>
      && storedToken == Some(issue(1)) && storedUser == Some(Usuario(1, f.nome, f.email)) && navigations == [ToDashboard]
    ensures LoginScreen.LoginFailure(Login(f.email, f.senha)).Some? ==>
      storedToken == None && storedUser == None && navigations == []
  {
    var db := new Accounts.Database();
    FirstAccount(f, crypto, issue);
    var reply := db.Cadastro(Some(RegisterBody(f)), crypto, None);
    var screen := new LoginScreen.LoginComponent();
    screen.credentials := Login(f.email, f.senha);
    var credentials := screen.Submit();
    if credentials.None? {
      return screen.errorMessage, screen.storedToken, screen.storedUser, screen.navigations;
    }
    var answer := db.Login(Some(LoginBody(credentials.value)), crypto, issue);
    screen.OnResponse(Deliver(answer));
    shown := screen.successMessage;
    storedToken, storedUser, navigations := screen.storedToken, screen.storedUser, screen.navigations;
  }
}
