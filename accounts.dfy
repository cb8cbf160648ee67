/**
 * The four account routes of the Flask back end (`/cadastrar`, `/login`,
 * `/esqueceuSenha`, `/recuperarSenha`) as operations on the `users` table.
 *
 * Each route is a specification function from the table before the request
 * to the reply and the table after it, and a method of `Database`, whose
 * fields the route updates in place, proved equal to it.  What the routes
 * take from libraries is passed in: the password hash (`set_senha`) and its
 * check (`check_senha`), the JWT issuer, the generated reset token, the
 * clock, and the error a `commit` raises, if any.
 */
module Accounts {
  import opened Wrappers
  import opened Api

  /** A row of `users`: `reset_token` and `reset_token_expiry` are nullable;
      times are seconds. */
  datatype User = User(id: nat, nome: string, email: string, senhaHash: string,
                       resetToken: Option<string>, resetTokenExpiry: Option<int>)

  /** The table: its rows in storage order and the next primary key. */
  datatype Table = Table(users: seq<User>, nextId: nat)

  /** The body of a request as `request.get_json()` gives it: `None` when
      there is no JSON object. */
  type Body = Option<map<string, string>>

  /** A reply: the HTTP status and the JSON envelope. */
  datatype Reply = Reply(status: int, body: ApiResponse)

  /** What a route returns and leaves behind. */
  datatype Step = Step(reply: Reply, table: Table)

  /** `werkzeug`'s two halves, for one request: the hash `set_senha` stores
      and the check `check_senha` runs. */
  datatype Crypto = Crypto(hash: string -> string, check: (string, string) -> bool)

  /** The one fact assumed of the hash: a password checks against its own
      hash. */
  ghost predicate Sound(c: Crypto) {
    forall s :: c.check(c.hash(s), s)
  }

  /** A reset token lives for thirty minutes (`timedelta(minutes=30)`). */
  const ResetLifetime: int := 1800

  /** The page the emailed link points at. */
  const ResetPage := "http://localhost:4200/recuperar-senha"

  /** The link the route sends and, in development, returns. */
  function ResetLink(token: string): string {
    ResetPage + "?token=" + token
  }

  const RequiredRegister := "Nome, email e senha são obrigatórios"
  const PasswordsDiffer := "As senhas não conferem"
  const EmailTaken := "Email já cadastrado"
  const UserCreated := "Usuário criado com sucesso"
  const RequiredLogin := "Email e senha são obrigatórios"
  const BadCredentials := "Email ou senha inválidos"
  const LoggedIn := "Login realizado com sucesso"
  const RequiredEmail := "Email é obrigatório"
  const MaybeSent := "Se o email existir, você receberá o link"
  const LinkSent := "Link de recuperação enviado para o email"
  const RequiredReset := "Token e senhas são obrigatórios"
  const UnknownToken := "Token inválido"
  const ExpiredToken := "Token expirado. Solicite um novo link"
  const PasswordUpdated := "Senha atualizada com sucesso! Faça login com a nova senha"

  /** The prefixes of the `except` replies, followed by `str(e)`. */
  const RegisterCrashed := "Erro ao cadastrar: "
  const ForgotCrashed := "Erro ao processar solicitação: "
  const ResetCrashed := "Erro ao recuperar senha: "
  /** `str(e)` of the `AttributeError` that `data.get` raises on `None`. */
  const NoneHasNoGet := "'NoneType' object has no attribute 'get'"
  /** `str(e)` of the `TypeError` that `None < datetime` raises. */
  const NoneNotComparable := "'<' not supported between instances of 'NoneType' and 'datetime.datetime'"

  // ---------------------------------------------------------------------------
  // Rows and lookups
  // ---------------------------------------------------------------------------

  /** `data.get(key)`. */
  function Get(data: map<string, string>, key: string): Option<string> {
    if key in data then Some(data[key]) else None
  }

  /** Python truth of an optional string: present and non-empty. */
  predicate Truthy(v: Option<string>) {
    v.Some? && v.value != ""
  }

  /** `to_dict()`: the public columns only. */
  function ToDict(u: User): Usuario {
    Usuario(u.id, u.nome, u.email)
  }

  /** `filter_by(email=...).first()` over the rows from `k` on. */
  function FindByEmailFrom(users: seq<User>, email: string, k: nat): (r: Option<nat>)
    requires k <= |users|
    ensures r.Some? ==> k <= r.value < |users| && users[r.value].email == email
    ensures r.Some? ==> forall j :: k <= j < r.value ==> users[j].email != email
    ensures r.None? <==> forall j :: k <= j < |users| ==> users[j].email != email
    decreases |users| - k
  {
    if k == |users| then None
    else if users[k].email == email then Some(k)
    else FindByEmailFrom(users, email, k + 1)
  }

  /** `filter_by(email=...).first()`: the first row with that email. */
  function FindByEmail(users: seq<User>, email: string): Option<nat> {
    FindByEmailFrom(users, email, 0)
  }

  /** `filter_by(reset_token=...).first()` over the rows from `k` on. */
  function FindByTokenFrom(users: seq<User>, token: string, k: nat): (r: Option<nat>)
    requires k <= |users|
    ensures r.Some? ==> k <= r.value < |users| && users[r.value].resetToken == Some(token)
    ensures r.Some? ==> forall j :: k <= j < r.value ==> users[j].resetToken != Some(token)
    ensures r.None? <==> forall j :: k <= j < |users| ==> users[j].resetToken != Some(token)
    decreases |users| - k
  {
    if k == |users| then None
    else if users[k].resetToken == Some(token) then Some(k)
    else FindByTokenFrom(users, token, k + 1)
  }

  /** `filter_by(reset_token=...).first()`: the first row holding the token. */
  function FindByToken(users: seq<User>, token: string): Option<nat> {
    FindByTokenFrom(users, token, 0)
  }

  /** What the table keeps true: primary keys below `nextId` and distinct,
      emails distinct (the column is `unique`), and a reset token always
      stored with its expiry. */
  ghost predicate Valid(t: Table) {
    && (forall i :: 0 <= i < |t.users| ==> t.users[i].id < t.nextId)
    && (forall i, j :: 0 <= i < j < |t.users| ==> t.users[i].id != t.users[j].id)
    && (forall i, j :: 0 <= i < j < |t.users| ==> t.users[i].email != t.users[j].email)
    && (forall i :: 0 <= i < |t.users| ==> (t.users[i].resetToken.Some? <==> t.users[i].resetTokenExpiry.Some?))
  }

  function Fail(status: int, error: string): Reply {
    Reply(status, Failure(error))
  }

  function Ok(status: int, message: string): Reply {
    Reply(status, Success(message, None, None, None))
  }

  // ---------------------------------------------------------------------------
  // The routes as functions of the table
  // ---------------------------------------------------------------------------

  /** `/cadastrar`. */
  function RegisterStep(t: Table, body: Body, crypto: Crypto, fault: Option<string>): Step {
    if body.None? || body.value == map[] || !Truthy(Get(body.value, "nome"))
       || !Truthy(Get(body.value, "email")) || !Truthy(Get(body.value, "senha"))
    then Step(Fail(400, RequiredRegister), t)
    else
      var data := body.value;
      if Get(data, "senha") != Get(data, "confirmar_senha") then Step(Fail(400, PasswordsDiffer), t)
      else if FindByEmail(t.users, data["email"]).Some? then Step(Fail(409, EmailTaken), t)
      else if fault.Some? then Step(Fail(500, RegisterCrashed + fault.value), t)
      else
        var novo := User(t.nextId, data["nome"], data["email"], crypto.hash(data["senha"]), None, None);
        Step(Reply(201, Success(UserCreated, None, Some(ToDict(novo)), None)),
             Table(t.users + [novo], t.nextId + 1))
  }

  /** `/login`: reads the table and changes nothing. */
  function LoginReply(t: Table, body: Body, crypto: Crypto, issue: nat -> string): Reply {
    if body.None? || body.value == map[] || !Truthy(Get(body.value, "email")) || !Truthy(Get(body.value, "senha"))
    then Fail(400, RequiredLogin)
    else
      var data := body.value;
      var found := FindByEmail(t.users, data["email"]);
      if found.None? || !crypto.check(t.users[found.value].senhaHash, data["senha"]) then Fail(401, BadCredentials)
      else
        var u := t.users[found.value];
        Reply(200, Success(LoggedIn, Some(issue(u.id)), Some(ToDict(u)), None))
  }

  /** `/esqueceuSenha`, given the token `generate_reset_token` draws and the
      time `utcnow` reads. */
  function ForgotStep(t: Table, body: Body, token: string, now: int, fault: Option<string>): Step {
    if body.None? then Step(Fail(500, ForgotCrashed + NoneHasNoGet), t)
    else if !Truthy(Get(body.value, "email")) then Step(Fail(400, RequiredEmail), t)
    else
      var found := FindByEmail(t.users, body.value["email"]);
      if found.None? then Step(Ok(200, MaybeSent), t)
      else if fault.Some? then Step(Fail(500, ForgotCrashed + fault.value), t)
      else
        var i := found.value;
        var u := t.users[i].(resetToken := Some(token), resetTokenExpiry := Some(now + ResetLifetime));
        Step(Reply(200, Success(LinkSent, None, None, Some(ResetLink(token)))),
             t.(users := t.users[i := u]))
  }

  /** `/recuperarSenha`, given the time `utcnow` reads. */
  function ResetStep(t: Table, body: Body, crypto: Crypto, now: int, fault: Option<string>): Step {
    if body.None? then Step(Fail(500, ResetCrashed + NoneHasNoGet), t)
    else
      var data := body.value;
      var token, novaSenha, confirmar := Get(data, "token"), Get(data, "nova_senha"), Get(data, "confirmar_senha");
      if !Truthy(token) || !Truthy(novaSenha) || !Truthy(confirmar) then Step(Fail(400, RequiredReset), t)
      else if novaSenha != confirmar then Step(Fail(400, PasswordsDiffer), t)
      else
        var found := FindByToken(t.users, token.value);
        if found.None? then Step(Fail(400, UnknownToken), t)
        else
          var i := found.value;
          var u := t.users[i];
          if u.resetTokenExpiry.None? then Step(Fail(500, ResetCrashed + NoneNotComparable), t)
          else if u.resetTokenExpiry.value < now then Step(Fail(400, ExpiredToken), t)
          else if fault.Some? then Step(Fail(500, ResetCrashed + fault.value), t)
          else
            var u' := u.(senhaHash := crypto.hash(novaSenha.value), resetToken := None, resetTokenExpiry := None);
            Step(Ok(200, PasswordUpdated), t.(users := t.users[i := u']))
  }

  // ---------------------------------------------------------------------------
  // Properties of the routes
  // ---------------------------------------------------------------------------

  /** Every reply of `/cadastrar` but the 201 leaves the table as it was
      (the early returns write nothing, the `except` rolls back), and the
      statuses are those the route lists. */
  lemma RegisterErrorsKeepTable(t: Table, body: Body, crypto: Crypto, fault: Option<string>)
    ensures var s := RegisterStep(t, body, crypto, fault);
      && s.reply.status in {201, 400, 409, 500}
      && (s.reply.status != 201 ==> s.table == t && s.reply.body.Failure?)
  {
  }

  /** The checks come in the route's order: required fields, then the
      confirmation, then the duplicate email, then the commit. */
  lemma RegisterOrder(t: Table, body: Body, crypto: Crypto, fault: Option<string>)
    ensures var s := RegisterStep(t, body, crypto, fault);
      && (s.reply == Fail(400, RequiredRegister) <==>
            body.None? || !Truthy(Get(body.value, "nome")) || !Truthy(Get(body.value, "email")) || !Truthy(Get(body.value, "senha")))
      && (s.reply == Fail(400, PasswordsDiffer) <==>
            && body.Some? && Truthy(Get(body.value, "nome")) && Truthy(Get(body.value, "email")) && Truthy(Get(body.value, "senha"))
            && Get(body.value, "senha") != Get(body.value, "confirmar_senha"))
      && (s.reply.status == 409 <==>
            && body.Some? && Truthy(Get(body.value, "nome")) && Truthy(Get(body.value, "email")) && Truthy(Get(body.value, "senha"))
            && Get(body.value, "senha") == Get(body.value, "confirmar_senha")
            && exists j :: 0 <= j < |t.users| && t.users[j].email == body.value["email"])
  {
    if body.Some? && Truthy(Get(body.value, "email")) {
      var f := FindByEmail(t.users, body.value["email"]);
      if f.Some? {
        assert t.users[f.value].email == body.value["email"];
      }
    }
  }

  /** A successful registration appends exactly one row, with the next key,
      the given name and email, the hash of the password and no reset
      token, and replies with that row's public part. */
  lemma RegisterSuccess(t: Table, body: Body, crypto: Crypto, fault: Option<string>)
    requires RegisterStep(t, body, crypto, fault).reply.status == 201
    ensures var s := RegisterStep(t, body, crypto, fault);
      var novo := User(t.nextId, body.value["nome"], body.value["email"], crypto.hash(body.value["senha"]), None, None);
      && fault.None?
      && s.table == Table(t.users + [novo], t.nextId + 1)
      && s.reply.body == Success(UserCreated, None, Some(Usuario(t.nextId, novo.nome, novo.email)), None)
  {
  }

  /** Registration keeps the table's invariant; in particular emails stay
      unique. */
  lemma RegisterKeepsValid(t: Table, body: Body, crypto: Crypto, fault: Option<string>)
    requires Valid(t)
    ensures Valid(RegisterStep(t, body, crypto, fault).table)
  {
    var s := RegisterStep(t, body, crypto, fault);
    if s.reply.status == 201 {
      var email := body.value["email"];
      assert FindByEmail(t.users, email).None?;
      assert forall j :: 0 <= j < |t.users| ==> t.users[j].email != email;
    }
  }

  /** `/login` answers an unknown email and a wrong password with the same
      401 reply, so the client cannot tell which credential was wrong. */
  lemma LoginHidesWhichCredential(t: Table, email: string, senha: string, crypto: Crypto, issue: nat -> string)
    requires email != "" && senha != ""
    requires (forall j :: 0 <= j < |t.users| ==> t.users[j].email != email)
          || (exists j :: 0 <= j < |t.users| && t.users[j].email == email && !crypto.check(t.users[j].senhaHash, senha)
                           && forall k :: 0 <= k < j ==> t.users[k].email != email)
    ensures LoginReply(t, Some(map["email" := email, "senha" := senha]), crypto, issue) == Fail(401, BadCredentials)
  {
    var data := map["email" := email, "senha" := senha];
    assert Get(data, "email") == Some(email) && Get(data, "senha") == Some(senha);
    var f := FindByEmail(t.users, email);
    if f.Some? {
      var j :| 0 <= j < |t.users| && t.users[j].email == email && !crypto.check(t.users[j].senhaHash, senha)
                && forall k :: 0 <= k < j ==> t.users[k].email != email;
      assert f.value == j;
    }
  }

  /** `/login` succeeds exactly for a row with that email whose hash checks
      against the password, and only then carries a token and a `usuario`,
      which is that row's public part. */
  lemma LoginSuccessIff(t: Table, body: Body, crypto: Crypto, issue: nat -> string)
    ensures var r := LoginReply(t, body, crypto, issue);
      && r.status in {200, 400, 401}
      && (r.status == 200 <==>
            && body.Some? && Truthy(Get(body.value, "email")) && Truthy(Get(body.value, "senha"))
            && FindByEmail(t.users, body.value["email"]).Some?
            && crypto.check(t.users[FindByEmail(t.users, body.value["email"]).value].senhaHash, body.value["senha"]))
      && (r.status == 200 ==>
            var u := t.users[FindByEmail(t.users, body.value["email"]).value];
            r.body == Success(LoggedIn, Some(issue(u.id)), Some(ToDict(u)), None))
      && (r.status != 200 ==> r.body.Failure?)
  {
  }

  /** `to_dict()` exposes no secret: the password hash and the reset
      columns can be anything without changing it. */
  lemma ToDictIgnoresSecrets(u: User, h: string, tok: Option<string>, exp: Option<int>)
    ensures ToDict(u.(senhaHash := h, resetToken := tok, resetTokenExpiry := exp)) == ToDict(u)
  {
  }

  /** Nothing in a `/login` reply depends on any row's reset token or its
      expiry. */
  lemma LoginIgnoresResetColumns(t: Table, i: nat, tok: Option<string>, exp: Option<int>,
                                 body: Body, crypto: Crypto, issue: nat -> string)
    requires i < |t.users|
    ensures var t' := t.(users := t.users[i := t.users[i].(resetToken := tok, resetTokenExpiry := exp)]);
      LoginReply(t', body, crypto, issue) == LoginReply(t, body, crypto, issue)
  {
    var t' := t.(users := t.users[i := t.users[i].(resetToken := tok, resetTokenExpiry := exp)]);
    if body.Some? && Truthy(Get(body.value, "email")) {
      var email := body.value["email"];
      assert forall j :: 0 <= j < |t.users| ==> t'.users[j].email == t.users[j].email;
    }
  }

  /** A registered account can log in with the password it registered. */
  lemma RegisterThenLogin(t: Table, nome: string, email: string, senha: string, crypto: Crypto,
                          fault: Option<string>, issue: nat -> string)
    requires Sound(crypto) && fault.None?
    requires nome != "" && email != "" && senha != ""
    requires forall j :: 0 <= j < |t.users| ==> t.users[j].email != email
    ensures var s := RegisterStep(t, Some(map["nome" := nome, "email" := email, "senha" := senha, "confirmar_senha" := senha]), crypto, fault);
      && s.reply.status == 201
      && LoginReply(s.table, Some(map["email" := email, "senha" := senha]), crypto, issue)
         == Reply(200, Success(LoggedIn, Some(issue(t.nextId)), Some(Usuario(t.nextId, nome, email)), None))
  {
    var data := map["nome" := nome, "email" := email, "senha" := senha, "confirmar_senha" := senha];
    assert Get(data, "nome") == Some(nome) && Get(data, "email") == Some(email);
    assert Get(data, "senha") == Some(senha) && Get(data, "confirmar_senha") == Some(senha);
    var s := RegisterStep(t, Some(data), crypto, fault);
    var users := s.table.users;
    assert users[|t.users|].email == email;
    assert FindByEmail(users, email) == Some(|t.users|) by {
      FindFromSkip(users, email, 0, |t.users|);
    }
    var login := map["email" := email, "senha" := senha];
    assert Get(login, "email") == Some(email) && Get(login, "senha") == Some(senha);
    assert crypto.check(crypto.hash(senha), senha);
  }

  /** The search for an email passes over rows without it. */
  lemma {:induction false} FindFromSkip(users: seq<User>, email: string, k: nat, m: nat)
    requires k <= m < |users| && users[m].email == email
    requires forall j :: k <= j < m ==> users[j].email != email
    ensures FindByEmailFrom(users, email, k) == Some(m)
    decreases m - k
  {
    if k < m {
      FindFromSkip(users, email, k + 1, m);
    }
  }

  /** `/esqueceuSenha` answers an unknown email with a success that reveals
      nothing and leaves the table alone; every error leaves it alone too. */
  lemma ForgotUnknownKeepsTable(t: Table, body: Body, token: string, now: int, fault: Option<string>)
    ensures var s := ForgotStep(t, body, token, now, fault);
      && s.reply.status in {200, 400, 500}
      && (s.reply.status != 200 ==> s.table == t && s.reply.body.Failure?)
      && (body.Some? && Truthy(Get(body.value, "email")) && (forall j :: 0 <= j < |t.users| ==> t.users[j].email != body.value["email"])
          ==> s == Step(Ok(200, MaybeSent), t))
  {
  }

  /** The outcomes of `/esqueceuSenha` in the route's order.
      - A body that is not a JSON object fails on `data.get` with a 500.
      - A missing or empty email gives a 400.
      - A known email whose commit fails gives a 500.
      None of these changes the table. */
  lemma ForgotOrder(t: Table, body: Body, token: string, now: int, fault: Option<string>)
    ensures var s := ForgotStep(t, body, token, now, fault);
      && (body.None? ==> s == Step(Fail(500, ForgotCrashed + NoneHasNoGet), t))
      && (s.reply == Fail(400, RequiredEmail) <==> body.Some? && !Truthy(Get(body.value, "email")))
      && (body.Some? && Truthy(Get(body.value, "email")) && fault.Some?
          && (exists j :: 0 <= j < |t.users| && t.users[j].email == body.value["email"])
          ==> s == Step(Fail(500, ForgotCrashed + fault.value), t))
  {
  }

  /** For a known email, only that row changes, and only its token and
      expiry: the token drawn, valid for thirty minutes from now.  The reply
      carries the link built from the token. */
  lemma ForgotSetsOnlyThatRow(t: Table, email: string, token: string, now: int)
    requires email != ""
    requires exists j :: 0 <= j < |t.users| && t.users[j].email == email
    ensures var s := ForgotStep(t, Some(map["email" := email]), token, now, None);
      var i := FindByEmail(t.users, email).value;
      && s.reply == Reply(200, Success(LinkSent, None, None, Some(ResetLink(token))))
      && |s.table.users| == |t.users| && s.table.nextId == t.nextId
      && s.table.users[i] == t.users[i].(resetToken := Some(token), resetTokenExpiry := Some(now + ResetLifetime))
      && forall j :: 0 <= j < |t.users| && j != i ==> s.table.users[j] == t.users[j]
  {
    assert Get(map["email" := email], "email") == Some(email);
  }

  /** Issuing a token keeps the table's invariant. */
  lemma ForgotKeepsValid(t: Table, body: Body, token: string, now: int, fault: Option<string>)
    requires Valid(t)
    ensures Valid(ForgotStep(t, body, token, now, fault).table)
  {
  }

  /** Every reply of `/recuperarSenha` but the 200 leaves the table as it
      was. */
  lemma ResetErrorsKeepTable(t: Table, body: Body, crypto: Crypto, now: int, fault: Option<string>)
    ensures var s := ResetStep(t, body, crypto, now, fault);
      && s.reply.status in {200, 400, 500}
      && (s.reply.status != 200 ==> s.table == t && s.reply.body.Failure?)
  {
  }

  /** The request carries a token, two equal truthy passwords. */
  predicate WellFormedReset(data: map<string, string>, token: string) {
    && Get(data, "token") == Some(token) && token != ""
    && Truthy(Get(data, "nova_senha")) && Get(data, "nova_senha") == Get(data, "confirmar_senha")
  }

  /** The checks come in the route's order, and the expiry test is strict:
      a token whose expiry is exactly now is still accepted. */
  lemma ResetOrder(t: Table, data: map<string, string>, crypto: Crypto, now: int)
    ensures var r := ResetStep(t, Some(data), crypto, now, None).reply;
      && (r == Fail(400, RequiredReset) <==>
            !Truthy(Get(data, "token")) || !Truthy(Get(data, "nova_senha")) || !Truthy(Get(data, "confirmar_senha")))
      && (r == Fail(400, PasswordsDiffer) <==>
            && Truthy(Get(data, "token")) && Truthy(Get(data, "nova_senha")) && Truthy(Get(data, "confirmar_senha"))
            && Get(data, "nova_senha") != Get(data, "confirmar_senha"))
      && (Truthy(Get(data, "token")) && WellFormedReset(data, data["token"]) ==>
            var f := FindByToken(t.users, data["token"]);
            && (r == Fail(400, UnknownToken) <==> f.None?)
            && (f.Some? && t.users[f.value].resetTokenExpiry.Some? ==>
                  (r == Fail(400, ExpiredToken) <==> t.users[f.value].resetTokenExpiry.value < now)
                  && (r.status == 200 <==> now <= t.users[f.value].resetTokenExpiry.value)))
  {
  }

  /** A successful reset stores the hash of the new password in the first
      row holding the token, clears its token and expiry, and changes no
      other row. */
  lemma ResetSuccess(t: Table, body: Body, crypto: Crypto, now: int, fault: Option<string>)
    requires ResetStep(t, body, crypto, now, fault).reply.status == 200
    ensures var s := ResetStep(t, body, crypto, now, fault);
      var i := FindByToken(t.users, body.value["token"]).value;
      && fault.None? && |s.table.users| == |t.users| && s.table.nextId == t.nextId
      && s.table.users[i] == t.users[i].(senhaHash := crypto.hash(body.value["nova_senha"]), resetToken := None, resetTokenExpiry := None)
      && forall j :: 0 <= j < |t.users| && j != i ==> s.table.users[j] == t.users[j]
  {
  }

  /** Resetting keeps the table's invariant. */
  lemma ResetKeepsValid(t: Table, body: Body, crypto: Crypto, now: int, fault: Option<string>)
    requires Valid(t)
    ensures Valid(ResetStep(t, body, crypto, now, fault).table)
  {
  }

  /** A reset token works once: when one row held it, a second request with
      the same token, however well formed and whenever sent, is refused as
      unknown and changes nothing. */
  lemma ResetSingleUse(t: Table, first: map<string, string>, second: map<string, string>, crypto: Crypto,
                       now: int, later: int)
    requires ResetStep(t, Some(first), crypto, now, None).reply.status == 200
    requires Truthy(Get(first, "token"))
    requires forall a, b :: 0 <= a < b < |t.users| ==> t.users[a].resetToken != Some(first["token"]) || t.users[b].resetToken != Some(first["token"])
    requires WellFormedReset(second, first["token"])
    ensures var t' := ResetStep(t, Some(first), crypto, now, None).table;
      ResetStep(t', Some(second), crypto, later, None) == Step(Fail(400, UnknownToken), t')
  {
    var token := first["token"];
    var i := FindByToken(t.users, token).value;
    var t' := ResetStep(t, Some(first), crypto, now, None).table;
    ResetSuccess(t, Some(first), crypto, now, None);
    forall j | 0 <= j < |t'.users|
      ensures t'.users[j].resetToken != Some(token)
    {
      if j != i {
        if j < i {
          assert t.users[j].resetToken != Some(token);
        } else {
          assert t.users[i].resetToken == Some(token);
        }
      }
    }
  }

  /** The whole recovery: a token issued for a known email, used before it
      expires with two equal passwords, resets the password, and the account
      then logs in with the new one. */
  lemma ForgotThenResetThenLogin(t: Table, email: string, token: string, nova: string, crypto: Crypto,
                                 now: int, later: int, issue: nat -> string)
    requires Sound(crypto)
    requires email != "" && token != "" && nova != ""
    requires exists j :: 0 <= j < |t.users| && t.users[j].email == email
    requires forall j :: 0 <= j < |t.users| ==> t.users[j].resetToken != Some(token)
    requires later <= now + ResetLifetime
    ensures var s1 := ForgotStep(t, Some(map["email" := email]), token, now, None);
      var s2 := ResetStep(s1.table, Some(map["token" := token, "nova_senha" := nova, "confirmar_senha" := nova]), crypto, later, None);
      && s2.reply == Ok(200, PasswordUpdated)
      && LoginReply(s2.table, Some(map["email" := email, "senha" := nova]), crypto, issue).status == 200
  {
    var s1 := ForgotStep(t, Some(map["email" := email]), token, now, None);
    ForgotSetsOnlyThatRow(t, email, token, now);
    var i := FindByEmail(t.users, email).value;
    var u1 := s1.table.users;
    assert FindByToken(u1, token) == Some(i) by {
      assert forall j :: 0 <= j < i ==> u1[j].resetToken != Some(token);
      TokenFromSkip(u1, token, 0, i);
    }
    var data := map["token" := token, "nova_senha" := nova, "confirmar_senha" := nova];
    assert Get(data, "token") == Some(token) && Get(data, "nova_senha") == Some(nova) && Get(data, "confirmar_senha") == Some(nova);
    var s2 := ResetStep(s1.table, Some(data), crypto, later, None);
    var u2 := s2.table.users;
    assert u2[i].email == email && u2[i].senhaHash == crypto.hash(nova);
    assert forall j :: 0 <= j < i ==> u2[j].email != email;
    FindFromSkip(u2, email, 0, i);
    var login := map["email" := email, "senha" := nova];
    assert Get(login, "email") == Some(email) && Get(login, "senha") == Some(nova);
    assert crypto.check(crypto.hash(nova), nova);
  }

  /** The search for a token passes over rows without it. */
  lemma {:induction false} TokenFromSkip(users: seq<User>, token: string, k: nat, m: nat)
    requires k <= m < |users| && users[m].resetToken == Some(token)
    requires forall j :: k <= j < m ==> users[j].resetToken != Some(token)
    ensures FindByTokenFrom(users, token, k) == Some(m)
    decreases m - k
  {
    if k < m {
      TokenFromSkip(users, token, k + 1, m);
    }
  }

  // ---------------------------------------------------------------------------
  // The database session the routes update in place
  // ---------------------------------------------------------------------------

  class Database {
    var users: seq<User>
    var nextId: nat

    /** The table as the specification functions see it. */
    function Snapshot(): Table
      reads this
    {
      Table(users, nextId)
    }

    /** An empty `users` table whose first key is 1. */
    constructor ()
      ensures Snapshot() == Table([], 1) && Valid(Snapshot())
    {
      users := [];
      nextId := 1;
    }

    /** `cadastro()`: the checks in order, then `add` and `commit`; a failed
        commit is rolled back. */
    method Cadastro(body: Body, crypto: Crypto, fault: Option<string>) returns (reply: Reply)
      requires Valid(Snapshot())
      modifies this
      ensures Step(reply, Snapshot()) == RegisterStep(old(Snapshot()), body, crypto, fault)
      ensures Valid(Snapshot())
    {
      RegisterKeepsValid(old(Snapshot()), body, crypto, fault);
      if body.None? || body.value == map[] || !Truthy(Get(body.value, "nome"))
         || !Truthy(Get(body.value, "email")) || !Truthy(Get(body.value, "senha")) {
        return Fail(400, RequiredRegister);
      }
      var data := body.value;
      if Get(data, "senha") != Get(data, "confirmar_senha") {
        return Fail(400, PasswordsDiffer);
      }
      if FindByEmail(users, data["email"]).Some? {
        return Fail(409, EmailTaken);
      }
      var novo := User(nextId, data["nome"], data["email"], crypto.hash(data["senha"]), None, None);
      if fault.Some? {
        return Fail(500, RegisterCrashed + fault.value);
      }
      users := users + [novo];
      nextId := nextId + 1;
      reply := Reply(201, Success(UserCreated, None, Some(ToDict(novo)), None));
    }

    /** `login()`: a lookup and a password check; nothing is written. */
    method Login(body: Body, crypto: Crypto, issue: nat -> string) returns (reply: Reply)
      ensures reply == LoginReply(Snapshot(), body, crypto, issue)
    {
      if body.None? || body.value == map[] || !Truthy(Get(body.value, "email")) || !Truthy(Get(body.value, "senha")) {
        return Fail(400, RequiredLogin);
      }
      var data := body.value;
      var found := FindByEmail(users, data["email"]);
      if found.None? || !crypto.check(users[found.value].senhaHash, data["senha"]) {
        return Fail(401, BadCredentials);
      }
      var user := users[found.value];
      var accessToken := issue(user.id);
      reply := Reply(200, Success(LoggedIn, Some(accessToken), Some(ToDict(user)), None));
    }

    /** `esqueceu_senha()`, given the token drawn and the time read. */
    method EsqueceuSenha(body: Body, token: string, now: int, fault: Option<string>) returns (reply: Reply)
      requires Valid(Snapshot())
      modifies this
      ensures Step(reply, Snapshot()) == ForgotStep(old(Snapshot()), body, token, now, fault)
      ensures Valid(Snapshot())
    {
      ForgotKeepsValid(old(Snapshot()), body, token, now, fault);
      if body.None? {
        return Fail(500, ForgotCrashed + NoneHasNoGet);
      }
      var email := Get(body.value, "email");
      if !Truthy(email) {
        return Fail(400, RequiredEmail);
      }
      var found := FindByEmail(users, email.value);
      if found.None? {
        return Ok(200, MaybeSent);
      }
      if fault.Some? {
        return Fail(500, ForgotCrashed + fault.value);
      }
      var i := found.value;
      var expiry := now + ResetLifetime;
      users := users[i := users[i].(resetToken := Some(token), resetTokenExpiry := Some(expiry))];
      reply := Reply(200, Success(LinkSent, None, None, Some(ResetLink(token))));
    }

    /** `recuperar_senha()`, given the time read. */
    method RecuperarSenha(body: Body, crypto: Crypto, now: int, fault: Option<string>) returns (reply: Reply)
      requires Valid(Snapshot())
      modifies this
      ensures Step(reply, Snapshot()) == ResetStep(old(Snapshot()), body, crypto, now, fault)
      ensures Valid(Snapshot())
    {
      ResetKeepsValid(old(Snapshot()), body, crypto, now, fault);
      if body.None? {
        return Fail(500, ResetCrashed + NoneHasNoGet);
      }
      var data := body.value;
      var token, novaSenha, confirmarSenha := Get(data, "token"), Get(data, "nova_senha"), Get(data, "confirmar_senha");
      if !Truthy(token) || !Truthy(novaSenha) || !Truthy(confirmarSenha) {
        return Fail(400, RequiredReset);
      }
      if novaSenha != confirmarSenha {
        return Fail(400, PasswordsDiffer);
      }
      var found := FindByToken(users, token.value);
      if found.None? {
        return Fail(400, UnknownToken);
      }
      var i := found.value;
      var user := users[i];
      if user.resetTokenExpiry.None? {
        return Fail(500, ResetCrashed + NoneNotComparable);
      }
      if user.resetTokenExpiry.value < now {
        return Fail(400, ExpiredToken);
      }
      if fault.Some? {
        return Fail(500, ResetCrashed + fault.value);
      }
      users := users[i := user.(senhaHash := crypto.hash(novaSenha.value), resetToken := None, resetTokenExpiry := None)];
      reply := Ok(200, PasswordUpdated);
    }
  }
}
