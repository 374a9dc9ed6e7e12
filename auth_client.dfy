/**
  js/auth.js: the register and login forms' checks before any request, the
  handling of a company-profile edit reply, the completion of a login and logout.
*/
module AuthClient {
  import opened JsStrings
  import opened Validators
  import opened Schema
  import opened ServerRules
  import opened Utils
  import opened Ui
  import Store

  /** The register form's six inputs, as typed. */
  datatype RegisterInput = RegisterInput(
    companyName: string, cnpj: string, companyEmail: string,
    userEmail: string, password: string, confirmPassword: string)

  /** The JSON body of POST /register. */
  datatype RegisterRequest = RegisterRequest(name: string, cnpj: string, email: string, userEmail: string, password: string)

  function ErrorNotice(text: string): Notice {
    Notice(text, "error")
  }

  /** handleRegister up to the request: every input is trimmed, then checked in turn. */
  function RegisterSubmit(f: RegisterInput): (s: Submission<RegisterRequest>)
    ensures s.Sent? <==>
      (&& Truthy(Trim(f.companyName)) && Truthy(Trim(f.cnpj)) && Truthy(Trim(f.companyEmail))
       && Truthy(Trim(f.userEmail)) && Truthy(Trim(f.password)) && Truthy(Trim(f.confirmPassword))
       && MatchesEmailPattern(Trim(f.companyEmail)) && MatchesEmailPattern(Trim(f.userEmail))
       && StrongPassword(Trim(f.password)) && Trim(f.password) == Trim(f.confirmPassword))
    ensures s.Sent? ==>
      s.request == RegisterRequest(Trim(f.companyName), Trim(f.cnpj), Trim(f.companyEmail), Trim(f.userEmail), Trim(f.password))
    ensures s.Blocked? ==> s.notice.kind == "error" && s.next == None
  {
    var companyName, cnpj, companyEmail := Trim(f.companyName), Trim(f.cnpj), Trim(f.companyEmail);
    var userEmail, password, confirmPassword := Trim(f.userEmail), Trim(f.password), Trim(f.confirmPassword);
    if !Truthy(companyName) || !Truthy(cnpj) || !Truthy(companyEmail)
       || !Truthy(userEmail) || !Truthy(password) || !Truthy(confirmPassword) then
      Blocked(ErrorNotice("Por favor, preencha todos os campos do formulário."), None)
    else if !MatchesEmailPattern(companyEmail) then
      Blocked(ErrorNotice("Por favor, insira um e-mail de empresa válido."), None)
    else if !MatchesEmailPattern(userEmail) then
      Blocked(ErrorNotice("Por favor, insira um e-mail de usuário válido."), None)
    else
      match FirstBrokenRule(password)
      case Some(rule) => Blocked(ErrorNotice(RuleMessage(rule)), None)
      case None =>
        if password != confirmPassword then Blocked(ErrorNotice("As senhas não coincidem!"), None)
        else Sent(RegisterRequest(companyName, cnpj, companyEmail, userEmail, password))
  }

  /** The order of the checks: a filled-in form with a bad company e-mail is
      refused for that e-mail whatever the user e-mail is; with both e-mails
      well formed the first broken password rule is reported, and the
      confirmation is compared only once every rule holds. */
  lemma RegisterCheckOrder(f: RegisterInput)
    requires Truthy(Trim(f.companyName)) && Truthy(Trim(f.cnpj)) && Truthy(Trim(f.companyEmail))
    requires Truthy(Trim(f.userEmail)) && Truthy(Trim(f.password)) && Truthy(Trim(f.confirmPassword))
    ensures !MatchesEmailPattern(Trim(f.companyEmail)) ==>
      RegisterSubmit(f) == Blocked(ErrorNotice("Por favor, insira um e-mail de empresa válido."), None)
    ensures MatchesEmailPattern(Trim(f.companyEmail)) && !MatchesEmailPattern(Trim(f.userEmail)) ==>
      RegisterSubmit(f) == Blocked(ErrorNotice("Por favor, insira um e-mail de usuário válido."), None)
    ensures MatchesEmailPattern(Trim(f.companyEmail)) && MatchesEmailPattern(Trim(f.userEmail))
            && !StrongPassword(Trim(f.password)) ==>
      RegisterSubmit(f) == Blocked(ErrorNotice(RuleMessage(FirstBrokenRule(Trim(f.password)).value)), None)
    ensures MatchesEmailPattern(Trim(f.companyEmail)) && MatchesEmailPattern(Trim(f.userEmail))
            && StrongPassword(Trim(f.password)) && Trim(f.password) != Trim(f.confirmPassword) ==>
      RegisterSubmit(f) == Blocked(ErrorNotice("As senhas não coincidem!"), None)
  {
  }

  /** A register request the browser sends passes the server's field check,
      and its password passes the server's own policy as the reset route applies it. */
  lemma SentRegisterPassesServer(f: RegisterInput, token: string)
    requires RegisterSubmit(f).Sent?
    requires Truthy(token)
    ensures var q := RegisterSubmit(f).request;
      RegisterFieldsPresent(q.name, q.cnpj, q.email, q.userEmail, q.password)
      && ResetPrecheck(token, q.password) == None
      && WellFormedEmail(q.email) && WellFormedEmail(q.userEmail)
  {
    var q := RegisterSubmit(f).request;
    EmailPatternIffWellFormed(q.email);
    EmailPatternIffWellFormed(q.userEmail);
  }

  /** The JSON body of POST /login. */
  datatype LoginRequest = LoginRequest(email: string, password: string)

  /** handleLogin up to the request. */
  function LoginSubmit(email: string, password: string): (s: Submission<LoginRequest>)
    ensures s.Sent? <==> Truthy(Trim(email)) && Truthy(Trim(password)) && MatchesEmailPattern(Trim(email))
    ensures s.Sent? ==> s.request == LoginRequest(Trim(email), Trim(password))
    ensures !Truthy(Trim(email)) || !Truthy(Trim(password)) ==>
      s == Blocked(ErrorNotice("Por favor, insira seu e-mail e senha."), None)
    ensures Truthy(Trim(email)) && Truthy(Trim(password)) && !MatchesEmailPattern(Trim(email)) ==>
      s == Blocked(ErrorNotice("Por favor, insira um e-mail válido."), None)
  {
    var email, password := Trim(email), Trim(password);
    if !Truthy(email) || !Truthy(password) then Blocked(ErrorNotice("Por favor, insira seu e-mail e senha."), None)
    else if !MatchesEmailPattern(email) then Blocked(ErrorNotice("Por favor, insira um e-mail válido."), None)
    else Sent(LoginRequest(email, password))
  }

  /** The user object saved after a successful login. */
  function SessionUser(userId: int, companyId: int, email: string): Json {
    JObject(map["id" := JNum(userId), "companyId" := JNum(companyId), "email" := JStr(email)])
  }

  /** The rest of handleLogin, given the login reply's session (None for a
      non-ok reply) and the company reply's `company` (None for a non-ok reply),
      each with its reply's message. Returns the page loaded afterwards, if any. */
  method CompleteLogin(sd: SystemData, email: string, login: Option<Store.LoginSession>, loginMessage: string,
                       company: Option<Json>, companyMessage: string)
    returns (notice: Notice, next: Option<string>)
    modifies sd
    ensures login.Some? && company.Some? ==>
      && sd.loggedInUser == SessionUser(login.value.userId, login.value.companyId, email)
      && sd.companyInfo == company.value
      && sd.storage == SavedStorage(old(sd.storage), sd.loggedInUser, company.value)
      && notice == Notice("Login realizado com sucesso!", "success") && next == Some("dashboard")
    ensures login.Some? && company.None? ==>
      && sd.loggedInUser == JNull && sd.companyInfo == JNull
      && sd.storage == ClearedStorage(old(sd.storage)) && next == None
      && notice == ErrorNotice("Erro ao buscar informações da empresa: " + companyMessage)
    ensures login.None? ==> unchanged(sd) && next == None && notice == ErrorNotice("Erro: " + loginMessage)
  {
    if login.None? {
      return ErrorNotice("Erro: " + loginMessage), None;
    }
    if company.None? {
      sd.ClearUserData();
      return ErrorNotice("Erro ao buscar informações da empresa: " + companyMessage), None;
    }
    sd.SaveUserData(SessionUser(login.value.userId, login.value.companyId, email), company.value);
    notice, next := Notice("Login realizado com sucesso!", "success"), Some("dashboard");
  }

  /** After a completed login the dashboard the handler loads is not refused. */
  lemma CompletedLoginOpensDashboard(userId: int, companyId: int, email: string)
    ensures Dispatch("dashboard") == Dashboard && ProtectedView(Dashboard)
    ensures JsonTruthy(SessionUser(userId, companyId, email)) && ProfileIconVisible(SessionUser(userId, companyId, email))
  {
  }

  /** logout: clear the session, load the login page, show an info message. */
  method Logout(sd: SystemData) returns (notice: Notice, next: string)
    modifies sd
    ensures sd.loggedInUser == JNull && sd.companyInfo == JNull
    ensures sd.storage == ClearedStorage(old(sd.storage))
    ensures next == "login" && notice == Notice("Você foi desconectado.", "info")
    ensures !ProfileIconVisible(sd.loggedInUser)
  {
    sd.ClearUserData();
    notice, next := Notice("Você foi desconectado.", "info"), "login";
  }

  /** The JSON body of PUT /company/profile/:companyId. */
  datatype ProfileRequest = ProfileRequest(companyId: Json, name: string, email: string, cnpj: string)

  /** handleEditCompany's guard: a logged-in user with a truthy companyId. */
  function EditCompanySubmit(loggedInUser: Json, name: string, email: string, cnpj: string): (s: Submission<ProfileRequest>)
    ensures s.Sent? <==> JsonTruthy(loggedInUser) && JsonTruthy(Prop(loggedInUser, "companyId"))
    ensures s.Sent? ==> s.request == ProfileRequest(Prop(loggedInUser, "companyId"), name, email, cnpj)
    ensures s.Blocked? ==>
      s.notice == Notice("Você precisa estar logado para editar informações da empresa.", "warning")
      && s.next == Some("login")
  {
    if !JsonTruthy(loggedInUser) || !JsonTruthy(Prop(loggedInUser, "companyId")) then
      Blocked(Notice("Você precisa estar logado para editar informações da empresa.", "warning"), Some("login"))
    else Sent(ProfileRequest(Prop(loggedInUser, "companyId"), name, email, cnpj))
  }

  /** `{...companyInfo, name, email, cnpj}` as written: the three inputs replace
      the cached fields even when they are empty; spreading null gives `{}`. */
  function CachedProfileAsWritten(companyInfo: Json, name: string, email: string, cnpj: string): (c: Json)
    ensures c.JObject?
    ensures Prop(c, "name") == JStr(name) && Prop(c, "email") == JStr(email) && Prop(c, "cnpj") == JStr(cnpj)
    ensures forall k :: k !in {"name", "email", "cnpj"} ==> Prop(c, k) == Prop(companyInfo, k)
  {
    var base := if companyInfo.JObject? then companyInfo.props else map[];
    JObject(base["name" := JStr(name)]["email" := JStr(email)]["cnpj" := JStr(cnpj)])
  }

  /** The cache update that follows the server's rule: only truthy inputs
      replace a cached field. */
  function CachedProfile(companyInfo: Json, name: string, email: string, cnpj: string): (c: Json)
    ensures c.JObject?
    ensures Prop(c, "name") == (if Truthy(name) then JStr(name) else Prop(companyInfo, "name"))
    ensures Prop(c, "email") == (if Truthy(email) then JStr(email) else Prop(companyInfo, "email"))
    ensures Prop(c, "cnpj") == (if Truthy(cnpj) then JStr(cnpj) else Prop(companyInfo, "cnpj"))
    ensures forall k :: k !in {"name", "email", "cnpj"} ==> Prop(c, k) == Prop(companyInfo, k)
  {
    var base := if companyInfo.JObject? then companyInfo.props else map[];
    var b1 := if Truthy(name) then base["name" := JStr(name)] else base;
    var b2 := if Truthy(email) then b1["email" := JStr(email)] else b1;
    JObject(if Truthy(cnpj) then b2["cnpj" := JStr(cnpj)] else b2)
  }

  /** The cached record of a company row. */
  function CompanyJson(c: Company): Json {
    JObject(map["name" := JStr(c.name), "email" := JStr(c.email), "cnpj" := JStr(c.cnpj)])
  }

  /** The corrected cache update describes exactly the row the server stores
      after the same successful edit. */
  lemma CachedProfileMatchesServer(c: Company, name: string, email: string, cnpj: string)
    ensures CachedProfile(CompanyJson(c), name, email, cnpj) == CompanyJson(Store.MergeProfile(c, name, email, cnpj))
  {
    var m := Store.MergeProfile(c, name, email, cnpj);
    var lhs := CachedProfile(CompanyJson(c), name, email, cnpj);
    assert lhs.props.Keys == {"name", "email", "cnpj"};
    assert Prop(lhs, "name") == JStr(m.name);
    assert Prop(lhs, "email") == JStr(m.email);
    assert Prop(lhs, "cnpj") == JStr(m.cnpj);
  }

  /** As written, clearing the name field before saving keeps the stored name
      on the server but empties the cached one. */
  lemma BlankNameCacheDiverges()
    ensures var c := Company("ACME", "123", "a@b.co");
      && Store.MergeProfile(c, "", "x@y.co", "").name == "ACME"
      && Prop(CachedProfileAsWritten(CompanyJson(c), "", "x@y.co", ""), "name") == JStr("")
      && CachedProfileAsWritten(CompanyJson(c), "", "x@y.co", "") != CompanyJson(Store.MergeProfile(c, "", "x@y.co", ""))
  {
    var c := Company("ACME", "123", "a@b.co");
    var w := CachedProfileAsWritten(CompanyJson(c), "", "x@y.co", "");
    assert Prop(w, "name") == JStr("");
    assert Prop(CompanyJson(Store.MergeProfile(c, "", "x@y.co", "")), "name") == JStr("ACME");
  }

  /** handleEditCompany after the PUT reply, with the cache update as written. */
  method EditCompanyReply(sd: SystemData, ok: bool, message: string, name: string, email: string, cnpj: string)
    returns (notice: Notice)
    modifies sd
    ensures ok ==>
      && sd.companyInfo == CachedProfileAsWritten(old(sd.companyInfo), name, email, cnpj)
      && sd.storage == old(sd.storage)[CompanyInfoKey := sd.companyInfo]
      && sd.loggedInUser == old(sd.loggedInUser)
      && notice == Notice(message, "success")
    ensures !ok ==> unchanged(sd) && notice == ErrorNotice("Erro ao atualizar perfil: " + message)
  {
    if !ok {
      return ErrorNotice("Erro ao atualizar perfil: " + message);
    }
    sd.companyInfo := CachedProfileAsWritten(sd.companyInfo, name, email, cnpj);
    sd.storage := sd.storage[CompanyInfoKey := sd.companyInfo];
    notice := Notice(message, "success");
  }
}
