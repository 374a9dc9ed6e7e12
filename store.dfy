/**
  backend/server.js as a store whose tables the routes change in place. Each
  route is one atomic method that returns the HTTP reply and updates the
  tables it writes; the clock, the reset token and the outcome of sending
  mail are parameters, and the password hash is the injective `Hashed`.
*/
module Store {
  import opened JsStrings
  import opened Schema
  import opened ServerRules
  import Crud

  /** An existing company already holds this CNPJ or this e-mail. */
  predicate CompanyTaken(companies: map<int, Company>, cnpj: string, email: string) {
    exists id :: id in companies && (companies[id].cnpj == cnpj || companies[id].email == email)
  }

  /** Writing `c` into company `id` would repeat another company's CNPJ or e-mail. */
  predicate ProfileClash(companies: map<int, Company>, id: int, c: Company) {
    exists other :: other in companies && other != id && (companies[other].cnpj == c.cnpj || companies[other].email == c.email)
  }

  predicate EmailTaken(users: map<int, User>, email: string) {
    exists id :: id in users && users[id].email == email
  }

  /** Some user row holds this token with an expiry later than `now`. */
  predicate TokenHeld(users: map<int, User>, token: string, now: int) {
    exists id :: id in users && TokenAccepts(users[id], token, now)
  }

  /** The reply of POST /forgot-password for the stored users, given whether
      the reset mail goes out. */
  function ForgotPasswordReply(users: map<int, User>, email: string, mailSent: bool): Reply {
    if !Truthy(email) then Reply(400, "E-mail é obrigatório.")
    else if !EmailTaken(users, email) || mailSent then ResetLinkMaybeSent
    else Reply(500, "Erro interno do servidor ao enviar e-mail.")
  }

  /** When the mail goes out, every non-empty e-mail gets the same 200 reply,
      stored or not. A failed mail answers 500 exactly for a stored e-mail,
      so an outage of the mail service tells a caller which e-mails are
      registered. */
  lemma ForgotReplyHidesRegistration(users: map<int, User>, email: string, other: string)
    requires Truthy(email) && Truthy(other)
    ensures ForgotPasswordReply(users, email, true) == ForgotPasswordReply(users, other, true) == ResetLinkMaybeSent
    ensures ForgotPasswordReply(users, email, false).status == 500 <==> EmailTaken(users, email)
    ensures !EmailTaken(users, email) ==> ForgotPasswordReply(users, email, false) == ResetLinkMaybeSent
  {
  }

  /** The reply that keeps the route's stated aim of not revealing whether an
      e-mail is registered: a failed mail is not reported to the caller. */
  function UniformForgotReply(users: map<int, User>, email: string, mailSent: bool): (r: Reply)
    ensures !Truthy(email) ==> r == Reply(400, "E-mail é obrigatório.")
    ensures Truthy(email) ==> r == ResetLinkMaybeSent
    ensures mailSent ==> r == ForgotPasswordReply(users, email, mailSent)
  {
    if !Truthy(email) then Reply(400, "E-mail é obrigatório.") else ResetLinkMaybeSent
  }

  /** With the uniform reply, no two user tables can be told apart by the
      reply, whatever happens to the mail. */
  lemma UniformForgotReplyHidesRegistration(users: map<int, User>, others: map<int, User>, email: string, mailSent: bool, sent: bool)
    ensures UniformForgotReply(users, email, mailSent) == UniformForgotReply(others, email, sent)
  {
  }

  predicate HasTerms(terms: map<int, Terms>, companyId: int) {
    exists id :: id in terms && terms[id].companyId == companyId
  }

  /** The company row after PUT /company/profile: each truthy field replaces
      the stored one, the others are kept. */
  function MergeProfile(c: Company, name: string, email: string, cnpj: string): Company {
    Company(if Truthy(name) then name else c.name,
            if Truthy(cnpj) then cnpj else c.cnpj,
            if Truthy(email) then email else c.email)
  }

  /** The profile columns in the order the route tests them. */
  const ProfileColumns: seq<Column> := [Name, Email, Cnpj]

  function ProfileCells(name: string, email: string, cnpj: string): seq<Cell> {
    [Text(name), Text(email), Text(cnpj)]
  }

  function CellText(c: Cell): string {
    if c.Text? then c.s else ""
  }

  /** Every resource has its table, and each table keeps its invariant. */
  predicate AllTablesValid(tables: map<Resource, Table>) {
    forall r :: r in tables && TableValid(r, tables[r])
  }

  lemma SetTableValid(tables: map<Resource, Table>, r: Resource, t: Table)
    requires AllTablesValid(tables) && TableValid(r, t)
    ensures AllTablesValid(tables[r := t])
  {
  }

  /** Running the profile SET list on the stored row gives MergeProfile. */
  lemma ProfileSetListMerges(c: Company, name: string, email: string, cnpj: string,
                             fields: seq<Column>, values: seq<Cell>)
    requires |fields| == |values| == |GivenIndices(ProfileCells(name, email, cnpj))|
    requires forall k :: 0 <= k < |fields| ==>
      && fields[k] == ProfileColumns[GivenIndices(ProfileCells(name, email, cnpj))[k]]
      && values[k] == ProfileCells(name, email, cnpj)[GivenIndices(ProfileCells(name, email, cnpj))[k]]
    ensures forall k :: 0 <= k < |fields| ==> fields[k] in ProfileColumns
    ensures var cells := ApplySets(ProfileCells(c.name, c.email, c.cnpj), ProfileColumns, fields, values);
      Company(CellText(cells[0]), CellText(cells[2]), CellText(cells[1])) == MergeProfile(c, name, email, cnpj)
  {
    SetListOverwritesGiven(ProfileCells(c.name, c.email, c.cnpj), ProfileColumns, ProfileCells(name, email, cnpj), fields, values);
  }

  lemma ProfileUpdateKeepsUnique(companies: map<int, Company>, id: int, c: Company)
    requires CompaniesValid(companies) && id in companies && !ProfileClash(companies, id, c)
    ensures CompaniesValid(companies[id := c])
  {
  }

  /** The profile route's SET-list builder followed by the UPDATE of the
      stored company row: truthy fields replace, the others stay. */
  method RunProfileSetList(c: Company, name: string, email: string, cnpj: string) returns (merged: Company)
    requires Truthy(name) || Truthy(email) || Truthy(cnpj)
    ensures merged == MergeProfile(c, name, email, cnpj)
  {
    var body := ProfileCells(name, email, cnpj);
    var fields, values := BuildSetList(ProfileColumns, body);
    assert |fields| > 0 by { assert Given(body[0]) || Given(body[1]) || Given(body[2]); }
    ProfileSetListMerges(c, name, email, cnpj, fields, values);
    var cells := ApplySets(ProfileCells(c.name, c.email, c.cnpj), ProfileColumns, fields, values);
    merged := Company(CellText(cells[0]), CellText(cells[2]), CellText(cells[1]));
  }

  /** A resource route's SET-list builder followed by the UPDATE of one row:
      the truthy body fields overwrite their columns. */
  method RunSetList(r: Resource, cells: seq<Cell>, body: seq<Cell>) returns (updated: seq<Cell>)
    requires |cells| == |body| == |Columns(r)| && AnyGiven(body)
    ensures updated == Overwrite(cells, body)
  {
    var fields, values := BuildSetList(Columns(r), body);
    assert |fields| > 0;
    SetListOverwritesGiven(cells, Columns(r), body, fields, values);
    updated := ApplySets(cells, Columns(r), fields, values);
  }

  /** Who logged in: the `userId` and `companyId` of a 200 login reply. */
  datatype LoginSession = LoginSession(userId: int, companyId: int)

  class Store {
    var companies: map<int, Company>
    var nextCompanyId: int
    var users: map<int, User>
    var nextUserId: int
    var terms: map<int, Terms>
    var nextTermsId: int
    var tables: map<Resource, Table>

    /** AUTOINCREMENT counters above every id, the UNIQUE constraints, and
        one table per resource. No foreign key is enforced. */
    predicate Valid()
      reads this
    {
      && IdsBelow(companies, nextCompanyId) && CompaniesValid(companies)
      && IdsBelow(users, nextUserId) && UsersValid(users)
      && IdsBelow(terms, nextTermsId) && TermsValid(terms)
      && AllTablesValid(tables)
    }

    /** A fresh database: every table empty, every counter at 1. */
    constructor ()
      ensures Valid()
      ensures companies == map[] && users == map[] && terms == map[]
      ensures nextCompanyId == 1 && nextUserId == 1 && nextTermsId == 1
      ensures forall r :: r in tables && tables[r] == Table(map[], 1)
    {
      companies, nextCompanyId := map[], 1;
      users, nextUserId := map[], 1;
      terms, nextTermsId := map[], 1;
      var empty := Table(map[], 1);
      var all := map[Products := empty, Clients := empty, Services := empty, Orders := empty,
                     FinancialEntries := empty, FinancialExits := empty];
      forall r: Resource ensures r in all && all[r] == empty {
        match r
        case Products =>
        case Clients =>
        case Services =>
        case Orders =>
        case FinancialEntries =>
        case FinancialExits =>
      }
      tables := all;
    }

    /** POST /register as written: the company row is inserted before the user
        row, and a user e-mail clash afterwards does not remove it. */
    method Register(name: string, cnpj: string, email: string, userEmail: string, password: string)
      returns (reply: Reply)
      requires Valid()
      modifies this`companies, this`nextCompanyId, this`users, this`nextUserId
      ensures Valid()
      ensures !RegisterFieldsPresent(name, cnpj, email, userEmail, password) ==>
        reply == Reply(400, "Todos os campos são obrigatórios.") && unchanged(this)
      ensures RegisterFieldsPresent(name, cnpj, email, userEmail, password) && CompanyTaken(old(companies), cnpj, email) ==>
        reply == Reply(409, "CNPJ ou E-mail da empresa já cadastrado.") && unchanged(this)
      ensures RegisterFieldsPresent(name, cnpj, email, userEmail, password) && !CompanyTaken(old(companies), cnpj, email) ==>
        && old(nextCompanyId) !in old(companies)
        && companies == old(companies)[old(nextCompanyId) := Company(name, cnpj, email)]
        && nextCompanyId == old(nextCompanyId) + 1
      ensures RegisterFieldsPresent(name, cnpj, email, userEmail, password) && !CompanyTaken(old(companies), cnpj, email)
              && EmailTaken(old(users), userEmail) ==>
        reply == Reply(409, "E-mail do usuário já cadastrado.") && users == old(users) && nextUserId == old(nextUserId)
      ensures RegisterFieldsPresent(name, cnpj, email, userEmail, password) && !CompanyTaken(old(companies), cnpj, email)
              && !EmailTaken(old(users), userEmail) ==>
        && reply == Reply(201, "Empresa e usuário cadastrados com sucesso!")
        && users == old(users)[old(nextUserId) := User(userEmail, Hashed(password), old(nextCompanyId), None, None)]
        && nextUserId == old(nextUserId) + 1
    {
      if !RegisterFieldsPresent(name, cnpj, email, userEmail, password) {
        return Reply(400, "Todos os campos são obrigatórios.");
      }
      if CompanyTaken(companies, cnpj, email) {
        return Reply(409, "CNPJ ou E-mail da empresa já cadastrado.");
      }
      var companyId := nextCompanyId;
      companies := companies[companyId := Company(name, cnpj, email)];
      nextCompanyId := nextCompanyId + 1;
      if EmailTaken(users, userEmail) {
        return Reply(409, "E-mail do usuário já cadastrado.");
      }
      users := users[nextUserId := User(userEmail, Hashed(password), companyId, None, None)];
      nextUserId := nextUserId + 1;
      reply := Reply(201, "Empresa e usuário cadastrados com sucesso!");
    }

    /** POST /register with both inserts in one transaction: a reply other
        than 201 leaves the database as it was. */
    method RegisterAtomic(name: string, cnpj: string, email: string, userEmail: string, password: string)
      returns (reply: Reply)
      requires Valid()
      modifies this`companies, this`nextCompanyId, this`users, this`nextUserId
      ensures Valid()
      ensures reply.status != 201 ==> unchanged(this)
      ensures reply.status == 201 <==>
        RegisterFieldsPresent(name, cnpj, email, userEmail, password)
        && !CompanyTaken(old(companies), cnpj, email) && !EmailTaken(old(users), userEmail)
      ensures reply.status == 201 ==>
        && companies == old(companies)[old(nextCompanyId) := Company(name, cnpj, email)]
        && users == old(users)[old(nextUserId) := User(userEmail, Hashed(password), old(nextCompanyId), None, None)]
        && nextCompanyId == old(nextCompanyId) + 1 && nextUserId == old(nextUserId) + 1
      ensures RegisterFieldsPresent(name, cnpj, email, userEmail, password) && !CompanyTaken(old(companies), cnpj, email)
              && EmailTaken(old(users), userEmail) ==>
        reply == Reply(409, "E-mail do usuário já cadastrado.")
    {
      if !RegisterFieldsPresent(name, cnpj, email, userEmail, password) {
        return Reply(400, "Todos os campos são obrigatórios.");
      }
      if CompanyTaken(companies, cnpj, email) {
        return Reply(409, "CNPJ ou E-mail da empresa já cadastrado.");
      }
      if EmailTaken(users, userEmail) {
        return Reply(409, "E-mail do usuário já cadastrado.");
      }
      var companyId := nextCompanyId;
      companies := companies[companyId := Company(name, cnpj, email)];
      nextCompanyId := nextCompanyId + 1;
      users := users[nextUserId := User(userEmail, Hashed(password), companyId, None, None)];
      nextUserId := nextUserId + 1;
      reply := Reply(201, "Empresa e usuário cadastrados com sucesso!");
    }

    /** POST /login: 200 exactly for a stored e-mail with the matching password;
        an unknown e-mail and a wrong password get the same reply. */
    method Login(email: string, password: string) returns (reply: Reply, session: Option<LoginSession>)
      requires Valid()
      ensures !(Truthy(email) && Truthy(password)) ==> reply == Reply(400, "E-mail e senha são obrigatórios.")
      ensures reply.status == 200 <==>
        Truthy(email) && Truthy(password)
        && exists id :: id in users && users[id].email == email && users[id].password == Hashed(password)
      ensures Truthy(email) && Truthy(password) && reply.status != 200 ==> reply == InvalidCredentials
      ensures session.Some? <==> reply.status == 200
      ensures session.Some? ==>
        && session.value.userId in users
        && users[session.value.userId].email == email
        && users[session.value.userId].companyId == session.value.companyId
    {
      if !Truthy(email) || !Truthy(password) {
        return Reply(400, "E-mail e senha são obrigatórios."), None;
      }
      if !EmailTaken(users, email) {
        return InvalidCredentials, None;
      }
      var id :| id in users && users[id].email == email;
      if users[id].password != Hashed(password) {
        return InvalidCredentials, None;
      }
      reply, session := Reply(200, "Login bem-sucedido!"), Some(LoginSession(id, users[id].companyId));
    }

    /** POST /forgot-password: the reply is ForgotPasswordReply, the same 200
        for a stored and an unknown e-mail when the mail goes out; for a
        stored one the token and an expiry one hour after `now` are saved
        before the mail is sent, and stay saved if sending fails. */
    method ForgotPassword(email: string, token: string, now: int, mailSent: bool) returns (reply: Reply)
      requires Valid()
      modifies this`users
      ensures Valid()
      ensures !Truthy(email) ==> reply == Reply(400, "E-mail é obrigatório.") && users == old(users)
      ensures Truthy(email) && !EmailTaken(old(users), email) ==> reply == ResetLinkMaybeSent && users == old(users)
      ensures Truthy(email) && EmailTaken(old(users), email) ==>
        && (exists id :: id in old(users) && old(users)[id].email == email
              && users == old(users)[id := IssueToken(old(users)[id], token, now)])
        && reply == (if mailSent then ResetLinkMaybeSent else Reply(500, "Erro interno do servidor ao enviar e-mail."))
      ensures reply == ForgotPasswordReply(old(users), email, mailSent)
    {
      if !Truthy(email) {
        return Reply(400, "E-mail é obrigatório.");
      }
      if !EmailTaken(users, email) {
        return ResetLinkMaybeSent;
      }
      var id :| id in users && users[id].email == email;
      users := users[id := IssueToken(users[id], token, now)];
      if mailSent {
        reply := ResetLinkMaybeSent;
      } else {
        reply := Reply(500, "Erro interno do servidor ao enviar e-mail.");
      }
    }

    /** POST /reset-password: the policy checks first, then a user whose token
        matches and has not expired gets the new hash and loses the token. */
    method ResetPassword(token: string, newPassword: string, now: int) returns (reply: Reply)
      requires Valid()
      modifies this`users
      ensures Valid()
      ensures ResetPrecheck(token, newPassword).Some? ==>
        reply == ResetPrecheck(token, newPassword).value && users == old(users)
      ensures ResetPrecheck(token, newPassword).None? && !TokenHeld(old(users), token, now) ==>
        reply == InvalidOrExpiredToken && users == old(users)
      ensures ResetPrecheck(token, newPassword).None? && TokenHeld(old(users), token, now) ==>
        && reply == Reply(200, "Senha redefinida com sucesso!")
        && exists id :: id in old(users) && TokenAccepts(old(users)[id], token, now)
             && users == old(users)[id := ConsumeToken(old(users)[id], newPassword)]
    {
      var pre := ResetPrecheck(token, newPassword);
      if pre.Some? {
        return pre.value;
      }
      if !TokenHeld(users, token, now) {
        return InvalidOrExpiredToken;
      }
      var id :| id in users && TokenAccepts(users[id], token, now);
      users := users[id := ConsumeToken(users[id], newPassword)];
      reply := Reply(200, "Senha redefinida com sucesso!");
    }

    /** GET /company/profile/:companyId */
    method GetCompanyProfile(companyId: int) returns (status: int, company: Option<Company>)
      ensures status == 200 <==> companyId in companies
      ensures status != 200 ==> status == 404 && company == None
      ensures status == 200 ==> company == Some(companies[companyId])
    {
      if companyId in companies {
        status, company := 200, Some(companies[companyId]);
      } else {
        status, company := 404, None;
      }
    }

    /** PUT /company/profile/:companyId: the truthy fields among name, e-mail
        and CNPJ are written through the SET list; 400 when none is truthy,
        404 for an unknown company, 409 when the result repeats another
        company's CNPJ or e-mail. */
    method UpdateCompanyProfile(companyId: int, name: string, email: string, cnpj: string) returns (reply: Reply)
      requires Valid()
      modifies this`companies
      ensures Valid()
      ensures reply.status != 200 ==> companies == old(companies)
      ensures reply.status == 400 <==> !(Truthy(name) || Truthy(email) || Truthy(cnpj))
      ensures reply.status == 404 <==> (Truthy(name) || Truthy(email) || Truthy(cnpj)) && companyId !in old(companies)
      ensures reply.status == 409 <==>
        ((Truthy(name) || Truthy(email) || Truthy(cnpj)) && companyId in old(companies)
         && ProfileClash(old(companies), companyId, MergeProfile(old(companies)[companyId], name, email, cnpj)))
      ensures reply.status == 200 ==>
        && companyId in old(companies)
        && companies == old(companies)[companyId := MergeProfile(old(companies)[companyId], name, email, cnpj)]
    {
      if !Truthy(name) && !Truthy(email) && !Truthy(cnpj) {
        return Reply(400, "Nenhum dado para atualizar foi fornecido.");
      }
      if companyId !in companies {
        return Reply(404, "Empresa não encontrada ou nenhum dado alterado.");
      }
      var merged := RunProfileSetList(companies[companyId], name, email, cnpj);
      if ProfileClash(companies, companyId, merged) {
        return Reply(409, "CNPJ ou E-mail da empresa já em uso.");
      }
      ProfileUpdateKeepsUnique(companies, companyId, merged);
      companies := companies[companyId := merged];
      reply := Reply(200, "Perfil da empresa atualizado com sucesso!");
    }

    /** PUT /user/password/:userId: no strength check on the new password. */
    method ChangePassword(userId: int, currentPassword: string, newPassword: string) returns (reply: Reply)
      requires Valid()
      modifies this`users
      ensures Valid()
      ensures !(Truthy(currentPassword) && Truthy(newPassword)) ==>
        reply == Reply(400, "As senhas atual e nova são obrigatórias.") && users == old(users)
      ensures Truthy(currentPassword) && Truthy(newPassword) && userId !in old(users) ==>
        reply == Reply(404, "Usuário não encontrado.") && users == old(users)
      ensures Truthy(currentPassword) && Truthy(newPassword) && userId in old(users)
              && old(users)[userId].password != Hashed(currentPassword) ==>
        reply == Reply(401, "Senha atual incorreta.") && users == old(users)
      ensures Truthy(currentPassword) && Truthy(newPassword) && userId in old(users)
              && old(users)[userId].password == Hashed(currentPassword) ==>
        reply == Reply(200, "Senha alterada com sucesso!")
        && users == old(users)[userId := old(users)[userId].(password := Hashed(newPassword))]
    {
      if !Truthy(currentPassword) || !Truthy(newPassword) {
        return Reply(400, "As senhas atual e nova são obrigatórias.");
      }
      if userId !in users {
        return Reply(404, "Usuário não encontrado.");
      }
      if users[userId].password != Hashed(currentPassword) {
        return Reply(401, "Senha atual incorreta.");
      }
      users := users[userId := users[userId].(password := Hashed(newPassword))];
      reply := Reply(200, "Senha alterada com sucesso!");
    }

    /** DELETE /user/:userId */
    method DeleteUser(userId: int) returns (reply: Reply)
      requires Valid()
      modifies this`users
      ensures Valid()
      ensures userId !in old(users) ==> reply == Reply(404, "Usuário não encontrado.") && users == old(users)
      ensures userId in old(users) ==> reply == Reply(200, "Usuário deletado com sucesso!") && users == old(users) - {userId}
    {
      if userId !in users {
        return Reply(404, "Usuário não encontrado.");
      }
      users := users - {userId};
      reply := Reply(200, "Usuário deletado com sucesso!");
    }

    /** DELETE /company/:companyId removes the company row only: no table
        declares ON DELETE CASCADE, so its users, terms and resource rows stay. */
    method DeleteCompany(companyId: int) returns (reply: Reply)
      requires Valid()
      modifies this`companies
      ensures Valid()
      ensures companyId !in old(companies) ==> reply == Reply(404, "Empresa não encontrada.") && companies == old(companies)
      ensures companyId in old(companies) ==>
        reply == Reply(200, "Empresa e todos os dados relacionados deletados com sucesso!")
        && companies == old(companies) - {companyId}
      ensures users == old(users) && terms == old(terms) && tables == old(tables)
    {
      if companyId !in companies {
        return Reply(404, "Empresa não encontrada.");
      }
      companies := companies - {companyId};
      reply := Reply(200, "Empresa e todos os dados relacionados deletados com sucesso!");
    }

    /** POST /<resource> */
    method CreateRow(r: Resource, body: seq<Cell>, companyId: Option<int>) returns (status: int)
      requires Valid() && |body| == |Columns(r)|
      modifies this`tables
      ensures Valid()
      ensures Crud.Create(r, old(tables[r]), body, companyId) == Crud.Outcome(status, tables[r])
      ensures tables == old(tables)[r := tables[r]]
    {
      var t := tables[r];
      if !CreateFieldsPresent(r, body, companyId) {
        return 400;
      }
      if Crud.UniqueClash(r, t.rows, body, t.nextId) {
        return 409;
      }
      var t' := Table(t.rows[t.nextId := Row(body, companyId.value)], t.nextId + 1);
      assert Crud.Create(r, t, body, companyId) == Crud.Outcome(201, t');
      SetTableValid(tables, r, t');
      tables := tables[r := t'];
      status := 201;
    }

    /** GET /<resource>/:companyId */
    method ListRows(r: Resource, companyId: int) returns (rows: map<int, Row>)
      requires Valid()
      ensures rows == Crud.ListFor(tables[r], companyId)
    {
      rows := map id | id in tables[r].rows && tables[r].rows[id].companyId == companyId :: tables[r].rows[id];
    }

    /** GET /orders/:companyId */
    method ListOrders(companyId: int) returns (orders: map<int, Crud.OrderListing>)
      requires Valid()
      ensures orders == Crud.ListOrders(tables[Orders], tables[Clients], tables[Services], companyId)
    {
      orders := Crud.ListOrders(tables[Orders], tables[Clients], tables[Services], companyId);
    }

    /** PUT /<resource>/:id: builds the SET list from the truthy body fields and
        runs it on the row whose id and company_id match. */
    method UpdateRow(r: Resource, id: int, body: seq<Cell>, companyId: Option<int>) returns (status: int)
      requires Valid() && |body| == |Columns(r)|
      modifies this`tables
      ensures Valid()
      ensures Crud.Update(r, old(tables[r]), id, body, companyId) == Crud.Outcome(status, tables[r])
      ensures tables == old(tables)[r := tables[r]]
    {
      if !AnyGiven(body) {
        return 400;
      }
      var t := tables[r];
      if !Crud.Owned(t, id, companyId) {
        return 404;
      }
      var cells := RunSetList(r, t.rows[id].cells, body);
      ghost var o := Crud.Update(r, t, id, body, companyId);
      if Crud.UniqueClash(r, t.rows, cells, id) {
        return 409;
      }
      var t' := Table(t.rows[id := Row(cells, t.rows[id].companyId)], t.nextId);
      assert o == Crud.Outcome(200, t');
      SetTableValid(tables, r, t');
      tables := tables[r := t'];
      status := 200;
    }

    /** DELETE /<resource>/:id */
    method DeleteRow(r: Resource, id: int, companyId: Option<int>) returns (status: int)
      requires Valid()
      modifies this`tables
      ensures Valid()
      ensures Crud.Delete(r, old(tables[r]), id, companyId) == Crud.Outcome(status, tables[r])
      ensures tables == old(tables)[r := tables[r]]
    {
      if !Crud.IdGiven(companyId) {
        return 400;
      }
      var t := tables[r];
      if !Crud.Owned(t, id, companyId) {
        return 404;
      }
      var t' := Table(t.rows - {id}, t.nextId);
      assert Crud.Delete(r, t, id, companyId) == Crud.Outcome(200, t');
      SetTableValid(tables, r, t');
      tables := tables[r := t'];
      status := 200;
    }

    /** GET /terms/:companyId: the company's terms, or the default text with a
        null `last_updated` when it has none. */
    method GetTerms(companyId: int) returns (content: string, lastUpdated: Option<string>)
      requires Valid()
      ensures HasTerms(terms, companyId) ==>
        exists id :: id in terms && terms[id].companyId == companyId
          && content == terms[id].content && lastUpdated == Some(terms[id].lastUpdated)
      ensures !HasTerms(terms, companyId) ==> content == "Nenhum termo cadastrado ainda." && lastUpdated == None
    {
      if !HasTerms(terms, companyId) {
        return "Nenhum termo cadastrado ainda.", None;
      }
      var id :| id in terms && terms[id].companyId == companyId;
      content, lastUpdated := terms[id].content, Some(terms[id].lastUpdated);
    }

    /** PUT /terms/:companyId: an upsert keyed by company, stamped with `now`. */
    method PutTerms(companyId: int, content: string, now: string) returns (reply: Reply)
      requires Valid()
      modifies this`terms, this`nextTermsId
      ensures Valid()
      ensures !Truthy(content) ==>
        reply == Reply(400, "O conteúdo dos termos é obrigatório.") && terms == old(terms)
      ensures Truthy(content) && HasTerms(old(terms), companyId) ==>
        && reply == Reply(200, "Termos atualizados com sucesso!")
        && terms.Keys == old(terms).Keys
        && forall id :: id in terms ==>
             terms[id] == if old(terms)[id].companyId == companyId then Terms(content, companyId, now) else old(terms)[id]
      ensures Truthy(content) && !HasTerms(old(terms), companyId) ==>
        && reply == Reply(201, "Termos adicionados com sucesso!")
        && old(nextTermsId) !in old(terms)
        && terms == old(terms)[old(nextTermsId) := Terms(content, companyId, now)]
      ensures Truthy(content) ==>
        exists id :: id in terms && terms[id] == Terms(content, companyId, now)
    {
      if !Truthy(content) {
        return Reply(400, "O conteúdo dos termos é obrigatório.");
      }
      if HasTerms(terms, companyId) {
        var id :| id in terms && terms[id].companyId == companyId;
        terms := map k | k in terms :: if terms[k].companyId == companyId then Terms(content, companyId, now) else terms[k];
        assert terms[id] == Terms(content, companyId, now);
        return Reply(200, "Termos atualizados com sucesso!");
      }
      var id := nextTermsId;
      terms := terms[id := Terms(content, companyId, now)];
      nextTermsId := nextTermsId + 1;
      assert terms[id] == Terms(content, companyId, now);
      reply := Reply(201, "Termos adicionados com sucesso!");
    }
  }

  /** As written, a registration refused because its user e-mail is taken
      still stores its company, and that company then blocks every retry. */
  /** As written, a failed mail answers a registered e-mail with 500 and an
      unknown one with 200. */
  lemma ForgotReplyLeakExample(u: User)
    requires u.email == "ana@alfa.com"
    ensures ForgotPasswordReply(map[1 := u], "ana@alfa.com", false).status == 500
    ensures ForgotPasswordReply(map[], "ana@alfa.com", false).status == 200
  {
    assert EmailTaken(map[1 := u], "ana@alfa.com") by {
      assert 1 in map[1 := u];
    }
  }

  method RegisterOrphanExample() returns (second: Reply, retry: Reply)
    ensures second == Reply(409, "E-mail do usuário já cadastrado.")
    ensures retry == Reply(409, "CNPJ ou E-mail da empresa já cadastrado.")
  {
    var s := new Store();
    var first := s.Register("Alfa", "111", "alfa@empresa.com", "ana@alfa.com", "Senha@123");
    assert s.users[1].email == "ana@alfa.com";
    assert s.companies[1] == Company("Alfa", "111", "alfa@empresa.com");
    second := s.Register("Beta", "222", "beta@empresa.com", "ana@alfa.com", "Senha@123");
    assert s.companies[2].cnpj == "222";
    retry := s.Register("Beta", "222", "beta@empresa.com", "bia@beta.com", "Senha@123");
  }

  /** With the atomic registration the refused attempt leaves nothing behind,
      so the retry with a fresh user e-mail succeeds. */
  method RegisterAtomicRetryExample() returns (second: Reply, retry: Reply)
    ensures second == Reply(409, "E-mail do usuário já cadastrado.")
    ensures retry.status == 201
  {
    var s := new Store();
    var first := s.RegisterAtomic("Alfa", "111", "alfa@empresa.com", "ana@alfa.com", "Senha@123");
    assert s.users[1].email == "ana@alfa.com" && s.companies == map[1 := Company("Alfa", "111", "alfa@empresa.com")];
    second := s.RegisterAtomic("Beta", "222", "beta@empresa.com", "ana@alfa.com", "Senha@123");
    assert s.companies == map[1 := Company("Alfa", "111", "alfa@empresa.com")];
    retry := s.RegisterAtomic("Beta", "222", "beta@empresa.com", "bia@beta.com", "Senha@123");
  }
}
