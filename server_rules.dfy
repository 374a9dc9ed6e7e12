/**
  The pure parts of backend/server.js: the request checks that run before any
  query, the reset-token predicates, and the SET-list builder of the partial
  update routes together with what executing that SET list does to a row.
*/
module ServerRules {
  import opened JsStrings
  import opened Validators
  import opened Schema

  /** An HTTP status with the `message` field of the JSON reply. */
  datatype Reply = Reply(status: int, message: string)

  const InvalidCredentials: Reply := Reply(400, "Credenciais inválidas.")
  const ResetLinkMaybeSent: Reply :=
    Reply(200, "Se o e-mail estiver registrado, você receberá um link de redefinição de senha.")
  const InvalidOrExpiredToken: Reply := Reply(400, "Token inválido ou expirado.")

  /** Reset tokens are valid for one hour, in milliseconds. */
  const ResetTokenLifetime: int := 3600000

  /** The register route's first check: all five body fields are truthy. */
  predicate RegisterFieldsPresent(name: string, cnpj: string, email: string, userEmail: string, password: string) {
    Truthy(name) && Truthy(cnpj) && Truthy(email) && Truthy(userEmail) && Truthy(password)
  }

  /** The message of a broken password rule, shared by the server and the register form. */
  function RuleMessage(rule: PasswordRule): string {
    match rule
    case MinLength => "A senha deve ter pelo menos 8 caracteres."
    case SpecialChar => "A senha deve conter pelo menos um caractere especial."
    case Uppercase => "A senha deve conter pelo menos uma letra maiúscula."
    case Lowercase => "A senha deve conter pelo menos uma letra minúscula."
    case Digit => "A senha deve conter pelo menos um número."
  }

  /** The reset route's checks before the token lookup: None lets the request through. */
  function ResetPrecheck(token: string, newPassword: string): (r: Option<Reply>)
    ensures r.None? <==> Truthy(token) && StrongPassword(newPassword)
    ensures r.Some? ==> r.value.status == 400
    ensures Truthy(token) && Truthy(newPassword) && r.Some? ==>
      FirstBrokenRule(newPassword).Some? && r.value.message == RuleMessage(FirstBrokenRule(newPassword).value)
  {
    if !Truthy(token) || !Truthy(newPassword) then
      StrongPasswordNotEmpty(newPassword);
      Some(Reply(400, "Token e nova senha são obrigatórios."))
    else
      match FirstBrokenRule(newPassword)
      case Some(rule) => Some(Reply(400, RuleMessage(rule)))
      case None => None
  }

  /** `reset_password_token = ? AND reset_password_expires > ?` for one user row. */
  predicate TokenAccepts(u: User, token: string, now: int) {
    u.resetToken == Some(token) && u.resetExpires.Some? && u.resetExpires.value > now
  }

  /** The forgot-password update of a user row. */
  function IssueToken(u: User, token: string, now: int): User {
    u.(resetToken := Some(token), resetExpires := Some(now + ResetTokenLifetime))
  }

  /** The reset-password update: new hash, token and expiry set to NULL. */
  function ConsumeToken(u: User, newPassword: string): User {
    u.(password := Hashed(newPassword), resetToken := None, resetExpires := None)
  }

  /** A token issued at `issuedAt` is accepted exactly while `now` is less than
      an hour later, and no other token is accepted. */
  lemma IssuedTokenWindow(u: User, token: string, issuedAt: int, other: string, now: int)
    ensures TokenAccepts(IssueToken(u, token, issuedAt), token, now) <==> now < issuedAt + ResetTokenLifetime
    ensures other != token ==> !TokenAccepts(IssueToken(u, token, issuedAt), other, now)
  {
  }

  /** After a successful reset no token is accepted for the row any more. */
  lemma ConsumedTokenRejected(u: User, newPassword: string, token: string, now: int)
    ensures !TokenAccepts(ConsumeToken(u, newPassword), token, now)
    ensures ConsumeToken(u, newPassword).password == Hashed(newPassword)
  {
  }

  /** The create routes' first check: every required field and company_id are truthy. */
  predicate CreateFieldsPresent(r: Resource, body: seq<Cell>, companyId: Option<int>)
    requires |body| == |Columns(r)|
  {
    && (forall k :: 0 <= k < |body| && Required(r, k) ==> Given(body[k]))
    && companyId.Some? && companyId.value != 0
  }

  /** The update routes' first check, `!a && !b && ...`, negated. */
  predicate AnyGiven(body: seq<Cell>) {
    exists k :: 0 <= k < |body| && Given(body[k])
  }

  /** The positions of the truthy body fields, in column order. */
  function GivenIndices(body: seq<Cell>): (ix: seq<nat>)
    ensures forall k :: 0 <= k < |ix| ==> ix[k] < |body| && Given(body[ix[k]])
    ensures forall i :: 0 <= i < |body| && Given(body[i]) ==> i in ix
    ensures forall a, b :: 0 <= a < b < |ix| ==> ix[a] < ix[b]
  {
    if body == [] then []
    else
      var n := |body| - 1;
      var prev := GivenIndices(body[..n]);
      assert forall i :: 0 <= i < n && Given(body[i]) ==> Given(body[..n][i]);
      prev + (if Given(body[n]) then [n] else [])
  }

  /** The `fields.length === 0` check after the first one can never fire:
      the SET list is empty exactly when no field is given. */
  lemma SetListEmptyIffNothingGiven(body: seq<Cell>)
    ensures GivenIndices(body) == [] <==> !AnyGiven(body)
  {
    if AnyGiven(body) {
      var k :| 0 <= k < |body| && Given(body[k]);
      assert k in GivenIndices(body);
    }
  }

  /** The update routes' `if (x) { fields.push("x = ?"); values.push(x) }` chain,
      as a loop over the resource's columns. A SET-list entry is represented
      by its column; its SQL text is `ColumnName(c) + " = ?"`. */
  method BuildSetList(columns: seq<Column>, body: seq<Cell>) returns (fields: seq<Column>, values: seq<Cell>)
    requires |columns| == |body|
    ensures |fields| == |values| == |GivenIndices(body)|
    ensures forall k :: 0 <= k < |fields| ==>
      fields[k] == columns[GivenIndices(body)[k]] && values[k] == body[GivenIndices(body)[k]]
    ensures |fields| > 0 <==> AnyGiven(body)
  {
    fields, values := [], [];
    var i := 0;
    while i < |body|
      invariant 0 <= i <= |body|
      invariant |fields| == |values| == |GivenIndices(body[..i])|
      invariant forall k :: 0 <= k < |fields| ==>
        fields[k] == columns[GivenIndices(body[..i])[k]] && values[k] == body[GivenIndices(body[..i])[k]]
    {
      assert body[..i + 1][..i] == body[..i];
      if Given(body[i]) {
        fields := fields + [columns[i]];
        values := values + [body[i]];
      }
      i := i + 1;
    }
    assert body[..i] == body;
    SetListEmptyIffNothingGiven(body);
  }

  /** The position of a column. */
  function ColumnIndex(columns: seq<Column>, name: Column): (k: nat)
    requires name in columns
    ensures k < |columns| && columns[k] == name
  {
    if columns[0] == name then 0 else 1 + ColumnIndex(columns[1..], name)
  }

  lemma {:induction false} ColumnIndexOfDistinct(columns: seq<Column>, k: nat)
    requires NoDuplicates(columns) && k < |columns|
    ensures ColumnIndex(columns, columns[k]) == k
  {
    if k > 0 {
      assert columns[0] != columns[k];
      assert columns[1..][k - 1] == columns[k];
      ColumnIndexOfDistinct(columns[1..], k - 1);
    }
  }

  /** Executing `UPDATE ... SET f1 = v1, f2 = v2, ...` on a row's cells. */
  function ApplySets(cells: seq<Cell>, columns: seq<Column>, fields: seq<Column>, values: seq<Cell>): (r: seq<Cell>)
    requires |cells| == |columns| && |fields| == |values|
    requires forall k :: 0 <= k < |fields| ==> fields[k] in columns
    ensures |r| == |cells|
  {
    if fields == [] then cells
    else
      var n := |fields| - 1;
      ApplySets(cells, columns, fields[..n], values[..n])[ColumnIndex(columns, fields[n]) := values[n]]
  }

  /** Truthy fields overwrite their column; everything else keeps its value. */
  function Overwrite(cells: seq<Cell>, body: seq<Cell>): (r: seq<Cell>)
    requires |cells| == |body|
  {
    seq(|cells|, i requires 0 <= i < |cells| => if Given(body[i]) then body[i] else cells[i])
  }

  lemma {:induction false} ApplyPrefix(cells: seq<Cell>, columns: seq<Column>, body: seq<Cell>,
                                       ix: seq<nat>, fields: seq<Column>, values: seq<Cell>, i: nat)
    requires |cells| == |columns| == |body| && NoDuplicates(columns)
    requires |fields| == |values| == |ix|
    requires forall k :: 0 <= k < |ix| ==> ix[k] < |body| && fields[k] == columns[ix[k]] && values[k] == body[ix[k]]
    requires i < |cells|
    ensures forall k :: 0 <= k < |fields| ==> fields[k] in columns
    ensures ApplySets(cells, columns, fields, values)[i] == if i in ix then body[i] else cells[i]
  {
    assert forall k :: 0 <= k < |fields| ==> fields[k] in columns by {
      forall k | 0 <= k < |fields| ensures fields[k] in columns { assert columns[ix[k]] == fields[k]; }
    }
    if fields != [] {
      var n := |fields| - 1;
      ApplyPrefix(cells, columns, body, ix[..n], fields[..n], values[..n], i);
      ColumnIndexOfDistinct(columns, ix[n]);
      assert ix == ix[..n] + [ix[n]];
    }
  }

  /** Running the SET list that BuildSetList produces overwrites exactly the
      truthy fields of the body and leaves the other columns as they were. */
  lemma SetListOverwritesGiven(cells: seq<Cell>, columns: seq<Column>, body: seq<Cell>,
                               fields: seq<Column>, values: seq<Cell>)
    requires |cells| == |columns| == |body| && NoDuplicates(columns)
    requires |fields| == |values| == |GivenIndices(body)|
    requires forall k :: 0 <= k < |fields| ==>
      fields[k] == columns[GivenIndices(body)[k]] && values[k] == body[GivenIndices(body)[k]]
    ensures forall k :: 0 <= k < |fields| ==> fields[k] in columns
    ensures ApplySets(cells, columns, fields, values) == Overwrite(cells, body)
  {
    var ix := GivenIndices(body);
    if |cells| == 0 {
      assert fields == [];
    }
    forall i | 0 <= i < |cells| ensures ApplySets(cells, columns, fields, values)[i] == Overwrite(cells, body)[i] {
      ApplyPrefix(cells, columns, body, ix, fields, values, i);
    }
  }
}
