/**
  js/resetPassword.js: the reset form's checks before POST /reset-password
  and the handling of its reply.
*/
module ResetPasswordClient {
  import opened JsStrings
  import opened Validators
  import opened ServerRules
  import opened Ui

  /** The JSON body of POST /reset-password. */
  datatype ResetRequest = ResetRequest(token: string, newPassword: string)

  /** The form's own wording of a broken password rule. */
  function ResetRuleMessage(rule: PasswordRule): string {
    match rule
    case MinLength => "A nova senha deve ter pelo menos 8 caracteres."
    case SpecialChar => "A nova senha deve conter pelo menos um caractere especial."
    case Uppercase => "A nova senha deve conter pelo menos uma letra maiúscula."
    case Lowercase => "A nova senha deve conter pelo menos uma letra minúscula."
    case Digit => "A nova senha deve conter pelo menos um número."
  }

  const MissingTokenNotice: Notice := Notice("Token de redefinição de senha não encontrado.", "error")

  /** handleResetPassword up to the request. `token` is the `token` query
      parameter (None when absent); it is not trimmed, the two password inputs are. */
  function ResetSubmit(token: Option<string>, newPassword: string, confirmNewPassword: string): (s: Submission<ResetRequest>)
    ensures s.Sent? <==>
      (OptTruthy(token) && StrongPassword(Trim(newPassword)) && Trim(newPassword) == Trim(confirmNewPassword))
    ensures s.Sent? ==> s.request == ResetRequest(token.value, Trim(newPassword))
    ensures !OptTruthy(token) ==> s == Blocked(MissingTokenNotice, Some("login"))
    ensures OptTruthy(token) && !StrongPassword(Trim(newPassword)) ==>
      s == Blocked(Notice(ResetRuleMessage(FirstBrokenRule(Trim(newPassword)).value), "error"), None)
    ensures OptTruthy(token) && StrongPassword(Trim(newPassword)) && Trim(newPassword) != Trim(confirmNewPassword) ==>
      s == Blocked(Notice("A nova senha e a confirmação não coincidem!", "error"), None)
  {
    if !OptTruthy(token) then Blocked(MissingTokenNotice, Some("login"))
    else
      var password, confirmation := Trim(newPassword), Trim(confirmNewPassword);
      match FirstBrokenRule(password)
      case Some(rule) => Blocked(Notice(ResetRuleMessage(rule), "error"), None)
      case None =>
        if password != confirmation then Blocked(Notice("A nova senha e a confirmação não coincidem!", "error"), None)
        else Sent(ResetRequest(token.value, password))
  }

  /** Every request the form sends passes the server's checks before the
      token lookup, and the form and the server report the same broken rule
      (in their own wording) for a trimmed password. */
  lemma SentResetPassesServer(token: Option<string>, newPassword: string, confirmNewPassword: string)
    ensures ResetSubmit(token, newPassword, confirmNewPassword).Sent? ==>
      var q := ResetSubmit(token, newPassword, confirmNewPassword).request;
      ResetPrecheck(q.token, q.newPassword) == None
    ensures OptTruthy(token) && Truthy(Trim(newPassword)) && !StrongPassword(Trim(newPassword)) ==>
      && ResetSubmit(token, newPassword, confirmNewPassword).Blocked?
      && ResetPrecheck(token.value, Trim(newPassword)).Some?
      && ResetSubmit(token, newPassword, confirmNewPassword).notice.text
           == ResetRuleMessage(FirstBrokenRule(Trim(newPassword)).value)
      && ResetPrecheck(token.value, Trim(newPassword)).value.message
           == RuleMessage(FirstBrokenRule(Trim(newPassword)).value)
  {
  }

  /** The reply handling: the server message and the login page on success,
      "Erro: " and the message otherwise. */
  function ResetReply(ok: bool, message: string): (r: (Notice, Option<string>))
    ensures r.1 == Some("login") <==> ok
    ensures r.0.kind == (if ok then "success" else "error")
    ensures r.0.text == (if ok then message else "Erro: " + message)
  {
    ReplyOutcome(ok, message)
  }
}
