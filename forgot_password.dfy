/**
  js/forgotPassword.js: the forgot-password form's checks before
  POST /forgot-password and the handling of its reply.
*/
module ForgotPasswordClient {
  import opened JsStrings
  import opened Validators
  import opened ServerRules
  import opened Ui

  /** The JSON body of POST /forgot-password. */
  datatype ForgotRequest = ForgotRequest(email: string)

  /** handleForgotPassword up to the request: the trimmed e-mail must be
      non-empty, then match the e-mail pattern. */
  function ForgotSubmit(email: string): (s: Submission<ForgotRequest>)
    ensures s.Sent? <==> WellFormedEmail(Trim(email))
    ensures s.Sent? ==> s.request == ForgotRequest(Trim(email))
    ensures !Truthy(Trim(email)) ==> s == Blocked(Notice("Por favor, insira seu e-mail.", "error"), None)
    ensures Truthy(Trim(email)) && !WellFormedEmail(Trim(email)) ==>
      s == Blocked(Notice("Por favor, insira um e-mail válido.", "error"), None)
  {
    var email := Trim(email);
    EmailPatternIffWellFormed(email);
    if !Truthy(email) then Blocked(Notice("Por favor, insira seu e-mail.", "error"), None)
    else if !MatchesEmailPattern(email) then Blocked(Notice("Por favor, insira um e-mail válido.", "error"), None)
    else Sent(ForgotRequest(email))
  }

  /** A sent e-mail has no surrounding white space, so trimming it again
      changes nothing. */
  lemma SentEmailIsTrimmed(email: string)
    requires ForgotSubmit(email).Sent?
    ensures Trim(ForgotSubmit(email).request.email) == ForgotSubmit(email).request.email
  {
    TrimIdempotent(email);
  }

  /** The reply handling: an ok reply shows the server message as success and
      loads the login page; any other reply shows "Erro: " and the message and
      stays. When the reset mail is sent, the server's reply is the same
      whether or not the e-mail is registered; a failed mail gives a 500 only
      for a registered one (Store.ForgotReplyHidesRegistration). */
  function ForgotReply(ok: bool, message: string): (r: (Notice, Option<string>))
    ensures ok ==> r.1 == Some("login") && r.0 == Notice(message, "success")
    ensures !ok ==> r.1 == None && r.0 == Notice("Erro: " + message, "error")
  {
    ReplyOutcome(ok, message)
  }
}
