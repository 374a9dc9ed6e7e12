/**
  js/ui.js: the page router with its protected-page rule, the message modal's
  handling of message types, and the profile icon. Page contents and the DOM
  are represented by the view that is chosen.
*/
module Ui {
  import opened JsStrings
  import opened Utils

  /** A `showCustomMessage(text, type)` call. */
  datatype Notice = Notice(text: string, kind: string)

  /** The pages a logged-out visitor may not open. */
  const ProtectedPages: seq<string> :=
    ["dashboard", "produtos", "clientes", "servicos", "ordem", "termos", "financeiro", "profile"]

  const LoginRequiredNotice: Notice := Notice("Você precisa estar logado para acessar esta página.", "warning")

  /** One view per `case` of the router's switch, and the default view
      showing "Selecione uma opção". */
  datatype View =
    | Dashboard | Products | Clients | Services | Orders | Terms | Financial | Profile
    | RegisterForm | LoginForm | ForgotPasswordForm | ResetPasswordForm
    | ChooseOption

  /** The page name each view is dispatched for. */
  function PageName(v: View): (p: string)
    requires v != ChooseOption
  {
    match v
    case Dashboard => "dashboard"
    case Products => "produtos"
    case Clients => "clientes"
    case Services => "servicos"
    case Orders => "ordem"
    case Terms => "termos"
    case Financial => "financeiro"
    case Profile => "profile"
    case RegisterForm => "register"
    case LoginForm => "login"
    case ForgotPasswordForm => "forgot-password"
    case ResetPasswordForm => "reset-password"
  }

  /** The router's switch. */
  function Dispatch(page: string): (v: View)
  {
    if page == "dashboard" then Dashboard
    else if page == "produtos" then Products
    else if page == "clientes" then Clients
    else if page == "servicos" then Services
    else if page == "ordem" then Orders
    else if page == "termos" then Terms
    else if page == "financeiro" then Financial
    else if page == "register" then RegisterForm
    else if page == "login" then LoginForm
    else if page == "forgot-password" then ForgotPasswordForm
    else if page == "reset-password" then ResetPasswordForm
    else if page == "profile" then Profile
    else ChooseOption
  }

  /** The views that need a logged-in user. */
  predicate ProtectedView(v: View) {
    v != ChooseOption && v !in {RegisterForm, LoginForm, ForgotPasswordForm, ResetPasswordForm}
  }

  /** Each named page reaches its own view, each view is reached by exactly its
      own name, and every other name falls into the default view. The
      protected views are exactly those of the protected pages. */
  lemma DispatchNamesViews(page: string, v: View)
    ensures v != ChooseOption ==> Dispatch(PageName(v)) == v
    ensures v != ChooseOption && Dispatch(page) == v ==> page == PageName(v)
    ensures Dispatch(page) != ChooseOption ==> PageName(Dispatch(page)) == page
    ensures ProtectedView(Dispatch(page)) <==> page in ProtectedPages
  {
  }

  /** The outcome of `loadPage(page)`: the view rendered, the warning shown if
      the page was refused, and whether the profile icon is visible. */
  datatype PageLoad = PageLoad(view: View, warning: Option<Notice>, profileIcon: bool)

  /** `toggleProfileIconVisibility`: the icon is shown exactly for a logged-in user. */
  function ProfileIconVisible(loggedInUser: Json): (visible: bool)
    ensures visible <==> JsonTruthy(loggedInUser)
  {
    JsonTruthy(loggedInUser)
  }

  /** `loadPage(page)` for the current `systemData.loggedInUser`. */
  method LoadPage(page: string, loggedInUser: Json) returns (load: PageLoad)
    ensures page in ProtectedPages && !JsonTruthy(loggedInUser) ==>
      load.view == LoginForm && load.warning == Some(LoginRequiredNotice)
    ensures !(page in ProtectedPages && !JsonTruthy(loggedInUser)) ==>
      load.view == Dispatch(page) && load.warning == None
    ensures ProtectedView(load.view) ==> JsonTruthy(loggedInUser)
    ensures load.view == ChooseOption <==> Dispatch(page) == ChooseOption
    ensures load.profileIcon == ProfileIconVisible(loggedInUser)
  {
    var page := page;
    var warning := None;
    if page in ProtectedPages && !JsonTruthy(loggedInUser) {
      warning := Some(LoginRequiredNotice);
      page := "login";
    }
    DispatchNamesViews(page, LoginForm);
    var icon := ProfileIconVisible(loggedInUser);
    load := PageLoad(Dispatch(page), warning, icon);
  }

  /** The start-up handler: the dashboard for a stored user, the login form otherwise. */
  function StartPage(loggedInUser: Json): (page: string)
    ensures page == "dashboard" || page == "login"
    ensures page == "dashboard" <==> JsonTruthy(loggedInUser)
  {
    if JsonTruthy(loggedInUser) then "dashboard" else "login"
  }

  /** At start-up `systemData.loggedInUser` is what the last session left in
      storage: after a save of a truthy user the dashboard opens, after a
      clear (logout) or with nothing stored the login page opens. A start-up
      never asks for a protected page for a logged-out visitor, so the
      router's refusal is never triggered by it. */
  lemma StartPageFollowsSession(storage: Storage, user: Json, company: Json)
    ensures StartPage(Restore(SavedStorage(storage, user, company), LoggedInUserKey))
      == (if JsonTruthy(user) then "dashboard" else "login")
    ensures StartPage(Restore(ClearedStorage(storage), LoggedInUserKey)) == "login"
    ensures StartPage(Restore(map[], LoggedInUserKey)) == "login"
    ensures forall u: Json :: StartPage(u) in ProtectedPages ==> JsonTruthy(u)
    ensures forall u: Json :: Dispatch(StartPage(u)) != ChooseOption
  {
    RestoreAfterSave(storage, user, company);
    RestoreAfterClear(storage);
  }

  /** The message types the modal distinguishes; every other type string is info. */
  datatype MessageKind = Success | Error | Warning | Loading | Info

  /** The `type` parameter's default. */
  const DefaultMessageType: string := "info"

  function KindOf(kind: string): (k: MessageKind)
    ensures k == Success <==> kind == "success"
    ensures k == Error <==> kind == "error"
    ensures k == Warning <==> kind == "warning"
    ensures k == Loading <==> kind == "loading"
    ensures k == Info <==> kind !in {"success", "error", "warning", "loading"}
  {
    if kind == "success" then Success
    else if kind == "error" then Error
    else if kind == "warning" then Warning
    else if kind == "loading" then Loading
    else Info
  }

  /** What the modal shows: the text, the border colour, whether the close
      button is visible and whether the modal closes itself after the timeout. */
  datatype MessageStyle = MessageStyle(text: string, border: string, closeButton: bool, autoClose: bool)

  function BorderOf(k: MessageKind): string {
    match k
    case Success => "border-green-500"
    case Error => "border-red-500"
    case Warning => "border-yellow-500"
    case Loading => "border-blue-500"
    case Info => "border-blue-500"
  }

  /** `showCustomMessage(message, type, autoClose)`: the close button is hidden
      first and shown again only for errors; a loading message clears `autoClose`. */
  method ShowCustomMessage(message: string, kind: string, autoClose: bool) returns (style: MessageStyle)
    ensures style.text == message
    ensures style.closeButton <==> kind == "error"
    ensures style.autoClose <==> autoClose && kind != "loading"
    ensures style.border == BorderOf(KindOf(kind))
    ensures KindOf(kind) == Info ==> style == MessageStyle(message, BorderOf(Info), false, autoClose)
  {
    var autoClose := autoClose;
    var closeButton := false;
    var border: string;
    match KindOf(kind) {
      case Success =>
        border := "border-green-500";
      case Error =>
        border := "border-red-500";
        closeButton := true;
      case Warning =>
        border := "border-yellow-500";
      case Loading =>
        border := "border-blue-500";
        autoClose := false;
      case Info =>
        border := "border-blue-500";
    }
    style := MessageStyle(message, border, closeButton, autoClose);
  }

  /** An unknown type is shown exactly as an info message. */
  lemma UnknownTypeIsInfo(message: string, kind: string, autoClose: bool)
    requires kind !in {"success", "error", "warning", "loading"}
    ensures KindOf(kind) == KindOf(DefaultMessageType)
    ensures BorderOf(KindOf(kind)) == BorderOf(Info)
  {
  }

  /** A form submission that the browser checks before sending: either it is
      stopped with a message (and possibly a page to go to), or the request is sent. */
  datatype Submission<Req> = Blocked(notice: Notice, next: Option<string>) | Sent(request: Req)

  /** The common handling of a form request's JSON reply: the server message
      as success and the login page, or the message prefixed with "Erro: ". */
  function ReplyOutcome(ok: bool, message: string): (r: (Notice, Option<string>))
    ensures ok ==> r.0 == Notice(message, "success") && r.1 == Some("login")
    ensures !ok ==> r.0 == Notice("Erro: " + message, "error") && r.1 == None
  {
    if ok then (Notice(message, "success"), Some("login")) else (Notice("Erro: " + message, "error"), None)
  }

  /** The modal shows a reply's notice as a success (green border, no close
      button) or as an error (red border, close button), and the page an ok
      reply moves to is the login form, which needs no session. */
  lemma ReplyOutcomeShown(ok: bool, message: string)
    ensures var r := ReplyOutcome(ok, message);
      && KindOf(r.0.kind) == (if ok then Success else Error)
      && BorderOf(KindOf(r.0.kind)) == (if ok then "border-green-500" else "border-red-500")
      && (r.0.kind == "error" <==> !ok)
    ensures var r := ReplyOutcome(ok, message);
      r.1.Some? ==> Dispatch(r.1.value) == LoginForm && !ProtectedView(Dispatch(r.1.value))
  {
  }
}
