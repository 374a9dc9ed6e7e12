/**
  js/dashboard.js: the dashboard cards, its chart, and the guard of the
  add-entry and add-exit forms.
*/
module Dashboard {
  import opened JsStrings
  import opened Utils
  import opened Ui
  import opened Financial

  /** The four dashboard cards. */
  datatype Stats = Stats(totalEntries: int, totalExits: int, balance: int, balanceClass: string, clientCount: nat)

  /** The balance figure's colour. */
  function BalanceClass(balance: int): (c: string)
    ensures c == "text-green-600" <==> NonNegativeBalance(balance)
    ensures c == "text-green-600" || c == "text-red-600"
  {
    if NonNegativeBalance(balance) then "text-green-600" else "text-red-600"
  }

  /** fetchDashboardData's cards: every entry and exit, with no month filter,
      and the number of clients listed. */
  function DashboardStats(entries: seq<Txn>, exits: seq<Txn>, clients: nat): (s: Stats)
    ensures s.balance == s.totalEntries - s.totalExits
    ensures s.clientCount == clients
    ensures s.balanceClass == BalanceClass(s.balance)
  {
    var e, x := Sum(entries), Sum(exits);
    Stats(e, x, e - x, BalanceClass(e - x), clients)
  }

  /** The dashboard's totals are the financial page's totals with the filter
      reset, and they equal the sums of the dashboard chart's two series. */
  lemma DashboardAgreesWithFinancial(entries: seq<Txn>, exits: seq<Txn>, clients: nat)
    ensures var s := DashboardStats(entries, exits, clients); var t := PageTotals(entries, exits, ResetFilter);
      && s.totalEntries == t.entries && s.totalExits == t.exits && s.balance == t.balance
    ensures var s := DashboardStats(entries, exits, clients); var c := ChartOf(entries, exits);
      SeqSum(c.entrySeries) == s.totalEntries && SeqSum(c.exitSeries) == s.totalExits
  {
    ChartAlignedAndConserving(entries, exits);
  }

  /** The dashboard's green balance, the financial page's blue card and its
      "Positivo" caption appear together: all three follow the sign of the
      same unfiltered balance, entries minus exits. */
  lemma BalanceStylesAgree(entries: seq<Txn>, exits: seq<Txn>, clients: nat)
    ensures var s := DashboardStats(entries, exits, clients);
      var card := BalanceCardOf(PageTotals(entries, exits, ResetFilter).balance);
      && (s.balanceClass == "text-green-600" <==> card.caption == "Positivo")
      && (card.caption == "Positivo" <==> card.gradient == "from-blue-400 to-blue-600")
      && (s.balanceClass == "text-green-600" <==> Sum(entries) >= Sum(exits))
  {
    ResetShowsAll(entries);
    ResetShowsAll(exits);
  }

  /** The JSON body of POST /financial-entries and POST /financial-exits. */
  datatype TxnRequest = TxnRequest(description: string, date: string, value: int, companyId: Json)

  /** Which of the two forms is submitted. */
  datatype TxnKind = Entry | Exit

  function LoginWarning(kind: TxnKind): Notice {
    match kind
    case Entry => Notice("Você precisa estar logado para adicionar entradas financeiras.", "warning")
    case Exit => Notice("Você precisa estar logado para adicionar saídas financeiras.", "warning")
  }

  /** addEntrada and addSaida up to the request: without a logged-in user
      holding a truthy companyId nothing is sent and the login page is loaded. */
  function AddTxnSubmit(kind: TxnKind, loggedInUser: Json, description: string, date: string, value: int)
    : (s: Submission<TxnRequest>)
    ensures s.Sent? <==> JsonTruthy(loggedInUser) && JsonTruthy(Prop(loggedInUser, "companyId"))
    ensures s.Sent? ==> s.request == TxnRequest(description, date, value, Prop(loggedInUser, "companyId"))
    ensures s.Blocked? ==> s.notice == LoginWarning(kind) && s.next == Some("login")
  {
    if !JsonTruthy(loggedInUser) || !JsonTruthy(Prop(loggedInUser, "companyId")) then
      Blocked(LoginWarning(kind), Some("login"))
    else Sent(TxnRequest(description, date, value, Prop(loggedInUser, "companyId")))
  }

  /** A logged-out session (after logout or a fresh start with empty storage)
      can never post a financial row. */
  lemma LoggedOutCannotPost(kind: TxnKind, description: string, date: string, value: int)
    ensures AddTxnSubmit(kind, JNull, description, date, value) == Blocked(LoginWarning(kind), Some("login"))
    ensures AddTxnSubmit(kind, Restore(ClearedStorage(map[]), LoggedInUserKey), description, date, value).Blocked?
  {
    RestoreAfterClear(map[]);
  }
}
