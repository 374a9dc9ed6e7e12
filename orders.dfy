/**
  js/orders.js: the display mappings of the orders table, the status choices
  and value autofill of the new-order form, and the guard of its submission.
*/
module OrdersView {
  import opened JsStrings
  import opened Utils
  import opened Ui

  /** `#${String(order.id).padStart(3, "0")}` for an AUTOINCREMENT id. */
  function OrderNumber(id: nat): (s: string)
    ensures |s| >= 4 && s[0] == '#'
  {
    "#" + PadStart(Decimal(id), 3, '0')
  }

  /** The displayed number is `#` and at least three digits; ids of three or
      more digits are shown unpadded. */
  lemma OrderNumberWidth(id: nat)
    ensures |OrderNumber(id)| == 1 + (if |Decimal(id)| >= 3 then |Decimal(id)| else 3)
    ensures |Decimal(id)| >= 3 ==> OrderNumber(id) == "#" + Decimal(id)
  {
  }

  lemma AfterHash(p: string)
    requires forall k :: 0 <= k < |p| ==> '0' <= p[k] <= '9'
    ensures ("#" + p)[1..] == p
    ensures forall k :: 1 <= k < |"#" + p| ==> '0' <= ("#" + p)[k] <= '9'
  {
    forall k | 1 <= k < |"#" + p|
      ensures '0' <= ("#" + p)[k] <= '9'
    {
      assert ("#" + p)[k] == p[k - 1];
    }
  }

  /** The digits after `#` read back as the id. */
  lemma {:induction false} OrderNumberInverts(id: nat)
    ensures forall k :: 1 <= k < |OrderNumber(id)| ==> '0' <= OrderNumber(id)[k] <= '9'
    ensures ParseDecimal(OrderNumber(id)[1..]) == id
  {
    PaddedDecimalInverts(id, 3);
    AfterHash(PadStart(Decimal(id), 3, '0'));
  }

  /** Different orders never share a displayed number. */
  lemma OrderNumberInjective(id: nat, other: nat)
    requires OrderNumber(id) == OrderNumber(other)
    ensures id == other
  {
    OrderNumberInverts(id);
    OrderNumberInverts(other);
  }

  const Completed: string := "Concluído"
  const InProgress: string := "Em Andamento"
  const Pending: string := "Pendente"

  /** The badge colour of a status. */
  function StatusClass(status: string): (c: string)
    ensures c == "bg-green-100 text-green-800" <==> status == Completed
    ensures c == "bg-yellow-100 text-yellow-800" <==> status == InProgress
    ensures c == "bg-gray-100 text-gray-800" <==> status != Completed && status != InProgress
  {
    if status == Completed then "bg-green-100 text-green-800"
    else if status == InProgress then "bg-yellow-100 text-yellow-800"
    else "bg-gray-100 text-gray-800"
  }

  /** The `<option>`s of the status select, in order. */
  const StatusOptions: seq<string> := [Pending, InProgress, Completed]

  /** Each status the form offers gets its own badge colour, and a pending
      order is shown grey like any unknown status. */
  lemma StatusOptionsDistinct()
    ensures NoDuplicates(StatusOptions)
    ensures forall i, j :: 0 <= i < j < |StatusOptions| ==> StatusClass(StatusOptions[i]) != StatusClass(StatusOptions[j])
    ensures StatusClass(Pending) == StatusClass("")
  {
    assert Pending != Completed && Pending != InProgress;
    assert Completed != InProgress;
  }

  /** An order of GET /orders/:companyId. */
  datatype OrderItem = OrderItem(id: nat, clientName: string, serviceName: string, status: string, value: int)

  /** One table row: its number, client, service, status with its badge, value. */
  datatype RowView = RowView(number: string, client: string, service: string, badge: string, status: string, value: int)

  /** The table body and whether the "no orders" message is visible. */
  datatype OrdersTable = OrdersTable(rows: seq<RowView>, noOrdersShown: bool)

  function RowOf(o: OrderItem): RowView {
    RowView(OrderNumber(o.id), o.clientName, o.serviceName, StatusClass(o.status), o.status, o.value)
  }

  /** fetchOrders after the reply: rows for an ok, non-empty list; otherwise an
      empty body and the message. */
  function RenderOrders(ok: bool, orders: seq<OrderItem>): (t: OrdersTable)
    ensures t.noOrdersShown <==> !ok || |orders| == 0
    ensures t.noOrdersShown ==> t.rows == []
    ensures !t.noOrdersShown ==> |t.rows| == |orders|
    ensures !t.noOrdersShown ==>
      forall i :: 0 <= i < |orders| ==>
        t.rows[i].number == OrderNumber(orders[i].id) && t.rows[i].badge == StatusClass(orders[i].status)
        && t.rows[i].status == orders[i].status && t.rows[i].client == orders[i].clientName
        && t.rows[i].service == orders[i].serviceName && t.rows[i].value == orders[i].value
  {
    if ok && |orders| > 0 then OrdersTable(seq(|orders|, i requires 0 <= i < |orders| => RowOf(orders[i])), false)
    else OrdersTable([], true)
  }

  /** The service select's change handler: the chosen option's `data-valor`
      (None for the placeholder, which has none) replaces the value field
      when it is truthy. */
  function Autofill(field: string, dataValor: Option<string>): (r: string)
    ensures OptTruthy(dataValor) ==> r == dataValor.value
    ensures !OptTruthy(dataValor) ==> r == field
  {
    if OptTruthy(dataValor) then dataValor.value else field
  }

  /** Choosing the placeholder never changes the field, and choosing the same
      service twice is the same as choosing it once. */
  lemma AutofillIdempotent(field: string, dataValor: Option<string>)
    ensures Autofill(field, None) == field
    ensures Autofill(Autofill(field, dataValor), dataValor) == Autofill(field, dataValor)
  {
  }

  const OrderModalWarning: Notice := Notice("Você precisa estar logado para criar ordens de serviço.", "warning")

  /** openOrdemModal's guard: with a logged-in company the modal goes on to
      fetch that company's clients and services; otherwise the login page. */
  function OpenOrderModal(loggedInUser: Json): (s: Submission<Json>)
    ensures s.Sent? <==> JsonTruthy(loggedInUser) && JsonTruthy(Prop(loggedInUser, "companyId"))
    ensures s.Sent? ==> s.request == Prop(loggedInUser, "companyId") && JsonTruthy(s.request)
    ensures s.Blocked? ==> s.notice == OrderModalWarning && s.next == Some("login")
  {
    if !JsonTruthy(loggedInUser) || !JsonTruthy(Prop(loggedInUser, "companyId")) then
      Blocked(OrderModalWarning, Some("login"))
    else Sent(Prop(loggedInUser, "companyId"))
  }

  /** The JSON body of POST /orders: the two ids are the selects' string values. */
  datatype OrderRequest = OrderRequest(clientId: string, serviceId: string, status: string, value: int, companyId: Json)

  const OrderLoginWarning: Notice := Notice("Você precisa estar logado para adicionar ordens de serviço.", "warning")

  /** addOrdem up to the request. */
  function AddOrderSubmit(loggedInUser: Json, clientId: string, serviceId: string, status: string, value: int)
    : (s: Submission<OrderRequest>)
    ensures s.Sent? <==> JsonTruthy(loggedInUser) && JsonTruthy(Prop(loggedInUser, "companyId"))
    ensures s.Sent? ==> s.request == OrderRequest(clientId, serviceId, status, value, Prop(loggedInUser, "companyId"))
    ensures s.Blocked? ==> s.notice == OrderLoginWarning && s.next == Some("login")
  {
    if !JsonTruthy(loggedInUser) || !JsonTruthy(Prop(loggedInUser, "companyId")) then
      Blocked(OrderLoginWarning, Some("login"))
    else Sent(OrderRequest(clientId, serviceId, status, value, Prop(loggedInUser, "companyId")))
  }
}
