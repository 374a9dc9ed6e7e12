/**
  The create / list / update / delete routes of backend/server.js for the six
  tenant-scoped resources, as functions from one table to a status and the
  next table. Updates and deletes touch a row only when both its id and its
  company_id match the request; a `WHERE company_id = NULL` matches nothing.
*/
module Crud {
  import opened JsStrings
  import opened Schema
  import opened ServerRules

  datatype Outcome = Outcome(status: int, table: Table)

  /** A `company_id` body field that passes `if (!company_id)`. */
  predicate IdGiven(companyId: Option<int>) {
    companyId.Some? && companyId.value != 0
  }

  /** `WHERE id = ? AND company_id = ?` selects row `id`. */
  predicate Owned(t: Table, id: int, companyId: Option<int>) {
    id in t.rows && companyId.Some? && t.rows[id].companyId == companyId.value
  }

  /** Writing `cells` into row `except` would break the resource's UNIQUE column. */
  predicate UniqueClash(r: Resource, rows: map<int, Row>, cells: seq<Cell>, except: int)
    requires |cells| == |Columns(r)|
  {
    UniqueColumn(r).Some? && TakenBy(rows, UniqueColumn(r).value, cells[UniqueColumn(r).value], except)
  }

  /** The rows `SELECT * FROM <table> WHERE company_id = ?` returns, keyed by id. */
  function ListFor(t: Table, companyId: int): (m: map<int, Row>)
    ensures forall id :: id in m <==> id in t.rows && t.rows[id].companyId == companyId
    ensures forall id :: id in m ==> m[id] == t.rows[id]
  {
    map id | id in t.rows && t.rows[id].companyId == companyId :: t.rows[id]
  }

  /** POST /<resource>: 400 when a required field or company_id is falsy, 409 on
      a UNIQUE clash, otherwise 201 with the row stored under the next id. */
  function Create(r: Resource, t: Table, body: seq<Cell>, companyId: Option<int>): (o: Outcome)
    requires TableValid(r, t) && |body| == |Columns(r)|
    ensures TableValid(r, o.table)
    ensures o.status == 400 <==> !CreateFieldsPresent(r, body, companyId)
    ensures o.status == 409 <==> CreateFieldsPresent(r, body, companyId) && UniqueClash(r, t.rows, body, t.nextId)
    ensures o.status == 201 <==> CreateFieldsPresent(r, body, companyId) && !UniqueClash(r, t.rows, body, t.nextId)
    ensures o.status != 201 ==> o.table == t
    ensures o.status == 201 ==>
      && t.nextId !in t.rows
      && o.table.rows == t.rows[t.nextId := Row(body, companyId.value)]
      && o.table.nextId == t.nextId + 1
  {
    if !CreateFieldsPresent(r, body, companyId) then Outcome(400, t)
    else if UniqueClash(r, t.rows, body, t.nextId) then Outcome(409, t)
    else
      var t' := Table(t.rows[t.nextId := Row(body, companyId.value)], t.nextId + 1);
      assert TableValid(r, t') by { InsertKeepsUnique(r, t, body, companyId.value); }
      Outcome(201, t')
  }

  lemma InsertKeepsUnique(r: Resource, t: Table, body: seq<Cell>, companyId: int)
    requires TableValid(r, t) && |body| == |Columns(r)|
    requires !UniqueClash(r, t.rows, body, t.nextId)
    ensures TableValid(r, Table(t.rows[t.nextId := Row(body, companyId)], t.nextId + 1))
  {
    var rows := t.rows[t.nextId := Row(body, companyId)];
    if UniqueColumn(r).Some? {
      var k := UniqueColumn(r).value;
      forall a | a in rows ensures !TakenBy(rows, k, rows[a].cells[k], a) {
        forall b | b in rows && b != a && k < |rows[b].cells|
          ensures rows[a].cells[k] == Null || rows[b].cells[k] != rows[a].cells[k]
        {
          if a == t.nextId {
            assert !TakenBy(t.rows, k, body[k], t.nextId);
          } else if b == t.nextId {
            assert !TakenBy(t.rows, k, body[k], t.nextId);
          } else {
            assert !TakenBy(t.rows, k, t.rows[a].cells[k], a);
          }
        }
      }
    }
  }

  /** PUT /<resource>/:id: 400 when no field is truthy, 404 when no row has
      this id and company_id, 409 on a UNIQUE clash, otherwise 200 with the
      truthy fields written over the row. */
  function Update(r: Resource, t: Table, id: int, body: seq<Cell>, companyId: Option<int>): (o: Outcome)
    requires TableValid(r, t) && |body| == |Columns(r)|
    ensures TableValid(r, o.table)
    ensures o.status == 400 <==> !AnyGiven(body)
    ensures o.status == 404 <==> AnyGiven(body) && !Owned(t, id, companyId)
    ensures o.status == 409 <==>
      (AnyGiven(body) && Owned(t, id, companyId) && UniqueClash(r, t.rows, Overwrite(t.rows[id].cells, body), id))
    ensures o.status == 200 <==>
      (AnyGiven(body) && Owned(t, id, companyId) && !UniqueClash(r, t.rows, Overwrite(t.rows[id].cells, body), id))
    ensures o.status != 200 ==> o.table == t
    ensures o.status == 200 ==>
      o.table == Table(t.rows[id := Row(Overwrite(t.rows[id].cells, body), t.rows[id].companyId)], t.nextId)
  {
    if !AnyGiven(body) then Outcome(400, t)
    else if !Owned(t, id, companyId) then Outcome(404, t)
    else
      var cells := Overwrite(t.rows[id].cells, body);
      if UniqueClash(r, t.rows, cells, id) then Outcome(409, t)
      else
        assert TableValid(r, Table(t.rows[id := Row(cells, t.rows[id].companyId)], t.nextId)) by {
          OverwriteKeepsUnique(r, t, id, cells);
        }
        Outcome(200, Table(t.rows[id := Row(cells, t.rows[id].companyId)], t.nextId))
  }

  lemma OverwriteKeepsUnique(r: Resource, t: Table, id: int, cells: seq<Cell>)
    requires TableValid(r, t) && id in t.rows && |cells| == |Columns(r)|
    requires !UniqueClash(r, t.rows, cells, id)
    ensures TableValid(r, Table(t.rows[id := Row(cells, t.rows[id].companyId)], t.nextId))
  {
    var rows := t.rows[id := Row(cells, t.rows[id].companyId)];
    if UniqueColumn(r).Some? {
      var k := UniqueColumn(r).value;
      forall a | a in rows ensures !TakenBy(rows, k, rows[a].cells[k], a) {
        forall b | b in rows && b != a && k < |rows[b].cells|
          ensures rows[a].cells[k] == Null || rows[b].cells[k] != rows[a].cells[k]
        {
          if a == id {
            assert !TakenBy(t.rows, k, cells[k], id);
          } else if b == id {
            assert !TakenBy(t.rows, k, cells[k], id);
          } else {
            assert !TakenBy(t.rows, k, t.rows[a].cells[k], a);
          }
        }
      }
    }
  }

  /** DELETE /<resource>/:id: 400 when company_id is falsy, 404 when no row
      has this id and company_id, otherwise 200 with that row removed. */
  function Delete(r: Resource, t: Table, id: int, companyId: Option<int>): (o: Outcome)
    requires TableValid(r, t)
    ensures TableValid(r, o.table)
    ensures o.status == 400 <==> !IdGiven(companyId)
    ensures o.status == 404 <==> IdGiven(companyId) && !Owned(t, id, companyId)
    ensures o.status == 200 <==> IdGiven(companyId) && Owned(t, id, companyId)
    ensures o.status != 200 ==> o.table == t
    ensures o.status == 200 ==> o.table == Table(t.rows - {id}, t.nextId)
  {
    if !IdGiven(companyId) then Outcome(400, t)
    else if !Owned(t, id, companyId) then Outcome(404, t)
    else
      var t' := Table(t.rows - {id}, t.nextId);
      assert TableValid(r, t') by {
        if UniqueColumn(r).Some? {
          var k := UniqueColumn(r).value;
          forall a | a in t'.rows ensures !TakenBy(t'.rows, k, t'.rows[a].cells[k], a) {
            assert !TakenBy(t.rows, k, t.rows[a].cells[k], a);
          }
        }
      }
      Outcome(200, t')
  }

  /** Tenant isolation: an update or delete leaves every other company's
      listing exactly as it was. */
  lemma {:induction false} OtherTenantsUntouched(r: Resource, t: Table, id: int, body: seq<Cell>,
                                                 companyId: Option<int>, other: int)
    requires TableValid(r, t) && |body| == |Columns(r)|
    requires companyId != Some(other)
    ensures ListFor(Update(r, t, id, body, companyId).table, other) == ListFor(t, other)
    ensures ListFor(Delete(r, t, id, companyId).table, other) == ListFor(t, other)
  {
    var u := Update(r, t, id, body, companyId).table;
    var d := Delete(r, t, id, companyId).table;
    assert ListFor(u, other) == ListFor(t, other) by {
      forall x | x in ListFor(u, other) ensures x in ListFor(t, other) { }
    }
    assert ListFor(d, other) == ListFor(t, other) by {
      forall x | x in ListFor(t, other) ensures x in ListFor(d, other) { }
    }
  }

  /** A created row shows up in its company's listing, and in no other. */
  lemma CreatedRowListed(r: Resource, t: Table, body: seq<Cell>, companyId: Option<int>, other: int)
    requires TableValid(r, t) && |body| == |Columns(r)|
    requires Create(r, t, body, companyId).status == 201
    ensures ListFor(Create(r, t, body, companyId).table, companyId.value) ==
            ListFor(t, companyId.value)[t.nextId := Row(body, companyId.value)]
    ensures other != companyId.value ==> ListFor(Create(r, t, body, companyId).table, other) == ListFor(t, other)
  {
  }

  /** Sending the same update twice leaves the table as the first one did. */
  lemma {:induction false} UpdateIdempotent(r: Resource, t: Table, id: int, body: seq<Cell>, companyId: Option<int>)
    requires TableValid(r, t) && |body| == |Columns(r)|
    requires Update(r, t, id, body, companyId).status == 200
    ensures Update(r, Update(r, t, id, body, companyId).table, id, body, companyId) == Update(r, t, id, body, companyId)
  {
    var t1 := Update(r, t, id, body, companyId).table;
    var c1 := Overwrite(t.rows[id].cells, body);
    assert Overwrite(c1, body) == c1;
    assert t1.rows[id].cells == c1;
    assert !UniqueClash(r, t1.rows, c1, id) by {
      if UniqueColumn(r).Some? {
        var k := UniqueColumn(r).value;
        assert !TakenBy(t1.rows, k, t1.rows[id].cells[k], id);
      }
    }
    assert t1.rows[id := Row(c1, t1.rows[id].companyId)] == t1.rows;
  }

  /** A second delete of the same row finds nothing. */
  lemma DeleteTwiceNotFound(r: Resource, t: Table, id: int, companyId: Option<int>)
    requires TableValid(r, t)
    requires Delete(r, t, id, companyId).status == 200
    ensures Delete(r, Delete(r, t, id, companyId).table, id, companyId).status == 404
  {
  }

  /** The order, client and service fields of a stored order row. */
  const ClientIdColumn: nat := 0
  const ServiceIdColumn: nat := 1

  /** The integer a `client_id` / `service_id` cell holds once stored in an INTEGER column. */
  function ReferencedId(c: Cell): Option<int> {
    match c
    case Num(n) => Some(n)
    case Text(s) =>
      if s != "" && forall k :: 0 <= k < |s| ==> '0' <= s[k] <= '9' then Some(ParseDecimal(s)) else None
    case Null => None
  }

  /** One row of the orders listing. */
  datatype OrderListing = OrderListing(clientName: Cell, serviceName: Cell, status: Cell, value: Cell)

  /** A reference resolves to a stored row of the other table; the JOIN is not tenant-scoped. */
  predicate Resolves(c: Cell, target: Table) {
    ReferencedId(c).Some? && ReferencedId(c).value in target.rows && |target.rows[ReferencedId(c).value].cells| >= 1
  }

  /** The name column of the row a resolving reference points at. */
  function NameOf(c: Cell, target: Table): Cell
    requires Resolves(c, target)
  {
    target.rows[ReferencedId(c).value].cells[0]
  }

  /** Order `id` survives both inner joins of the listing for `companyId`. */
  predicate Joined(orders: Table, clients: Table, services: Table, companyId: int, id: int)
    requires forall id :: id in orders.rows ==> |orders.rows[id].cells| == 4
  {
    id in orders.rows && orders.rows[id].companyId == companyId
    && Resolves(orders.rows[id].cells[ClientIdColumn], clients)
    && Resolves(orders.rows[id].cells[ServiceIdColumn], services)
  }

  /** GET /orders/:companyId: the company's orders joined with their client and
      service; an order whose client or service no longer exists is dropped. */
  function ListOrders(orders: Table, clients: Table, services: Table, companyId: int): (m: map<int, OrderListing>)
    requires forall id :: id in orders.rows ==> |orders.rows[id].cells| == 4
    ensures forall id :: id in m <==> Joined(orders, clients, services, companyId, id)
    ensures forall id :: id in m ==>
      (Joined(orders, clients, services, companyId, id) &&
       m[id] == OrderListing(NameOf(orders.rows[id].cells[ClientIdColumn], clients),
                             NameOf(orders.rows[id].cells[ServiceIdColumn], services),
                             orders.rows[id].cells[2], orders.rows[id].cells[3]))
  {
    map id | id in orders.rows && Joined(orders, clients, services, companyId, id)
      :: OrderListing(NameOf(orders.rows[id].cells[ClientIdColumn], clients),
                      NameOf(orders.rows[id].cells[ServiceIdColumn], services),
                      orders.rows[id].cells[2], orders.rows[id].cells[3])
  }

  /** Without a cascade, deleting a client hides its orders from the listing
      while the order rows themselves stay stored. */
  lemma DeletedClientHidesOrders(orders: Table, clients: Table, services: Table, companyId: int,
                                 clientId: int, clientCompany: Option<int>, orderId: int)
    requires TableValid(Orders, orders) && TableValid(Clients, clients)
    requires Delete(Clients, clients, clientId, clientCompany).status == 200
    requires orderId in orders.rows && ReferencedId(orders.rows[orderId].cells[ClientIdColumn]) == Some(clientId)
    ensures orderId !in ListOrders(orders, Delete(Clients, clients, clientId, clientCompany).table, services, companyId)
  {
  }

}
