/**
  The relational data model: the tables of backend/database.js as maps from
  row id to row, each with the next AUTOINCREMENT id, and the UNIQUE
  constraints the store enforces. No table declares ON DELETE CASCADE.
*/
module Schema {
  import opened JsStrings

  /** A request-body field or a stored column value: null (also standing for
      an absent field), a string, or a number (money in integer cents). */
  datatype Cell = Null | Text(s: string) | Num(n: int)

  /** JavaScript truthiness of a body field: null, "" and 0 are falsy. */
  predicate Given(c: Cell) {
    match c
    case Null => false
    case Text(s) => s != ""
    case Num(n) => n != 0
  }

  /** bcrypt's hash, modelled as an injective constructor: `bcrypt.compare(p, h)`
      holds exactly when `h == Hashed(p)`. */
  datatype PasswordHash = Hashed(secret: string)

  datatype Company = Company(name: string, cnpj: string, email: string)

  datatype User = User(
    email: string,
    password: PasswordHash,
    companyId: int,
    resetToken: Option<string>,
    resetExpires: Option<int>)

  datatype Terms = Terms(content: string, companyId: int, lastUpdated: string)

  /** The six tenant-scoped resources that share one create/list/update/delete pattern. */
  datatype Resource = Products | Clients | Services | Orders | FinancialEntries | FinancialExits

  /** The body fields the routes read, one constructor per column name. */
  datatype Column =
    | Name | Category | Price | Stock | Email | Phone | City | Description | Value
    | ClientId | ServiceId | Status | Date | Cnpj

  /** The column's name in the SQL text. */
  function ColumnName(c: Column): string {
    match c
    case Name => "name"
    case Category => "category"
    case Price => "price"
    case Stock => "stock"
    case Email => "email"
    case Phone => "phone"
    case City => "city"
    case Description => "description"
    case Value => "value"
    case ClientId => "client_id"
    case ServiceId => "service_id"
    case Status => "status"
    case Date => "date"
    case Cnpj => "cnpj"
  }

  /** The body fields of each resource, in the order the routes read and the
      update routes test them. */
  function Columns(r: Resource): (cols: seq<Column>)
    ensures NoDuplicates(cols)
  {
    match r
    case Products => [Name, Category, Price, Stock]
    case Clients => [Name, Email, Phone, City]
    case Services => [Name, Description, Value]
    case Orders => [ClientId, ServiceId, Status, Value]
    case FinancialEntries => [Description, Date, Value]
    case FinancialExits => [Description, Date, Value]
  }

  /** The columns a create request must supply (besides company_id). */
  predicate Required(r: Resource, k: nat) {
    match r
    case Products => k == 0 || k == 2 || k == 3
    case Clients => k == 0 || k == 1
    case Services => k == 0 || k == 2
    case Orders => k < 4
    case FinancialEntries => k < 3
    case FinancialExits => k < 3
  }

  /** The column declared UNIQUE, if any: `clients.email`. */
  function UniqueColumn(r: Resource): (u: Option<nat>)
    ensures u.Some? ==> u.value < |Columns(r)|
  {
    if r == Clients then Some(1) else None
  }

  datatype Row = Row(cells: seq<Cell>, companyId: int)

  datatype Table = Table(rows: map<int, Row>, nextId: int)

  /** AUTOINCREMENT ids start at 1 and every used id is below the next one. */
  predicate IdsBelow<T>(rows: map<int, T>, nextId: int) {
    nextId >= 1 && forall id :: id in rows ==> 1 <= id < nextId
  }

  /** Another row already holds the non-null value `v` in column k. */
  predicate TakenBy(rows: map<int, Row>, k: nat, v: Cell, except: int) {
    v != Null && exists id :: id in rows && id != except && k < |rows[id].cells| && rows[id].cells[k] == v
  }

  predicate TableValid(r: Resource, t: Table) {
    && IdsBelow(t.rows, t.nextId)
    && (forall id :: id in t.rows ==> |t.rows[id].cells| == |Columns(r)|)
    && (UniqueColumn(r).Some? ==>
          forall id :: id in t.rows ==> !TakenBy(t.rows, UniqueColumn(r).value, t.rows[id].cells[UniqueColumn(r).value], id))
  }

  /** companies.cnpj and companies.email are each UNIQUE. */
  predicate CompaniesValid(companies: map<int, Company>) {
    forall a, b :: a in companies && b in companies && a != b ==>
      companies[a].cnpj != companies[b].cnpj && companies[a].email != companies[b].email
  }

  /** users.email is UNIQUE. */
  predicate UsersValid(users: map<int, User>) {
    forall a, b :: a in users && b in users && a != b ==> users[a].email != users[b].email
  }

  /** terms.company_id is UNIQUE: at most one terms row per company. */
  predicate TermsValid(terms: map<int, Terms>) {
    forall a, b :: a in terms && b in terms && a != b ==> terms[a].companyId != terms[b].companyId
  }
}
