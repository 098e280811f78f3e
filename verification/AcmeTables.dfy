/** The five tables of the server and the statements the code runs against them.

    A status write to a row that does not exist changes nothing, a conditional
    update reports how many rows it touched, and searches return exactly the rows
    that meet the comparison. */
module AcmeTables {

  datatype Option<+T> = None | Some(value: T)

  /** The status table, in the order of its rows. */
  datatype Status = Invalid | Pending | Ready | Processing | Valid | Expired

  datatype Identifier = Identifier(kind: string, value: string)

  datatype OrderRow = OrderRow(
    account: string,
    identifiers: seq<Identifier>,
    profile: string,
    status: Status,
    expires: int)

  /** `expires` is None where the column is NULL; 0 means that the row never expires. */
  datatype AuthzRow = AuthzRow(
    order: string,
    identifier: Identifier,
    status: Status,
    expires: Option<int>,
    token: string)

  datatype ChallengeRow = ChallengeRow(authz: string, kind: string, token: string, status: Status)

  /** `cert` and `raw` are empty until a certificate is stored. */
  datatype CertRow = CertRow(
    order: string,
    csr: string,
    cert: string,
    raw: string,
    issueUts: int,
    expireUts: int,
    created: int)

  datatype Tables = Tables(
    orders: map<string, OrderRow>,
    authzs: map<string, AuthzRow>,
    challenges: map<string, ChallengeRow>,
    certs: map<string, CertRow>)

  function SetOrder(db: Tables, name: string, status: Status): Tables {
    if name in db.orders then
      db.(orders := db.orders[name := db.orders[name].(status := status)])
    else db
  }

  function SetAuthz(db: Tables, name: string, status: Status): Tables {
    if name in db.authzs then
      db.(authzs := db.authzs[name := db.authzs[name].(status := status)])
    else db
  }

  function SetChallenge(db: Tables, name: string, status: Status): Tables {
    if name in db.challenges then
      db.(challenges := db.challenges[name := db.challenges[name].(status := status)])
    else db
  }

  /** The certificate upsert on an existing row. Without a row it would insert one
      that belongs to no order and carries no certificate, which no search returns. */
  function StoreCert(db: Tables, name: string, cert: string, raw: string, issue: int, expire: int): Tables {
    if name in db.certs then
      db.(certs := db.certs[name := db.certs[name].(cert := cert, raw := raw, issueUts := issue, expireUts := expire)])
    else db
  }

  predicate HasStatus(db: Tables, order: string, status: Status) {
    order in db.orders && db.orders[order].status == status
  }

  /** The authorizations of one order. */
  function AuthzsOf(authzs: map<string, AuthzRow>, order: string): set<string> {
    set a | a in authzs && authzs[a].order == order
  }

  /** The gate's reading of the expiry column: NULL and 0 never expire. */
  predicate UnexpiredAt(expires: Option<int>, now: int) {
    expires.None? || expires.value == 0 || now < expires.value
  }

  predicate UsableAt(row: AuthzRow, now: int) {
    row.status == Valid && UnexpiredAt(row.expires, now)
  }

  /** The issuance gate: the order has authorizations and each one is valid and unexpired. */
  predicate GateOpen(authzs: map<string, AuthzRow>, order: string, now: int) {
    && AuthzsOf(authzs, order) != {}
    && forall a | a in authzs && authzs[a].order == order :: UsableAt(authzs[a], now)
  }

  /** The promotion test looks at the status alone. */
  predicate AllValid(authzs: map<string, AuthzRow>, order: string) {
    && AuthzsOf(authzs, order) != {}
    && forall a | a in authzs && authzs[a].order == order :: authzs[a].status == Valid
  }

  /** Some row of the order holds a certificate. */
  predicate HasCertificate(db: Tables, order: string) {
    exists k :: k in db.certs && db.certs[k].order == order && db.certs[k].cert != ""
  }

  /** What the expiry sweep of the authorization table picks up at a given time:
      NULL never meets the comparison and 0 is skipped. */
  predicate AuthzExpiredAt(row: AuthzRow, t: int) {
    row.status != Expired && row.expires.Some? && row.expires.value != 0 && row.expires.value <= t
  }

  /** What the expiry sweep of the order table picks up. */
  predicate OrderExpiredAt(row: OrderRow, t: int) {
    row.status != Invalid && row.expires <= t
  }
}
